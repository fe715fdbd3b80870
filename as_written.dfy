// The three loops of main.py that remove items from the list they iterate,
// as written. A Python list iterator advances by index, so the item right
// after a removed one is never reached (Lists.Visited). Each lemma below
// exhibits an item the loop skips; the Session classes model the intended
// behaviour, where the loop covers every item that is still present.
module AsWritten {
  import opened Physics
  import opened Lists
  import opened Actors
  import opened Session

  /** clear_level's loops remove every object they reach. */
  function Always(a: Actor): bool { true }

  /**
   * The bodies left in the space by clear_level as written (main.py:46-52):
   * each loop unregisters only the world objects and birds it reaches.
   */
  function BodiesAfterClear(world: seq<Actor>, birds: seq<Actor>, bodies: set<Body>): set<Body> {
    bodies - BodiesOf(Visited(world, Always)) - BodiesOf(Visited(birds, Always))
  }

  /** The shapes left in the space by clear_level as written, likewise. */
  function ShapesAfterClear(world: seq<Actor>, birds: seq<Actor>, shapes: set<Shape>): set<Shape> {
    shapes - ShapesOf(Visited(world, Always)) - ShapesOf(Visited(birds, Always))
  }

  /** The bird list after clear_level as written: it is never cleared, so the birds the loop skips stay. */
  function BirdsAfterClear(birds: seq<Actor>): seq<Actor> {
    Drop(birds, Elements(Visited(birds, Always)))
  }

  /** clear_level as written reaches exactly the objects at even positions. */
  lemma ClearLevelReachesEvenPositions(xs: seq<Actor>, k: nat)
    requires k < |xs| && k % 2 == 1
    ensures forall a :: a in Visited(xs, Always) ==> exists q :: 0 <= q < |xs| && q != k && a == xs[q]
  {
    var v := Visited(xs, Always);
    VisitedRemovingAll(xs, Always);
    forall a | a in v ensures exists q :: 0 <= q < |xs| && q != k && a == xs[q] {
      var r :| 0 <= r < |v| && v[r] == a;
      assert a == xs[2 * r];
    }
  }

  /**
   * Every world object at an odd position keeps its body and its shape
   * registered in the space after clear_level as written: with two world
   * objects, the second.
   */
  lemma ClearLevelLeavesOddObjects(world: seq<Actor>, birds: seq<Actor>, bodies: set<Body>, shapes: set<Shape>, k: nat)
    requires k < |world| && k % 2 == 1 && world[k].body in bodies && world[k].shape in shapes
    requires forall j :: 0 <= j < |world| && j != k ==> world[j].body != world[k].body && world[j].shape != world[k].shape
    requires forall j :: 0 <= j < |birds| ==> birds[j].body != world[k].body && birds[j].shape != world[k].shape
    ensures world[k].body in BodiesAfterClear(world, birds, bodies)
    ensures world[k].shape in ShapesAfterClear(world, birds, shapes)
  {
    ClearLevelReachesEvenPositions(world, k);
    assert world[k].body !in BodiesOf(Visited(world, Always));
    assert world[k].shape !in ShapesOf(Visited(world, Always));
    forall a | a in Visited(birds, Always) ensures a.body != world[k].body && a.shape != world[k].shape {
      var q :| 0 <= q < |birds| && birds[q] == a;
    }
  }

  /** Every bird at an odd position stays in the bird list after clear_level as written. */
  lemma ClearLevelLeavesOddBirds(birds: seq<Actor>, k: nat)
    requires k < |birds| && k % 2 == 1 && Distinct(birds)
    ensures birds[k] in BirdsAfterClear(birds)
  {
    ClearLevelReachesEvenPositions(birds, k);
    var v := Visited(birds, Always);
    forall r | 0 <= r < |v| ensures v[r] != birds[k] {
      assert v[r] in v;
      var q :| 0 <= q < |birds| && q != k && v[r] == birds[q];
    }
    assert birds[k] !in Elements(v);
  }

  /** The world objects collision_handler as written destroys (main.py:179-184): those in the contact that its loop reaches. */
  function StruckAsWritten(world: seq<Actor>, contact: set<Shape>): seq<Actor> {
    Touched(Visited(world, (a: Actor) => a.shape in contact), contact)
  }

  /**
   * Of two world objects next to each other in a hard contact, collision_handler
   * as written destroys the first and skips the second, although the second
   * is in the contact too.
   */
  lemma CollisionSkipsNeighbour(world: seq<Actor>, contact: set<Shape>, i: nat)
    requires i + 1 < |world| && Distinct(world)
    requires forall j :: 0 <= j < i ==> world[j].shape !in contact
    requires world[i].shape in contact && world[i + 1].shape in contact
    ensures world[i + 1] in Touched(world, contact)
    ensures world[i + 1] !in StruckAsWritten(world, contact)
  {
    VisitedSkipsNext(world, (a: Actor) => a.shape in contact, i);
    TouchedCovers(world, contact);
  }

  /** A bird of the right-click loop with its has_split flag when the click arrives. */
  function Splits(p: (Actor, bool)): bool {
    p.0.kind == Kind.BlueBird && !p.1
  }

  /** The birds paired with their flags. */
  function Flagged(birds: seq<Actor>, flags: seq<bool>): (r: seq<(Actor, bool)>)
    requires |birds| == |flags|
    ensures |r| == |birds| && forall k :: 0 <= k < |r| ==> r[k] == (birds[k], flags[k])
  {
    if birds == [] then [] else [(birds[0], flags[0])] + Flagged(birds[1..], flags[1..])
  }

  /**
   * The bird right after the first blue bird that splits never has on_click
   * run on it by the right-click loop as written (main.py:208-210): the
   * split removes the blue bird from the list being iterated.
   */
  lemma RightClickSkipsBirdAfterSplit(birds: seq<Actor>, flags: seq<bool>, i: nat)
    requires |birds| == |flags| && i + 1 < |birds| && Distinct(birds)
    requires forall j :: 0 <= j < i ==> !Splits((birds[j], flags[j]))
    requires birds[i].kind == Kind.BlueBird && !flags[i]
    ensures (birds[i], flags[i]) in Visited(Flagged(birds, flags), Splits)
    ensures (birds[i + 1], flags[i + 1]) !in Visited(Flagged(birds, flags), Splits)
  {
    var ps := Flagged(birds, flags);
    assert Distinct(ps) by {
      forall a, b | 0 <= a < b < |ps| ensures ps[a] != ps[b] {
        assert ps[a].0 == birds[a] && ps[b].0 == birds[b];
      }
    }
    VisitedSkipsNext(ps, Splits, i);
  }
}
