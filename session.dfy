// The game session of main.py: LevelManager, which owns the level counters
// and builds and tears down layouts, and App, whose event handlers spawn,
// steer and destroy actors.
module Session {
  import opened Geometry
  import opened Physics
  import opened Lists
  import opened Actors
  import opened Levels

  /** Sizes of the textures the level objects are built from (read from image files). */
  datatype Textures = Textures(pigWidth: real, columnWidth: real, columnHeight: real, beamWidth: real, beamHeight: real)

  /**
   * `objs` are the objects a layout's placements created, in order: same
   * kinds, and each body at its placement's spot.
   */
  ghost predicate Built(objs: seq<Actor>, layout: seq<Placement>)
    reads set i | 0 <= i < |objs| :: objs[i].body
  {
    && |objs| == |layout|
    && forall i :: 0 <= i < |objs| ==>
         objs[i].kind == layout[i].kind && objs[i].body.position == Vec(layout[i].x, layout[i].y)
  }

  /** The lists and registrations after one more adder call, counted from before the first one. */
  lemma AddedInTurn(world0: seq<Actor>, sprites0: seq<Actor>, bodies: set<Body>, shapes: set<Shape>,
                    added: seq<Actor>, o: Actor, w: seq<Actor>, t: seq<Actor>, b: set<Body>, h: set<Shape>)
    requires w == world0 + added && t == sprites0 + added
    requires b == bodies + BodiesOf(added) && h == shapes + ShapesOf(added)
    ensures w + [o] == world0 + (added + [o]) && t + [o] == sprites0 + (added + [o])
    ensures b + {o.body} == bodies + BodiesOf(added + [o]) && h + {o.shape} == shapes + ShapesOf(added + [o])
  {
    ShapesAndBodiesOfAppend(added, o);
  }

  lemma BuiltSnoc(objs: seq<Actor>, layout: seq<Placement>, i: nat, o: Actor)
    requires i < |layout| && Built(objs, layout[..i])
    requires o.kind == layout[i].kind && o.body.position == Vec(layout[i].x, layout[i].y)
    ensures Built(objs + [o], layout[..i + 1])
  {
    assert layout[..i + 1] == layout[..i] + [layout[i]];
  }

  lemma {:induction false} BuiltCountsKinds(objs: seq<Actor>, layout: seq<Placement>, k: Kind)
    requires |objs| == |layout| && forall i :: 0 <= i < |objs| ==> objs[i].kind == layout[i].kind
    ensures CountKind(objs, k) == KindCount(layout, k)
  {
    if objs != [] {
      BuiltCountsKinds(objs[1..], layout[1..], k);
    }
  }

  /** Dropping the objects of a snapshot one more step. */
  lemma DropNext(xs: seq<Actor>, objs: seq<Actor>, i: nat)
    requires i < |objs|
    ensures Drop(Drop(xs, Elements(objs[..i])), {objs[i]}) == Drop(xs, Elements(objs[..i + 1]))
  {
    assert objs[..i + 1] == objs[..i] + [objs[i]];
    assert Elements(objs[..i + 1]) == Elements(objs[..i]) + {objs[i]};
    DropTwice(xs, Elements(objs[..i]), {objs[i]});
  }

  lemma RegistrationsNext(objs: seq<Actor>, i: nat)
    requires i < |objs|
    ensures BodiesOf(objs[..i + 1]) == BodiesOf(objs[..i]) + {objs[i].body}
    ensures ShapesOf(objs[..i + 1]) == ShapesOf(objs[..i]) + {objs[i].shape}
  {
    assert objs[..i + 1] == objs[..i] + [objs[i]];
    ShapesAndBodiesOfAppend(objs[..i], objs[i]);
  }

  /** The objects of `xs` whose shape takes part in a contact, in order. */
  function Touched(xs: seq<Actor>, contact: set<Shape>): (r: seq<Actor>)
    ensures forall k :: 0 <= k < |r| ==> r[k] in xs && r[k].shape in contact
  {
    if xs == [] then [] else (if xs[0].shape in contact then [xs[0]] else []) + Touched(xs[1..], contact)
  }

  /** The objects of `xs` whose shape does not take part in the contact, in order. */
  function Untouched(xs: seq<Actor>, contact: set<Shape>): (r: seq<Actor>)
    ensures forall k :: 0 <= k < |r| ==> r[k] in xs && r[k].shape !in contact
  {
    if xs == [] then [] else (if xs[0].shape in contact then [] else [xs[0]]) + Untouched(xs[1..], contact)
  }

  lemma {:induction false} TouchedAppend(xs: seq<Actor>, ys: seq<Actor>, contact: set<Shape>)
    ensures Touched(xs + ys, contact) == Touched(xs, contact) + Touched(ys, contact)
    ensures Untouched(xs + ys, contact) == Untouched(xs, contact) + Untouched(ys, contact)
  {
    if xs == [] {
      assert xs + ys == ys;
    } else {
      assert (xs + ys)[1..] == xs[1..] + ys;
      TouchedAppend(xs[1..], ys, contact);
    }
  }

  /** Every object of `xs` is either touched or untouched. */
  lemma {:induction false} TouchedCovers(xs: seq<Actor>, contact: set<Shape>)
    ensures forall k :: 0 <= k < |xs| ==> xs[k] in Touched(xs, contact) || xs[k] in Untouched(xs, contact)
  {
    if xs != [] {
      TouchedCovers(xs[1..], contact);
      forall k | 1 <= k < |xs|
        ensures xs[k] in Touched(xs, contact) || xs[k] in Untouched(xs, contact)
      {
        assert xs[k] == xs[1..][k - 1];
      }
    }
  }

  lemma TouchedPartition(xs: seq<Actor>, contact: set<Shape>)
    ensures BodiesOf(Touched(xs, contact)) + BodiesOf(Untouched(xs, contact)) == BodiesOf(xs)
    ensures ShapesOf(Touched(xs, contact)) + ShapesOf(Untouched(xs, contact)) == ShapesOf(xs)
  {
    TouchedCovers(xs, contact);
  }

  /** One more object of a snapshot `w` considered by the contact loop, when it is not in the contact. */
  lemma StepUntouched(w: seq<Actor>, i: nat, contact: set<Shape>)
    requires i < |w| && w[i].shape !in contact
    ensures Untouched(w[..i + 1], contact) + w[i + 1..] == Untouched(w[..i], contact) + w[i..]
    ensures Touched(w[..i + 1], contact) == Touched(w[..i], contact)
  {
    assert w[..i + 1] == w[..i] + [w[i]];
    TouchedAppend(w[..i], [w[i]], contact);
    assert w[i..] == [w[i]] + w[i + 1..];
  }

  /** One more object of a snapshot `w` considered by the contact loop, when it is in the contact. */
  lemma StepTouched(w: seq<Actor>, i: nat, contact: set<Shape>)
    requires i < |w| && w[i].shape in contact && Distinct(w)
    ensures Drop(Untouched(w[..i], contact) + w[i..], {w[i]}) == Untouched(w[..i + 1], contact) + w[i + 1..]
    ensures Touched(w[..i + 1], contact) == Touched(w[..i], contact) + [w[i]]
  {
    assert w[..i + 1] == w[..i] + [w[i]];
    TouchedAppend(w[..i], [w[i]], contact);
    DropTouched(w, i, Untouched(w[..i], contact));
  }

  lemma DropTouched(w: seq<Actor>, i: nat, u: seq<Actor>)
    requires i < |w| && Distinct(w)
    requires forall k :: 0 <= k < |u| ==> u[k] in w[..i]
    ensures Drop(u + w[i..], {w[i]}) == u + w[i + 1..]
  {
    NotYetVisited(w, i, u);
    DropHead(u, w[i..]);
    assert w[i..][1..] == w[i + 1..];
  }

  /** A distinct list's element `w[i]` is in neither `w[i + 1..]` nor what was taken from `w[..i]`. */
  lemma NotYetVisited(w: seq<Actor>, i: nat, u: seq<Actor>)
    requires i < |w| && Distinct(w)
    requires forall k :: 0 <= k < |u| ==> u[k] in w[..i]
    ensures w[i] !in u && w[i] !in w[i + 1..]
  {
    DistinctSplit(w, i);
    forall k | 0 <= k < |u|
      ensures u[k] != w[i]
    {
      assert u[k] in w[..i];
    }
  }

  /** Dropping the head `v[0]` from `u + v`, where it occurs nowhere else, leaves `u + v[1..]`. */
  lemma DropHead(u: seq<Actor>, v: seq<Actor>)
    requires v != [] && v[0] !in u && v[0] !in v[1..]
    ensures Drop(u + v, {v[0]}) == u + v[1..]
  {
    var x, rest := v[0], v[1..];
    DropAbsent(u, x);
    DropAbsent(rest, x);
    assert v == [x] + rest;
    assert Drop([x] + rest, {x}) == rest;
    DropAppend(u, v, {x});
  }

  /** The bookkeeping of one more destroyed object `x` after the objects `hit`. */
  lemma HitAccounts(xs: seq<Actor>, hit: seq<Actor>, x: Actor)
    ensures Drop(Drop(xs, Elements(hit)), {x}) == Drop(xs, Elements(hit + [x]))
    ensures BodiesOf(hit + [x]) == BodiesOf(hit) + {x.body} && ShapesOf(hit + [x]) == ShapesOf(hit) + {x.shape}
    ensures CountKind(hit + [x], Kind.Pig) == CountKind(hit, Kind.Pig) + (if x.kind == Kind.Pig then 1 else 0)
  {
    ElementsSnoc(hit, x);
    DropTwice(xs, Elements(hit), {x});
    ShapesAndBodiesOfAppend(hit, x);
    CountKindAppend(hit, [x], Kind.Pig);
  }

  /**
   * When the last pig goes at step `i`, the objects destroyed so far and the
   * ones the reload clears are together the whole snapshot and the birds.
   */
  lemma ReloadAccounts(w: seq<Actor>, i: nat, contact: set<Shape>, birds: seq<Actor>)
    requires i < |w|
    ensures BodiesOf(Touched(w[..i + 1], contact)) + BodiesOf(Untouched(w[..i + 1], contact) + w[i + 1..] + birds)
            == BodiesOf(w + birds)
    ensures ShapesOf(Touched(w[..i + 1], contact)) + ShapesOf(Untouched(w[..i + 1], contact) + w[i + 1..] + birds)
            == ShapesOf(w + birds)
  {
    var p, q := w[..i + 1], w[i + 1..];
    var t, u := Touched(p, contact), Untouched(p, contact);
    assert p + q == w;
    TouchedPartition(p, contact);
    ShapesAndBodiesOfConcat(u + q, birds);
    ShapesAndBodiesOfConcat(u, q);
    ShapesAndBodiesOfConcat(p, q);
    ShapesAndBodiesOfConcat(w, birds);
    calc {
      BodiesOf(t) + BodiesOf(u + q + birds);
      BodiesOf(t) + (BodiesOf(u) + BodiesOf(q) + BodiesOf(birds));
      (BodiesOf(t) + BodiesOf(u)) + BodiesOf(q) + BodiesOf(birds);
      BodiesOf(p) + BodiesOf(q) + BodiesOf(birds);
      BodiesOf(w + birds);
    }
    calc {
      ShapesOf(t) + ShapesOf(u + q + birds);
      ShapesOf(t) + (ShapesOf(u) + ShapesOf(q) + ShapesOf(birds));
      (ShapesOf(t) + ShapesOf(u)) + ShapesOf(q) + ShapesOf(birds);
      ShapesOf(p) + ShapesOf(q) + ShapesOf(birds);
      ShapesOf(w + birds);
    }
  }

  /**
   * Destroying the objects of `w` whose shape is in the contact, in order,
   * brings a pig count of `pigs` to zero or below: pig_destroyed then reloads.
   */
  ghost predicate LastPigTouched(w: seq<Actor>, contact: set<Shape>, pigs: int) {
    var hit := CountKind(Touched(w, contact), Kind.Pig);
    hit >= 1 && hit >= pigs
  }

  /** The contact never holds more pigs than the list, and as many exactly when it holds every one of them. */
  lemma {:induction false} TouchedPigs(w: seq<Actor>, contact: set<Shape>)
    ensures CountKind(Touched(w, contact), Kind.Pig) <= CountKind(w, Kind.Pig)
    ensures CountKind(Touched(w, contact), Kind.Pig) == CountKind(w, Kind.Pig) <==>
            forall k :: 0 <= k < |w| && w[k].kind == Kind.Pig ==> w[k].shape in contact
  {
    if w != [] {
      TouchedPigs(w[1..], contact);
      var t := if w[0].shape in contact then [w[0]] else [];
      CountKindAppend(t, Touched(w[1..], contact), Kind.Pig);
      assert forall k :: 1 <= k < |w| ==> w[k] == w[1..][k - 1];
    }
  }

  /**
   * With pig_count equal to the pigs in the world, a hard contact reloads the
   * level exactly when the world has a pig and the contact holds all of them.
   */
  lemma LastPigMeansEveryPig(w: seq<Actor>, contact: set<Shape>)
    ensures LastPigTouched(w, contact, CountKind(w, Kind.Pig)) <==>
            CountKind(w, Kind.Pig) >= 1 && forall k :: 0 <= k < |w| && w[k].kind == Kind.Pig ==> w[k].shape in contact
  {
    TouchedPigs(w, contact);
  }

  /**
   * The contact loop's reload after one more object `w[i]`: `count` is the
   * pig count and `world` the world list before that pass.
   */
  lemma LastPigStep(w: seq<Actor>, i: nat, contact: set<Shape>, pigs: int, count: int, world: seq<Actor>,
                    before: bool, after: bool)
    requires i < |w|
    requires before <==> LastPigTouched(w[..i], contact, pigs)
    requires !before ==>
      world == Untouched(w[..i], contact) + w[i..] && count == pigs - CountKind(Touched(w[..i], contact), Kind.Pig)
    requires after <==> before || (w[i] in world && w[i].shape in contact && w[i].kind == Kind.Pig && count <= 1)
    ensures after <==> LastPigTouched(w[..i + 1], contact, pigs)
  {
    assert w[..i + 1] == w[..i] + [w[i]];
    TouchedAppend(w[..i], [w[i]], contact);
    CountKindAppend(Touched(w[..i], contact), Touched([w[i]], contact), Kind.Pig);
    if !before {
      assert w[i] == w[i..][0];
    }
  }

  /** Removing the registrations of `xs` and then those of `ys` removes those of `xs + ys`. */
  lemma RemovedInTurn(bodies: set<Body>, shapes: set<Shape>, xs: seq<Actor>, ys: seq<Actor>)
    ensures bodies - BodiesOf(xs) - BodiesOf(ys) == bodies - BodiesOf(xs + ys)
    ensures shapes - ShapesOf(xs) - ShapesOf(ys) == shapes - ShapesOf(xs + ys)
  {
    ShapesAndBodiesOfConcat(xs, ys);
  }

  /** The bookkeeping of one more split bird `b` whose children `c` join the end of a list. */
  lemma SplitAccounts(xs: seq<Actor>, split: seq<Actor>, children: seq<Actor>, b: Actor, c: seq<Actor>)
    requires b !in children
    ensures Drop(Drop(xs, Elements(split)) + children, {b}) + c == Drop(xs, Elements(split + [b])) + (children + c)
  {
    DropAppend(Drop(xs, Elements(split)), children, {b});
    DropAbsent(children, b);
    DropTwice(xs, Elements(split), {b});
    ElementsSnoc(split, b);
  }

  /**
   * The lists and registrations of the right-click loop: the birds of `split`
   * have left both lists and the space, and their `children` have joined them.
   */
  ghost predicate Accounted(snapshot: seq<Actor>, sprites0: seq<Actor>, bodies0: set<Body>, shapes0: set<Shape>,
                            split: seq<Actor>, children: seq<Actor>,
                            birds: seq<Actor>, sprites: seq<Actor>, bodies: set<Body>, shapes: set<Shape>)
  {
    && birds == Drop(snapshot, Elements(split)) + children
    && sprites == Drop(sprites0, Elements(split)) + children
    && bodies == bodies0 + BodiesOf(children) - BodiesOf(split)
    && shapes == shapes0 + ShapesOf(children) - ShapesOf(split)
  }

  /** The accounting of the right-click loop after on_click on `b`, which split into `c` when `splits`. */
  lemma AccountedNext(snapshot: seq<Actor>, sprites0: seq<Actor>, bodies0: set<Body>, shapes0: set<Shape>,
                      split: seq<Actor>, children: seq<Actor>, b: Actor, splits: bool, c: seq<Actor>,
                      birds1: seq<Actor>, sprites1: seq<Actor>, bodies1: set<Body>, shapes1: set<Shape>,
                      birds2: seq<Actor>, sprites2: seq<Actor>, bodies2: set<Body>, shapes2: set<Shape>)
    requires Accounted(snapshot, sprites0, bodies0, shapes0, split, children, birds1, sprites1, bodies1, shapes1)
    requires b !in children
    requires forall k :: 0 <= k < |c| ==> c[k].body !in BodiesOf(split) && c[k].shape !in ShapesOf(split)
    requires splits ==>
      && birds2 == Drop(birds1, {b}) + c && sprites2 == Drop(sprites1, {b}) + c
      && bodies2 == bodies1 + BodiesOf(c) - {b.body} && shapes2 == shapes1 + ShapesOf(c) - {b.shape}
    requires !splits ==> c == [] && birds2 == birds1 && sprites2 == sprites1 && bodies2 == bodies1 && shapes2 == shapes1
    ensures Accounted(snapshot, sprites0, bodies0, shapes0, if splits then split + [b] else split, children + c,
                      birds2, sprites2, bodies2, shapes2)
  {
    if splits {
      SplitAccounts(snapshot, split, children, b, c);
      SplitAccounts(sprites0, split, children, b, c);
      ShapesAndBodiesOfConcat(children, c);
      ShapesAndBodiesOfAppend(split, b);
    } else {
      assert children + c == children;
    }
  }

  /** The state each bird of `xs` starts on_click from, in order. */
  ghost function BirdStates(m: Numerics, xs: seq<Actor>): (r: seq<BirdState>)
    reads (set j | 0 <= j < |xs| :: xs[j])`hasBoosted, (set j | 0 <= j < |xs| :: xs[j])`hasSplit
    reads (set j | 0 <= j < |xs| :: xs[j].body)`impulses, (set j | 0 <= j < |xs| :: xs[j].body)`velocity
    reads (set j | 0 <= j < |xs| :: xs[j].body)`angle
    ensures |r| == |xs| && forall j :: 0 <= j < |xs| ==> r[j] == xs[j].Before(m)
  {
    if xs == [] then [] else BirdStates(m, xs[..|xs| - 1]) + [xs[|xs| - 1].Before(m)]
  }

  /** `now` holds the state of each bird of `xs`, in order. */
  ghost predicate StatesAre(m: Numerics, xs: seq<Actor>, now: seq<BirdState>)
    reads (set j | 0 <= j < |xs| :: xs[j])`hasBoosted, (set j | 0 <= j < |xs| :: xs[j])`hasSplit
    reads (set j | 0 <= j < |xs| :: xs[j].body)`impulses, (set j | 0 <= j < |xs| :: xs[j].body)`velocity
    reads (set j | 0 <= j < |xs| :: xs[j].body)`angle
  {
    |now| == |xs| && forall j :: 0 <= j < |xs| ==> xs[j].Before(m) == now[j]
  }

  /** The has_split flag of each of the bird states `states`. */
  function SplitFlags(states: seq<BirdState>): (r: seq<bool>)
    ensures |r| == |states| && forall j :: 0 <= j < |states| ==> r[j] == states[j].hasSplit
  {
    if states == [] then [] else SplitFlags(states[..|states| - 1]) + [states[|states| - 1].hasSplit]
  }

  /** The blue birds of `xs` whose has_split flag in `wasSplit` is still false: the ones a right click splits. */
  function Unsplit(xs: seq<Actor>, wasSplit: seq<bool>): (r: seq<Actor>)
    requires |wasSplit| == |xs|
    ensures |r| <= |xs|
    ensures forall k :: 0 <= k < |r| ==> r[k].kind == Kind.BlueBird
  {
    if xs == [] then []
    else
      var n := |xs| - 1;
      Unsplit(xs[..n], wasSplit[..n]) + (if xs[n].kind == Kind.BlueBird && !wasSplit[n] then [xs[n]] else [])
  }

  /** Extending the prefix by one bird extends the list of birds to split by that bird, if it is one. */
  lemma UnsplitNext(xs: seq<Actor>, wasSplit: seq<bool>, i: nat)
    requires i < |xs| == |wasSplit|
    ensures Unsplit(xs[..i + 1], wasSplit[..i + 1])
            == Unsplit(xs[..i], wasSplit[..i]) + (if xs[i].kind == Kind.BlueBird && !wasSplit[i] then [xs[i]] else [])
  {
    var ys, fs := xs[..i + 1], wasSplit[..i + 1];
    assert ys[..i] == xs[..i] && fs[..i] == wasSplit[..i];
    assert ys != [] && |ys| - 1 == i && ys[i] == xs[i] && fs[i] == wasSplit[i];
  }

  /**
   * The states `now` of the birds of `snapshot`, whose states before the
   * right click were `before`, once on_click has run on the first `i`.
   */
  ghost predicate ClickedPrefix(snapshot: seq<Actor>, before: seq<BirdState>, now: seq<BirdState>, i: nat) {
    && i <= |snapshot| == |before| == |now|
    && (forall j :: 0 <= j < i ==> Clicks(snapshot[j].kind, before[j], now[j]))
    && (forall j :: i <= j < |snapshot| ==> now[j] == before[j])
  }

  /** on_click on `snapshot[i]`, taking it to state `t`, extends the clicked prefix by one. */
  lemma ClickedPrefixNext(snapshot: seq<Actor>, before: seq<BirdState>, now: seq<BirdState>, i: nat, t: BirdState)
    requires ClickedPrefix(snapshot, before, now, i) && i < |snapshot|
    requires Clicks(snapshot[i].kind, now[i], t)
    ensures ClickedPrefix(snapshot, before, now[i := t], i + 1)
  {
  }

  /**
   * How far the right-click loop over `snapshot` has got after `i` passes:
   * the first `i` birds have had on_click, the blue ones among them that had
   * not split before (`wasSplit`) are `split`, and `children` are new birds.
   */
  ghost predicate ClickProgress(snapshot: seq<Actor>, before: seq<BirdState>, wasSplit: seq<bool>, now: seq<BirdState>,
                                i: nat, split: seq<Actor>, children: seq<Actor>) {
    && Distinct(snapshot) && BodiesApart(snapshot) && i <= |snapshot| == |before| == |wasSplit|
    && (forall j :: 0 <= j < |snapshot| ==> wasSplit[j] == before[j].hasSplit)
    && ClickedPrefix(snapshot, before, now, i)
    && split == Unsplit(snapshot[..i], wasSplit[..i])
    && (forall j :: i <= j < |snapshot| ==> snapshot[j] !in split)
    && |children| == 3 * |split|
    && (forall k :: 0 <= k < |children| ==> children[k] !in snapshot && children[k].kind == Kind.Bird)
  }

  /**
   * The birds `children` came from splitting the blue birds `split`, three
   * each and in order: `children[k]` is split bird `k % 3` of `split[k / 3]`.
   */
  ghost predicate Spawned(m: Numerics, split: seq<Actor>, children: seq<Actor>)
    reads (set k | 0 <= k < |children| :: children[k])`hasBoosted, (set k | 0 <= k < |children| :: children[k])`hasSplit
    reads (set k | 0 <= k < |children| :: children[k].body)`position
    reads (set k | 0 <= k < |children| :: children[k].body)`velocity
    reads set k | 0 <= k < |children| :: children[k].shape
    reads (set j | 0 <= j < |split| :: split[j].body)`position, (set j | 0 <= j < |split| :: split[j].body)`velocity
    reads set j | 0 <= j < |split| :: split[j].shape
  {
    && |children| == 3 * |split|
    && forall k :: 0 <= k < |children| ==>
         var parent := split[k / 3];
         children[k].IsSplitChildOf(parent, m.Rotate(parent.body.velocity, SplitOffsets(parent.angleOffset)[k % 3]))
  }

  /** Three more split birds `c` of `b` extend the pairing of split birds with their parents. */
  lemma SpawnedNext(m: Numerics, split: seq<Actor>, children: seq<Actor>, b: Actor, c: seq<Actor>)
    requires Spawned(m, split, children) && |c| == 3
    requires forall t :: 0 <= t < 3 ==> c[t].IsSplitChildOf(b, m.Rotate(b.body.velocity, SplitOffsets(b.angleOffset)[t]))
    ensures Spawned(m, split + [b], children + c)
  {
    var split', children' := split + [b], children + c;
    forall k | 0 <= k < |children'|
      ensures children'[k].IsSplitChildOf(split'[k / 3], m.Rotate(split'[k / 3].body.velocity,
                                                                 SplitOffsets(split'[k / 3].angleOffset)[k % 3]))
    {
      if k < |children| {
        assert children'[k] == children[k] && split'[k / 3] == split[k / 3];
      } else {
        var t := k - |children|;
        assert k / 3 == |split| && k % 3 == t;
        assert children'[k] == c[t] && split'[k / 3] == b;
      }
    }
  }

  class LevelManager {
    const space: Space
    const sprites: SpriteList
    const world: SpriteList
    const bird: SpriteList
    const textures: Textures
    /** The level methods, in order, as the layouts they build. */
    const levels: seq<seq<Placement>>
    var currentLevel: int
    var pigCount: int
    /** Set where the game calls arcade.exit(). */
    var exited: bool

    /** The shape of the state that holds between and during the manager's operations. */
    ghost predicate Wired()
      reads this, sprites, world, bird
    {
      && sprites != world && sprites != bird && world != bird
      && LevelsTable(levels)
      && currentLevel >= 0
      && (exited <==> currentLevel > LevelTotal)
      && Distinct(world.items) && Distinct(bird.items)
      && (forall i :: 0 <= i < |world.items| ==> world.items[i].Valid() && !world.items[i].kind.IsBird())
      && (forall i :: 0 <= i < |bird.items| ==> bird.items[i].Valid() && bird.items[i].kind.IsBird())
      && (forall i :: 0 <= i < |sprites.items| ==> sprites.items[i].Valid())
      && (forall i :: 0 <= i < |bird.items| ==> bird.items[i].kind == Kind.BlueBird ==>
            bird.items[i].spritesList == sprites && bird.items[i].birdsList == bird && bird.items[i].space == space)
    }

    /** Between operations `pig_count` is the number of pigs in `world`. */
    ghost predicate Valid()
      reads this, sprites, world, bird
    {
      Wired() && pigCount == CountKind(world.items, Kind.Pig)
    }

    function Counters(): Progress
      reads this
    {
      Progress(currentLevel, pigCount, exited)
    }

    /** What load_level leaves behind: the layout of the current level, or an empty world past the last one. */
    ghost predicate Loaded()
      reads this, sprites, world, bird, set i | 0 <= i < |world.items| :: world.items[i].body
    {
      && bird.items == []
      && (1 <= currentLevel <= |levels| ==> Built(world.items, levels[currentLevel - 1]) && sprites.items == world.items)
      && (currentLevel > |levels| ==> world.items == [] && sprites.items == [])
    }

    constructor (space: Space, sprites: SpriteList, world: SpriteList, bird: SpriteList, textures: Textures)
      requires sprites != world && sprites != bird && world != bird
      requires sprites.items == [] && world.items == [] && bird.items == []
      ensures Valid() && Counters() == Progress(0, 0, false)
      ensures this.space == space && this.sprites == sprites && this.world == world && this.bird == bird
      ensures this.textures == textures && levels == Layouts()
    {
      this.space, this.sprites, this.world, this.bird := space, sprites, world, bird;
      this.textures := textures;
      levels := Layouts();
      LayoutsTable();
      currentLevel, pigCount, exited := 0, 0, false;
    }

    method AddPig(x: real, y: real) returns (pig: Actor)
      requires Valid()
      modifies sprites, world, space, this`pigCount
      ensures Valid()
      ensures fresh(pig) && fresh(pig.body) && pig.kind == Kind.Pig && pig.space == space
      ensures pig.body.position == Vec(x, y) && pig.shape.outline == Circle(textures.pigWidth / 2.0 - 3.0)
      ensures sprites.items == old(sprites.items) + [pig] && world.items == old(world.items) + [pig]
      ensures pigCount == old(pigCount) + 1
      ensures space.bodies == old(space.bodies) + {pig.body} && space.shapes == old(space.shapes) + {pig.shape}
    {
      pig := new Actor.Pig(x, y, space, textures.pigWidth);
      sprites.Append(pig);
      world.Append(pig);
      pigCount := pigCount + 1;
      CountKindAppend(old(world.items), [pig], Kind.Pig);
    }

    method AddColumn(x: real, y: real) returns (column: Actor)
      requires Valid()
      modifies sprites, world, space
      ensures Valid()
      ensures fresh(column) && fresh(column.body) && column.kind == Kind.Column && column.space == space
      ensures column.body.position == Vec(x, y) && column.shape.outline == Box(textures.columnWidth, textures.columnHeight)
      ensures sprites.items == old(sprites.items) + [column] && world.items == old(world.items) + [column]
      ensures pigCount == old(pigCount)
      ensures space.bodies == old(space.bodies) + {column.body} && space.shapes == old(space.shapes) + {column.shape}
    {
      column := new Actor.PassiveObject(Kind.Column, x, y, space, textures.columnWidth, textures.columnHeight);
      sprites.Append(column);
      world.Append(column);
      CountKindAppend(old(world.items), [column], Kind.Pig);
    }

    method AddBeam(x: real, y: real) returns (beam: Actor)
      requires Valid()
      modifies sprites, world, space
      ensures Valid()
      ensures fresh(beam) && fresh(beam.body) && beam.kind == Kind.Beam && beam.space == space
      ensures beam.body.position == Vec(x, y) && beam.shape.outline == Box(textures.beamWidth, textures.beamHeight)
      ensures sprites.items == old(sprites.items) + [beam] && world.items == old(world.items) + [beam]
      ensures pigCount == old(pigCount)
      ensures space.bodies == old(space.bodies) + {beam.body} && space.shapes == old(space.shapes) + {beam.shape}
    {
      beam := new Actor.PassiveObject(Kind.Beam, x, y, space, textures.beamWidth, textures.beamHeight);
      sprites.Append(beam);
      world.Append(beam);
      CountKindAppend(old(world.items), [beam], Kind.Pig);
    }

    /**
     * One line of a level method: the adder for the placement's kind. The
     * ghost parameters carry the registrations of the objects already added.
     */
    method AddPlacement(p: Placement, ghost added: seq<Actor>, ghost world0: seq<Actor>, ghost sprites0: seq<Actor>,
                        ghost bodies: set<Body>, ghost shapes: set<Shape>)
      returns (o: Actor)
      requires Valid() && p.kind in {Kind.Pig, Kind.Column, Kind.Beam}
      requires world.items == world0 + added && sprites.items == sprites0 + added
      requires space.bodies == bodies + BodiesOf(added) && space.shapes == shapes + ShapesOf(added)
      modifies sprites, world, space, this`pigCount
      ensures Valid()
      ensures fresh(o) && fresh(o.body) && o.kind == p.kind && o.body.position == Vec(p.x, p.y)
      ensures sprites.items == sprites0 + (added + [o]) && world.items == world0 + (added + [o])
      ensures space.bodies == bodies + BodiesOf(added + [o]) && space.shapes == shapes + ShapesOf(added + [o])
    {
      ghost var w, t, b, h := world.items, sprites.items, space.bodies, space.shapes;
      if p.kind == Kind.Pig {
        o := AddPig(p.x, p.y);
      } else if p.kind == Kind.Column {
        o := AddColumn(p.x, p.y);
      } else {
        o := AddBeam(p.x, p.y);
      }
      AddedInTurn(world0, sprites0, bodies, shapes, added, o, w, t, b, h);
    }

    /** level_1 .. level_3: the layout's adder calls, in order. */
    method BuildLevel(layout: seq<Placement>) returns (ghost added: seq<Actor>)
      requires Valid() && WorldLayout(layout)
      modifies sprites, world, space, this`pigCount
      ensures Valid()
      ensures |added| == |layout| && forall i :: 0 <= i < |added| ==> fresh(added[i]) && added[i].kind == layout[i].kind
      ensures forall i :: 0 <= i < |added| ==> added[i].body.position == Vec(layout[i].x, layout[i].y)
      ensures world.items == old(world.items) + added && sprites.items == old(sprites.items) + added
      ensures pigCount == old(pigCount) + KindCount(layout, Kind.Pig)
      ensures space.bodies == old(space.bodies) + BodiesOf(added) && space.shapes == old(space.shapes) + ShapesOf(added)
    {
      added := [];
      for i := 0 to |layout|
        invariant Valid()
        invariant |added| == i
        invariant forall j :: 0 <= j < i ==> fresh(added[j])
        invariant Built(added, layout[..i])
        invariant world.items == old(world.items) + added && sprites.items == old(sprites.items) + added
        invariant space.bodies == old(space.bodies) + BodiesOf(added) && space.shapes == old(space.shapes) + ShapesOf(added)
      {
        var o := AddPlacement(layout[i], added, old(world.items), old(sprites.items), old(space.bodies), old(space.shapes));
        BuiltSnoc(added, layout, i, o);
        added := added + [o];
      }
      assert layout[..|layout|] == layout;
      CountKindAppend(old(world.items), added, Kind.Pig);
      BuiltCountsKinds(added, layout, Kind.Pig);
    }

    /** Sprite.remove_from_sprite_lists on the manager's lists, then space.remove(o.shape, o.body). */
    method Discard(o: Actor)
      requires sprites != world && sprites != bird && world != bird
      modifies sprites, world, bird, space
      ensures sprites.items == Drop(old(sprites.items), {o}) && world.items == Drop(old(world.items), {o})
      ensures bird.items == Drop(old(bird.items), {o})
      ensures space.bodies == old(space.bodies) - {o.body} && space.shapes == old(space.shapes) - {o.shape}
    {
      sprites.Remove(o);
      world.Remove(o);
      bird.Remove(o);
      space.Remove(o.shape, o.body);
    }

    /** A world object hit hard enough: leaves the lists and the space; birds are not touched. */
    method DiscardWorldObject(o: Actor)
      requires Valid() && o in world.items
      modifies sprites, world, bird, space
      ensures Wired() && pigCount == CountKind(world.items, Kind.Pig) + (if o.kind == Kind.Pig then 1 else 0)
      ensures sprites.items == Drop(old(sprites.items), {o}) && world.items == Drop(old(world.items), {o})
      ensures bird.items == old(bird.items)
      ensures space.bodies == old(space.bodies) - {o.body} && space.shapes == old(space.shapes) - {o.shape}
    {
      forall i | 0 <= i < |bird.items| ensures bird.items[i] !in {o} {
        assert bird.items[i].kind.IsBird();
      }
      DropNothing(bird.items, {o});
      CountKindDropOne(world.items, o, Kind.Pig);
      DropKeepsDistinct(world.items, {o});
      Discard(o);
    }

    /** Discards each of `objs` in turn: a loop over a snapshot of one of the lists. */
    method DiscardAll(objs: seq<Actor>)
      requires sprites != world && sprites != bird && world != bird
      modifies sprites, world, bird, space
      ensures sprites.items == Drop(old(sprites.items), Elements(objs))
      ensures world.items == Drop(old(world.items), Elements(objs))
      ensures bird.items == Drop(old(bird.items), Elements(objs))
      ensures space.bodies == old(space.bodies) - BodiesOf(objs) && space.shapes == old(space.shapes) - ShapesOf(objs)
    {
      assert Elements(objs[..0]) == {};
      DropNothing(sprites.items, {});
      DropNothing(world.items, {});
      DropNothing(bird.items, {});
      for i := 0 to |objs|
        invariant sprites.items == Drop(old(sprites.items), Elements(objs[..i]))
        invariant world.items == Drop(old(world.items), Elements(objs[..i]))
        invariant bird.items == Drop(old(bird.items), Elements(objs[..i]))
        invariant space.bodies == old(space.bodies) - BodiesOf(objs[..i])
        invariant space.shapes == old(space.shapes) - ShapesOf(objs[..i])
      {
        DiscardNext(objs, i, old(sprites.items), old(world.items), old(bird.items), old(space.bodies), old(space.shapes));
      }
      assert objs[..|objs|] == objs;
    }

    /** One pass of a discarding loop: `objs[i]` leaves the lists and the space. */
    method DiscardNext(objs: seq<Actor>, i: nat, ghost sprites0: seq<Actor>, ghost world0: seq<Actor>,
                       ghost birds0: seq<Actor>, ghost bodies0: set<Body>, ghost shapes0: set<Shape>)
      requires i < |objs| && sprites != world && sprites != bird && world != bird
      requires sprites.items == Drop(sprites0, Elements(objs[..i])) && world.items == Drop(world0, Elements(objs[..i]))
      requires bird.items == Drop(birds0, Elements(objs[..i]))
      requires space.bodies == bodies0 - BodiesOf(objs[..i]) && space.shapes == shapes0 - ShapesOf(objs[..i])
      modifies sprites, world, bird, space
      ensures sprites.items == Drop(sprites0, Elements(objs[..i + 1])) && world.items == Drop(world0, Elements(objs[..i + 1]))
      ensures bird.items == Drop(birds0, Elements(objs[..i + 1]))
      ensures space.bodies == bodies0 - BodiesOf(objs[..i + 1]) && space.shapes == shapes0 - ShapesOf(objs[..i + 1])
    {
      Discard(objs[i]);
      DropNext(sprites0, objs, i);
      DropNext(world0, objs, i);
      DropNext(birds0, objs, i);
      RegistrationsNext(objs, i);
    }

    /**
     * clear_level, iterating over snapshots of `world` and `bird`: every
     * world object and every bird leaves the lists and the space.
     */
    method ClearLevel()
      requires Wired()
      modifies sprites, world, bird, space, this`pigCount
      ensures Valid()
      ensures world.items == [] && sprites.items == [] && bird.items == [] && pigCount == 0
      ensures space.bodies == old(space.bodies) - BodiesOf(old(world.items) + old(bird.items))
      ensures space.shapes == old(space.shapes) - ShapesOf(old(world.items) + old(bird.items))
    {
      var worldObjects := world.items;
      ghost var birds0, bodies0, shapes0 := bird.items, space.bodies, space.shapes;
      BirdsAreNoWorldObjects();
      DiscardAll(worldObjects);
      DiscardAll(bird.items);
      DropEverything(birds0, Elements(birds0));
      world.Clear();
      sprites.Clear();
      pigCount := 0;
      RemovedInTurn(bodies0, shapes0, worldObjects, birds0);
    }

    /** No bird is a world object, so discarding the world objects leaves every bird listed. */
    lemma BirdsAreNoWorldObjects()
      requires Wired()
      ensures Drop(bird.items, Elements(world.items)) == bird.items
    {
      forall i | 0 <= i < |bird.items|
        ensures bird.items[i] !in Elements(world.items)
      {
        assert bird.items[i].kind.IsBird();
      }
      DropNothing(bird.items, Elements(world.items));
    }

    /** load_level: clears the level, advances the index, then builds the next layout or ends the game. */
    method LoadLevel()
      requires Wired()
      modifies this`currentLevel, this`pigCount, this`exited, sprites, world, bird, space
      ensures Valid() && Loaded()
      ensures Counters() == AfterLoad(old(Counters()))
      ensures forall i :: 0 <= i < |world.items| ==> fresh(world.items[i])
      ensures space.bodies == old(space.bodies) - BodiesOf(old(world.items) + old(bird.items)) + BodiesOf(world.items)
      ensures space.shapes == old(space.shapes) - ShapesOf(old(world.items) + old(bird.items)) + ShapesOf(world.items)
    {
      ClearLevel();
      NextLevel();
    }

    /** The second half of load_level, on a cleared level: advance the index, then build or end the game. */
    method NextLevel()
      requires Valid() && world.items == [] && sprites.items == [] && bird.items == []
      modifies this`currentLevel, this`pigCount, this`exited, sprites, world, space
      ensures Valid() && Loaded()
      ensures Counters() == AfterLoad(old(Counters()))
      ensures forall i :: 0 <= i < |world.items| ==> fresh(world.items[i])
      ensures space.bodies == old(space.bodies) + BodiesOf(world.items) && space.shapes == old(space.shapes) + ShapesOf(world.items)
    {
      currentLevel := currentLevel + 1;
      if currentLevel <= |levels| {
        var added := BuildLevel(levels[currentLevel - 1]);
      } else {
        exited := true;
      }
    }

    /** pig_destroyed: one pig fewer; at zero the next level is loaded. */
    method PigDestroyed()
      requires Wired()
      modifies this`currentLevel, this`pigCount, this`exited, sprites, world, bird, space
      ensures Wired()
      ensures old(pigCount) == CountKind(old(world.items), Kind.Pig) + 1 ==> Valid()
      ensures Counters() == AfterPigDestroyed(old(Counters()))
      ensures old(pigCount) - 1 > 0 ==> unchanged(sprites, world, bird, space)
      ensures old(pigCount) - 1 <= 0 ==>
        && Valid() && Loaded()
        && (forall i :: 0 <= i < |world.items| ==> fresh(world.items[i]))
        && space.bodies == old(space.bodies) - BodiesOf(old(world.items) + old(bird.items)) + BodiesOf(world.items)
        && space.shapes == old(space.shapes) - ShapesOf(old(world.items) + old(bird.items)) + ShapesOf(world.items)
    {
      pigCount := pigCount - 1;
      if pigCount <= 0 {
        LoadLevel();
      }
    }
  }

  /** The bird the next left-button release spawns. */
  datatype BirdChoice = Red | Yellow | Blue

  function KindOf(choice: BirdChoice): Kind {
    match choice
    case Red => Kind.Bird
    case Yellow => Kind.YellowBird
    case Blue => Kind.BlueBird
  }

  /** arcade's codes for the keys 1, 2 and 3 and for the left and right mouse buttons. */
  const Key1: int := 49
  const Key2: int := 50
  const Key3: int := 51
  const MouseLeft: int := 1
  const MouseRight: int := 4

  /** Contact impulses below this are ignored outright. */
  const IgnoredImpulse: real := 100.0
  /** Contact impulses above this destroy the world objects in the contact. */
  const DestroyingImpulse: real := 1200.0

  /** on_draw's max_distance: how far from the press point the aim point may lie. */
  const MaxAim: real := 100.0

  /**
   * The aim point once on_draw has drawn the aim line: beyond MaxAim from
   * `start` it is pulled back along the line's direction to MaxAim.
   */
  function ClampedAim(m: Numerics, start: Point2D, end: Point2D): Point2D {
    if GetDistance(m, start, end) > MaxAim then
      var angle := m.Atan2(end.y - start.y, end.x - start.x);
      Point2D(start.x + MaxAim * m.Cos(angle), start.y + MaxAim * m.Sin(angle))
    else
      end
  }

  /**
   * The clamp keeps an aim point within reach and moves an aim point that is
   * too far to exactly MaxAim from the press point; so a launch after on_draw
   * never asks for more than MaxAim.
   */
  lemma ClampedAimIsWithinReach(m: Numerics, start: Point2D, end: Point2D)
    requires m.Lawful()
    ensures GetDistance(m, start, end) <= MaxAim ==> ClampedAim(m, start, end) == end
    ensures GetDistance(m, start, end) > MaxAim ==> GetDistance(m, start, ClampedAim(m, start, end)) == MaxAim
    ensures GetDistance(m, start, ClampedAim(m, start, end)) <= MaxAim
  {
    if GetDistance(m, start, end) > MaxAim {
      var angle := m.Atan2(end.y - start.y, end.x - start.x);
      var c, s := m.Cos(angle), m.Sin(angle);
      var p := ClampedAim(m, start, end);
      assert p.x - start.x == MaxAim * c && p.y - start.y == MaxAim * s;
      assert Square(MaxAim * c) + Square(MaxAim * s) == Square(MaxAim) * (Square(c) + Square(s));
      assert Square(c) + Square(s) == 1.0;
      assert GetDistance(m, start, p) == m.Sqrt(Square(MaxAim));
    }
  }

  /** What App.__init__ does to the game state: fresh lists and space, a LevelManager over them, and its first load_level. */
  method StartGame(textures: Textures) returns (lm: LevelManager)
    ensures fresh(lm) && fresh(lm.space) && fresh(lm.sprites) && fresh(lm.world) && fresh(lm.bird)
    ensures lm.Valid() && lm.Loaded() && lm.Counters() == Progress(1, 2, false) && lm.levels == Layouts()
    ensures lm.space.bodies == BodiesOf(lm.world.items) && lm.space.shapes == ShapesOf(lm.world.items)
  {
    var s := new Space();
    var sl := new SpriteList();
    var bl := new SpriteList();
    var wl := new SpriteList();
    lm := new LevelManager(s, sl, wl, bl, textures);
    lm.LoadLevel();
  }

  class App {
    const space: Space
    const sprites: SpriteList
    const birds: SpriteList
    const world: SpriteList
    const levelManager: LevelManager
    var startPoint: Point2D
    var endPoint: Point2D
    var drawLine: bool
    var selectedBird: BirdChoice

    /** The window and its level manager share the space and the three sprite lists. */
    ghost predicate Shared()
      reads this, levelManager
    {
      && levelManager.space == space && levelManager.sprites == sprites
      && levelManager.world == world && levelManager.bird == birds
    }

    ghost predicate Valid()
      reads this, levelManager, sprites, world, birds
    {
      Shared() && levelManager.Valid() && BodiesApart(birds.items)
    }

    /** The window's state after App.__init__: level 1 is loaded and the red bird is selected. */
    constructor (textures: Textures)
      ensures Valid() && fresh(levelManager) && fresh(space)
      ensures levelManager.Counters() == Progress(1, 2, false) && levelManager.Loaded()
      ensures space.bodies == BodiesOf(world.items) && space.shapes == ShapesOf(world.items)
      ensures startPoint == Point2D() && endPoint == Point2D() && !drawLine && selectedBird == Red
    {
      var lm := StartGame(textures);
      space, sprites, birds, world, levelManager := lm.space, lm.sprites, lm.bird, lm.world, lm;
      startPoint, endPoint, drawLine, selectedBird := Point2D(), Point2D(), false, Red;
    }

    /** The lists and the space once the contact loop has considered the first `i` objects of the snapshot `w`. */
    ghost predicate Swept(w: seq<Actor>, i: nat, contact: set<Shape>, sprites0: seq<Actor>, birds0: seq<Actor>,
                          bodies0: set<Body>, shapes0: set<Shape>)
      reads this, sprites, world, birds, space
      requires i <= |w|
    {
      var hit := Touched(w[..i], contact);
      && world.items == Untouched(w[..i], contact) + w[i..]
      && sprites.items == Drop(sprites0, Elements(hit))
      && birds.items == birds0
      && space.bodies == bodies0 - BodiesOf(hit) && space.shapes == shapes0 - ShapesOf(hit)
    }

    /** The whole state of the contact loop after it has considered the first `i` objects of `w`. */
    ghost predicate Midway(w: seq<Actor>, i: nat, contact: set<Shape>, sprites0: seq<Actor>, birds0: seq<Actor>,
                           bodies0: set<Body>, shapes0: set<Shape>, counters0: Progress)
      reads this, levelManager, sprites, world, birds, space
      requires i <= |w|
    {
      && Swept(w, i, contact, sprites0, birds0, bodies0, shapes0)
      && levelManager.Counters() == counters0.(pigs := counters0.pigs - CountKind(Touched(w[..i], contact), Kind.Pig))
    }

    /** The state once destroying the last pig of the level has reloaded in the middle of the loop. */
    ghost predicate Reloaded(w: seq<Actor>, birds0: seq<Actor>, bodies0: set<Body>, shapes0: set<Shape>,
                             counters0: Progress)
      reads this, levelManager, levelManager.sprites, levelManager.world, levelManager.bird, space
      reads set i | 0 <= i < |levelManager.world.items| :: levelManager.world.items[i].body
    {
      var world := levelManager.world;
      && levelManager.Loaded()
      && levelManager.Counters() == AfterLoad(counters0)
      && space.bodies == bodies0 - BodiesOf(w + birds0) + BodiesOf(world.items)
      && space.shapes == shapes0 - ShapesOf(w + birds0) + ShapesOf(world.items)
    }

    /**
     * collision_handler (post_solve), iterating over a snapshot of `world`
     * and skipping objects that have already left it. Objects in the
     * contact are destroyed only above 1200; birds never are. `reloaded`
     * tells whether the last pig of the level was among them, which is when
     * the contact holds at least one pig and no fewer than pig_count of them.
     */
    method CollisionHandler(impulseNorm: real, contact: set<Shape>) returns (proceed: bool, ghost reloaded: bool)
      requires Valid()
      modifies levelManager, sprites, world, birds, space
      ensures Valid() && proceed
      ensures reloaded <==>
        impulseNorm > DestroyingImpulse && LastPigTouched(old(world.items), contact, old(levelManager.pigCount))
      ensures impulseNorm <= DestroyingImpulse ==> unchanged(levelManager, sprites, world, birds, space)
      ensures impulseNorm > DestroyingImpulse && !reloaded ==>
        Midway(old(world.items), |old(world.items)|, contact, old(sprites.items), old(birds.items),
               old(space.bodies), old(space.shapes), old(levelManager.Counters()))
      ensures reloaded ==>
        && impulseNorm > DestroyingImpulse
        && Reloaded(old(world.items), old(birds.items), old(space.bodies), old(space.shapes), old(levelManager.Counters()))
        && forall i :: 0 <= i < |world.items| ==> world.items[i] !in old(world.items)
    {
      proceed, reloaded := true, false;
      if impulseNorm < IgnoredImpulse {
        return;
      }
      if impulseNorm > DestroyingImpulse {
        var snapshot := world.items;
        ghost var sprites0, birds0 := sprites.items, birds.items;
        ghost var bodies0, shapes0, counters0 := space.bodies, space.shapes, levelManager.Counters();
        assert Touched(snapshot[..0], contact) == [] && Untouched(snapshot[..0], contact) == [];
        assert Elements(Touched(snapshot[..0], contact)) == {};
        DropNothing(sprites0, {});
        for i := 0 to |snapshot|
          invariant Valid() && Distinct(snapshot)
          invariant !reloaded ==> Midway(snapshot, i, contact, sprites0, birds0, bodies0, shapes0, counters0)
          invariant reloaded ==>
            && Reloaded(snapshot, birds0, bodies0, shapes0, counters0)
            && forall j :: 0 <= j < |world.items| ==> world.items[j] !in snapshot
          invariant reloaded <==> LastPigTouched(snapshot[..i], contact, counters0.pigs)
        {
          ghost var before, count, world0 := reloaded, levelManager.pigCount, world.items;
          reloaded := ConsiderObject(snapshot, i, contact, sprites0, birds0, bodies0, shapes0, counters0, reloaded);
          LastPigStep(snapshot, i, contact, counters0.pigs, count, world0, before, reloaded);
        }
        assert snapshot[..|snapshot|] == snapshot;
      }
    }

    /** One pass of the contact loop: destroys `w[i]` if it is still in the world and in the contact. */
    method ConsiderObject(w: seq<Actor>, i: nat, contact: set<Shape>, ghost sprites0: seq<Actor>, ghost birds0: seq<Actor>,
                          ghost bodies0: set<Body>, ghost shapes0: set<Shape>, ghost counters0: Progress,
                          ghost reloadedBefore: bool)
      returns (ghost reloaded: bool)
      requires Valid() && i < |w| && Distinct(w)
      requires !reloadedBefore ==> Midway(w, i, contact, sprites0, birds0, bodies0, shapes0, counters0)
      requires reloadedBefore ==>
        && Reloaded(w, birds0, bodies0, shapes0, counters0)
        && forall j :: 0 <= j < |world.items| ==> world.items[j] !in w
      modifies levelManager, sprites, world, birds, space
      ensures Valid()
      ensures reloaded <==>
        reloadedBefore || (w[i] in old(world.items) && w[i].shape in contact && w[i].kind == Kind.Pig && old(levelManager.pigCount) <= 1)
      ensures !reloaded ==> Midway(w, i + 1, contact, sprites0, birds0, bodies0, shapes0, counters0)
      ensures reloaded ==>
        && Reloaded(w, birds0, bodies0, shapes0, counters0)
        && forall j :: 0 <= j < |world.items| ==> world.items[j] !in w
    {
      reloaded := reloadedBefore;
      var obj := w[i];
      if obj in world.items && obj.shape in contact {
        assert !reloaded;
        reloaded := DestroyObject(w, i, contact, sprites0, birds0, bodies0, shapes0, counters0);
      } else if !reloaded {
        StepUntouched(w, i, contact);
      }
    }

    /** The body of the contact loop for an object still in the world and in the contact. */
    method DestroyObject(w: seq<Actor>, i: nat, contact: set<Shape>, ghost sprites0: seq<Actor>, ghost birds0: seq<Actor>,
                         ghost bodies0: set<Body>, ghost shapes0: set<Shape>, ghost counters0: Progress)
      returns (ghost reloaded: bool)
      requires Valid() && i < |w| && Distinct(w)
      requires Midway(w, i, contact, sprites0, birds0, bodies0, shapes0, counters0)
      requires w[i] in world.items && w[i].shape in contact
      modifies levelManager, sprites, world, birds, space
      ensures Valid()
      ensures reloaded <==> w[i].kind == Kind.Pig && old(levelManager.pigCount) <= 1
      ensures !reloaded ==> Midway(w, i + 1, contact, sprites0, birds0, bodies0, shapes0, counters0)
      ensures reloaded ==>
        && Reloaded(w, birds0, bodies0, shapes0, counters0)
        && forall j :: 0 <= j < |world.items| ==> world.items[j] !in w
    {
      var obj := w[i];
      assert BodiesApart(birds0);
      Strike(w, i, contact, sprites0, birds0, bodies0, shapes0);
      CountKindAppend(Touched(w[..i], contact), [obj], Kind.Pig);
      reloaded := false;
      if obj.kind == Kind.Pig {
        reloaded := PigHit(w, i, contact, birds0, bodies0, shapes0, counters0);
      }
    }

    /** The object `w[i]`, still in the world and in the contact, leaves the lists and the space. */
    method Strike(w: seq<Actor>, i: nat, contact: set<Shape>, ghost sprites0: seq<Actor>, ghost birds0: seq<Actor>,
                  ghost bodies0: set<Body>, ghost shapes0: set<Shape>)
      requires Valid() && i < |w| && Distinct(w)
      requires Swept(w, i, contact, sprites0, birds0, bodies0, shapes0)
      requires w[i] in world.items && w[i].shape in contact
      modifies sprites, world, birds, space
      ensures Shared() && levelManager.Wired()
      ensures levelManager.pigCount == CountKind(world.items, Kind.Pig) + (if w[i].kind == Kind.Pig then 1 else 0)
      ensures Swept(w, i + 1, contact, sprites0, birds0, bodies0, shapes0)
      ensures Touched(w[..i + 1], contact) == Touched(w[..i], contact) + [w[i]]
    {
      var obj := w[i];
      ghost var hit := Touched(w[..i], contact);
      StepTouched(w, i, contact);
      HitAccounts(sprites0, hit, obj);
      levelManager.DiscardWorldObject(obj);
    }

    /** pig_destroyed called from the contact loop once the pig `w[i]` has been discarded. */
    method PigHit(w: seq<Actor>, i: nat, contact: set<Shape>, ghost birds0: seq<Actor>,
                  ghost bodies0: set<Body>, ghost shapes0: set<Shape>, ghost counters0: Progress)
      returns (ghost reloaded: bool)
      requires i < |w| && Shared() && levelManager.Wired()
      requires levelManager.pigCount == CountKind(world.items, Kind.Pig) + 1
      requires levelManager.currentLevel == counters0.level && levelManager.exited == counters0.exited
      requires world.items == Untouched(w[..i + 1], contact) + w[i + 1..] && birds.items == birds0 && BodiesApart(birds0)
      requires space.bodies == bodies0 - BodiesOf(Touched(w[..i + 1], contact))
      requires space.shapes == shapes0 - ShapesOf(Touched(w[..i + 1], contact))
      modifies levelManager`currentLevel, levelManager`pigCount, levelManager`exited, sprites, world, birds, space
      ensures Valid()
      ensures reloaded <==> old(levelManager.pigCount) - 1 <= 0
      ensures levelManager.Counters() == AfterPigDestroyed(old(levelManager.Counters()))
      ensures !reloaded ==> unchanged(sprites, world, birds, space)
      ensures reloaded ==>
        && Reloaded(w, birds0, bodies0, shapes0, counters0)
        && forall j :: 0 <= j < |world.items| ==> world.items[j] !in w
    {
      var last := levelManager.pigCount - 1 <= 0;
      reloaded := last;
      if last {
        levelManager.PigDestroyed();
        ReloadAccounts(w, i, contact, birds0);
      } else {
        levelManager.PigDestroyed();
      }
    }

    /** on_key_press: keys 1, 2 and 3 select the yellow, red and blue bird; other keys change nothing. */
    method OnKeyPress(key: int)
      modifies this`selectedBird
      ensures key == Key1 ==> selectedBird == Yellow
      ensures key == Key2 ==> selectedBird == Red
      ensures key == Key3 ==> selectedBird == Blue
      ensures key !in {Key1, Key2, Key3} ==> selectedBird == old(selectedBird)
    {
      if key == Key1 {
        selectedBird := Yellow;
      } else if key == Key2 {
        selectedBird := Red;
      } else if key == Key3 {
        selectedBird := Blue;
      }
    }

    /** on_mouse_drag: dragging with the left button moves the aim point. */
    method OnMouseDrag(x: real, y: real, buttons: int)
      modifies this`endPoint
      ensures buttons == MouseLeft ==> endPoint == Point2D(x, y)
      ensures buttons != MouseLeft ==> endPoint == old(endPoint)
    {
      if buttons == MouseLeft {
        endPoint := Point2D(x, y);
      }
    }

    /**
     * on_mouse_press: the left button starts an aim at the pointer; the right
     * button runs on_click on every bird (OnRightClick). `split` and
     * `children` are the blue birds that split and the birds they spawned.
     */
    method OnMousePress(m: Numerics, x: real, y: real, button: int)
      returns (ghost before: seq<BirdState>, ghost after: seq<BirdState>, ghost split: seq<Actor>, ghost children: seq<Actor>)
      requires Valid()
      modifies this`startPoint, this`endPoint, this`drawLine
      modifies (set i | 0 <= i < |birds.items| :: birds.items[i])`hasBoosted
      modifies (set i | 0 <= i < |birds.items| :: birds.items[i])`hasSplit
      modifies (set i | 0 <= i < |birds.items| :: birds.items[i].body)`impulses
      modifies sprites, birds, space
      ensures Valid()
      ensures button == MouseLeft ==>
        startPoint == Point2D(x, y) && endPoint == Point2D(x, y) && drawLine && children == [] && unchanged(sprites, birds, space)
      ensures button != MouseLeft ==> startPoint == old(startPoint) && endPoint == old(endPoint) && drawLine == old(drawLine)
      ensures button == MouseRight ==>
        && old(StatesAre(m, birds.items, before)) && StatesAre(m, old(birds.items), after)
        && (forall i :: 0 <= i < |old(birds.items)| ==> Clicks(old(birds.items)[i].kind, before[i], after[i]))
        && split == Unsplit(old(birds.items), SplitFlags(before))
        && Spawned(m, split, children) && (forall k :: 0 <= k < |children| ==> fresh(children[k]))
        && birds.items == Drop(old(birds.items), Elements(split)) + children
        && sprites.items == Drop(old(sprites.items), Elements(split)) + children
        && space.bodies == old(space.bodies) + BodiesOf(children) - BodiesOf(split)
        && space.shapes == old(space.shapes) + ShapesOf(children) - ShapesOf(split)
      ensures button != MouseRight ==>
        && split == [] && children == [] && unchanged(sprites, birds, space)
        && forall i :: 0 <= i < |birds.items| ==> unchanged(birds.items[i], birds.items[i].body)
    {
      before, after, split, children := [], [], [], [];
      if button == MouseLeft {
        startPoint := Point2D(x, y);
        endPoint := Point2D(x, y);
        drawLine := true;
      } else if button == MouseRight {
        // No bird and no bird's body is the window, so the clicks leave the aim alone.
        assert forall i :: 0 <= i < |birds.items| ==> birds.items[i] as object != this && birds.items[i].body as object != this;
        before, after, split, children := OnRightClick(m);
      }
    }

    /**
     * on_mouse_release: releasing the left button ends the aim and launches
     * the selected bird from the aim point with the drag's impulse vector;
     * the bird joins the sprites and the birds.
     */
    method OnMouseRelease(m: Numerics, x: real, y: real, button: int) returns (bird: Actor?)
      requires Valid()
      modifies this`drawLine, sprites, birds, space
      ensures Valid()
      ensures button != MouseLeft ==> bird == null && drawLine == old(drawLine) && unchanged(sprites, birds, space)
      ensures button == MouseLeft ==>
        && !drawLine && bird != null && fresh(bird) && fresh(bird.body)
        && bird.kind == KindOf(selectedBird) && bird.body.position == Vec(endPoint.x, endPoint.y)
        && bird.body.impulses == [LocalImpulse(SpawnImpulse(100.0, GetDistance(m, startPoint, endPoint), 50.0),
                                               GetAngleRadians(m, startPoint, endPoint))]
        && sprites.items == old(sprites.items) + [bird] && birds.items == old(birds.items) + [bird]
        && space.bodies == old(space.bodies) + {bird.body} && space.shapes == old(space.shapes) + {bird.shape}
    {
      bird := null;
      if button == MouseLeft {
        drawLine := false;
        bird := LaunchSelected(m);
      }
    }

    /** The new bird of on_mouse_release, by the selected kind. */
    method LaunchSelected(m: Numerics) returns (bird: Actor)
      requires Valid()
      modifies sprites, birds, space
      ensures Valid()
      ensures fresh(bird) && fresh(bird.body)
      ensures bird.kind == KindOf(selectedBird) && bird.body.position == Vec(endPoint.x, endPoint.y)
      ensures bird.body.impulses == [LocalImpulse(SpawnImpulse(100.0, GetDistance(m, startPoint, endPoint), 50.0),
                                                  GetAngleRadians(m, startPoint, endPoint))]
      ensures sprites.items == old(sprites.items) + [bird] && birds.items == old(birds.items) + [bird]
      ensures space.bodies == old(space.bodies) + {bird.body} && space.shapes == old(space.shapes) + {bird.shape}
    {
      var iv := GetImpulseVector(m, startPoint, endPoint);
      if selectedBird == Yellow {
        bird := new Actor.YellowBird(iv, endPoint.x, endPoint.y, space);
      } else if selectedBird == Blue {
        bird := new Actor.BlueBird(iv, endPoint.x, endPoint.y, space, sprites, birds);
      } else {
        bird := new Actor.Bird(iv, endPoint.x, endPoint.y, space);
      }
      ghost var birds0 := birds.items;
      sprites.Append(bird);
      birds.Append(bird);
      DistinctConcat(birds0, [bird]);
      ApartSnoc(birds0, bird);
    }

    /** on_draw's aim clamp: while aiming, an aim point beyond MaxAim is pulled back (the sprite drawing is left out). */
    method DrawAim(m: Numerics)
      modifies this`endPoint
      ensures drawLine ==> endPoint == ClampedAim(m, startPoint, old(endPoint))
      ensures !drawLine ==> endPoint == old(endPoint)
    {
      if drawLine {
        var distance := GetDistance(m, startPoint, endPoint);
        if distance > MaxAim {
          var angle := m.Atan2(endPoint.y - startPoint.y, endPoint.x - startPoint.x);
          endPoint := Point2D(startPoint.x + MaxAim * m.Cos(angle), startPoint.y + MaxAim * m.Sin(angle));
        }
      }
    }

    /** on_update without the physics step: SpriteList.update runs update on every sprite. */
    method OnUpdate()
      requires Valid()
      modifies set i | 0 <= i < |sprites.items| :: sprites.items[i]
      ensures Valid()
      ensures forall i :: 0 <= i < |sprites.items| ==> sprites.items[i].Posed()
      ensures forall i :: 0 <= i < |sprites.items| ==>
        sprites.items[i].hasBoosted == old(sprites.items[i].hasBoosted) && sprites.items[i].hasSplit == old(sprites.items[i].hasSplit)
    {
      var all := sprites.items;
      for i := 0 to |all|
        invariant forall j :: 0 <= j < i ==> all[j].Posed()
        invariant forall j :: 0 <= j < |all| ==> all[j].hasBoosted == old(all[j].hasBoosted) && all[j].hasSplit == old(all[j].hasSplit)
      {
        all[i].Update();
      }
    }

    /**
     * on_click of bird `i` of the right-click loop's snapshot, whose states
     * are `now`: OnClick on that bird, which leaves the other birds of the
     * snapshot and the birds split off earlier (`earlier`, from `split`) as
     * they were.
     */
    method ClickBird(m: Numerics, b: Actor, ghost snapshot: seq<Actor>, ghost i: nat, ghost now: seq<BirdState>,
                     ghost split: seq<Actor>, ghost earlier: seq<Actor>)
      returns (ghost children: seq<Actor>)
      requires Valid() && b in birds.items
      requires i < |snapshot| && snapshot[i] == b && Distinct(snapshot) && BodiesApart(snapshot) && StatesAre(m, snapshot, now)
      requires Spawned(m, split, earlier) && forall k :: 0 <= k < |earlier| ==> earlier[k] != b
      modifies b`hasBoosted, b`hasSplit, b.body`impulses, sprites, birds, space
      ensures Valid()
      ensures Clicks(b.kind, now[i], b.Before(m))
      ensures StatesAre(m, snapshot, now[i := b.Before(m)])
      ensures Spawned(m, split, earlier)
      ensures b.kind == Kind.BlueBird && !old(b.hasSplit) ==>
        && |children| == 3 && (forall k :: 0 <= k < 3 ==> fresh(children[k]) && fresh(children[k].body))
        && (forall k :: 0 <= k < 3 ==> children[k].IsSplitChildOf(b, m.Rotate(b.body.velocity, SplitOffsets(b.angleOffset)[k])))
        && sprites.items == Drop(old(sprites.items), {b}) + children
        && birds.items == Drop(old(birds.items), {b}) + children
        && space.bodies == old(space.bodies) + BodiesOf(children) - {b.body}
        && space.shapes == old(space.shapes) + ShapesOf(children) - {b.shape}
      ensures !(b.kind == Kind.BlueBird && !old(b.hasSplit)) ==> children == [] && unchanged(sprites, birds, space)
      ensures forall k :: 0 <= k < |children| ==>
                && children[k] !in snapshot && children[k].kind == Kind.Bird
                && children[k].body !in BodiesOf(split) && children[k].shape !in ShapesOf(split)
    {
      children := OnClick(m, b, snapshot, split);
      forall j | 0 <= j < |snapshot| && j != i
        ensures snapshot[j].Before(m) == now[j]
      {
        assert snapshot[j] != b && snapshot[j].body != b.body;
      }
      forall k | 0 <= k < |earlier|
        ensures earlier[k].IsSplitChildOf(split[k / 3], m.Rotate(split[k / 3].body.velocity, SplitOffsets(split[k / 3].angleOffset)[k % 3]))
      {
        assert old(earlier[k].IsSplitChildOf(split[k / 3], m.Rotate(split[k / 3].body.velocity, SplitOffsets(split[k / 3].angleOffset)[k % 3])));
      }
    }

    /**
     * `if hasattr(bird, 'on_click'): bird.on_click()` for one bird of the
     * right-click loop over `snapshot`: yellow birds boost, blue birds split,
     * others have no on_click. The birds split off are new, and so are their
     * bodies and shapes.
     */
    method OnClick(m: Numerics, b: Actor, ghost snapshot: seq<Actor>, ghost split: seq<Actor>)
      returns (ghost children: seq<Actor>)
      requires Valid() && b in birds.items
      modifies b`hasBoosted, b`hasSplit, b.body`impulses, sprites, birds, space
      ensures Valid()
      ensures Clicks(b.kind, old(b.Before(m)), b.Before(m))
      ensures b.kind == Kind.BlueBird && !old(b.hasSplit) ==>
        && |children| == 3 && (forall k :: 0 <= k < 3 ==> fresh(children[k]) && fresh(children[k].body))
        && (forall k :: 0 <= k < 3 ==> children[k].IsSplitChildOf(b, m.Rotate(b.body.velocity, SplitOffsets(b.angleOffset)[k])))
        && sprites.items == Drop(old(sprites.items), {b}) + children
        && birds.items == Drop(old(birds.items), {b}) + children
        && space.bodies == old(space.bodies) + BodiesOf(children) - {b.body}
        && space.shapes == old(space.shapes) + ShapesOf(children) - {b.shape}
      ensures !(b.kind == Kind.BlueBird && !old(b.hasSplit)) ==> children == [] && unchanged(sprites, birds, space)
      ensures forall k :: 0 <= k < |children| ==>
                && children[k] !in snapshot && children[k].kind == Kind.Bird
                && children[k].body !in BodiesOf(split) && children[k].shape !in ShapesOf(split)
    {
      ghost var s := b.Before(m);
      children := [];
      if b.kind == Kind.YellowBird {
        b.Boost(m);
        assert s.boost == old(LocalImpulse(b.impulseMultiplier * m.Length(b.body.velocity), b.body.angle));
        assert b.body.impulses == s.impulses + (if s.hasBoosted then [] else [s.boost]);
      } else if b.kind == Kind.BlueBird {
        ghost var birds0 := birds.items;
        children := b.Split(m);
        if |children| == 3 {
          DropKeepsDistinct(birds0, {b});
          DistinctConcat(Drop(birds0, {b}), children);
          BodiesApartAfterDrop(birds0, {b}, children);
        }
      }
    }

    /**
     * The right-button branch of on_mouse_press: on_click on every bird in
     * `birds` when the click arrives (iterating over a snapshot). `split`
     * lists the blue birds that split and `children` the birds they spawned.
     */
    method OnRightClick(m: Numerics)
      returns (ghost before: seq<BirdState>, ghost after: seq<BirdState>, ghost split: seq<Actor>, ghost children: seq<Actor>)
      requires Valid()
      modifies (set i | 0 <= i < |birds.items| :: birds.items[i])`hasBoosted
      modifies (set i | 0 <= i < |birds.items| :: birds.items[i])`hasSplit
      modifies (set i | 0 <= i < |birds.items| :: birds.items[i].body)`impulses
      modifies sprites, birds, space
      ensures Valid()
      ensures old(StatesAre(m, birds.items, before)) && StatesAre(m, old(birds.items), after)
      ensures forall i :: 0 <= i < |old(birds.items)| ==> Clicks(old(birds.items)[i].kind, before[i], after[i])
      ensures split == Unsplit(old(birds.items), SplitFlags(before))
      ensures Spawned(m, split, children)
      ensures forall k :: 0 <= k < |children| ==> fresh(children[k])
      ensures birds.items == Drop(old(birds.items), Elements(split)) + children
      ensures sprites.items == Drop(old(sprites.items), Elements(split)) + children
      ensures space.bodies == old(space.bodies) + BodiesOf(children) - BodiesOf(split)
      ensures space.shapes == old(space.shapes) + ShapesOf(children) - ShapesOf(split)
    {
      var snapshot := birds.items;
      before := BirdStates(m, snapshot);
      ghost var wasSplit := SplitFlags(before);
      ghost var sprites0, bodies0, shapes0 := sprites.items, space.bodies, space.shapes;
      ClickingStarts(m, before, wasSplit);
      split, children, after := ClickEach(m, snapshot, before, wasSplit);
      ClickingDone(m, snapshot, before, wasSplit, after, sprites0, bodies0, shapes0, split, children);
    }

    /** The loop of the right-button branch: on_click on each bird of `snapshot` in turn. */
    method ClickEach(m: Numerics, snapshot: seq<Actor>, ghost before: seq<BirdState>, ghost wasSplit: seq<bool>)
      returns (ghost split: seq<Actor>, ghost children: seq<Actor>, ghost now: seq<BirdState>)
      requires Clicking(m, snapshot, before, wasSplit, before, 0, sprites.items, space.bodies, space.shapes, [], [])
      modifies (set i | 0 <= i < |snapshot| :: snapshot[i])`hasBoosted, (set i | 0 <= i < |snapshot| :: snapshot[i])`hasSplit
      modifies (set i | 0 <= i < |snapshot| :: snapshot[i].body)`impulses
      modifies sprites, birds, space
      ensures Clicking(m, snapshot, before, wasSplit, now, |snapshot|, old(sprites.items), old(space.bodies), old(space.shapes),
                       split, children)
      ensures Spawned(m, split, children)
      ensures forall k :: 0 <= k < |children| ==> fresh(children[k])
    {
      ghost var sprites0, bodies0, shapes0 := sprites.items, space.bodies, space.shapes;
      split, children, now := [], [], before;
      for i := 0 to |snapshot|
        invariant Clicking(m, snapshot, before, wasSplit, now, i, sprites0, bodies0, shapes0, split, children)
        invariant Spawned(m, split, children)
        invariant forall k :: 0 <= k < |children| ==> fresh(children[k])
      {
        ghost var c;
        split, c, now := ClickNext(m, snapshot, snapshot[i], before, wasSplit, now, i, sprites0, bodies0, shapes0, split, children);
        forall k | 0 <= k < |children + c|
          ensures fresh((children + c)[k])
        {
          if k >= |children| {
            assert (children + c)[k] == c[k - |children|];
          }
        }
        children := children + c;
      }
    }

    /** The right-click loop's state before its first pass. */
    lemma ClickingStarts(m: Numerics, before: seq<BirdState>, wasSplit: seq<bool>)
      requires Valid()
      requires StatesAre(m, birds.items, before)
      requires |wasSplit| == |before| && forall j :: 0 <= j < |before| ==> wasSplit[j] == before[j].hasSplit
      ensures Clicking(m, birds.items, before, wasSplit, before, 0, sprites.items, space.bodies, space.shapes, [], [])
    {
      assert Elements<Actor>([]) == {};
      DropNothing(birds.items, {});
      DropNothing(sprites.items, {});
    }

    /** What the right-click loop leaves once it has run over the whole snapshot. */
    lemma ClickingDone(m: Numerics, snapshot: seq<Actor>, before: seq<BirdState>, wasSplit: seq<bool>, now: seq<BirdState>,
                       sprites0: seq<Actor>, bodies0: set<Body>, shapes0: set<Shape>, split: seq<Actor>, children: seq<Actor>)
      requires Clicking(m, snapshot, before, wasSplit, now, |snapshot|, sprites0, bodies0, shapes0, split, children)
      ensures Valid()
      ensures StatesAre(m, snapshot, now) && forall j :: 0 <= j < |snapshot| ==> Clicks(snapshot[j].kind, before[j], now[j])
      ensures split == Unsplit(snapshot, wasSplit)
      ensures birds.items == Drop(snapshot, Elements(split)) + children
      ensures sprites.items == Drop(sprites0, Elements(split)) + children
      ensures space.bodies == bodies0 + BodiesOf(children) - BodiesOf(split)
      ensures space.shapes == shapes0 + ShapesOf(children) - ShapesOf(split)
    {
      assert snapshot[..|snapshot|] == snapshot && wasSplit[..|snapshot|] == wasSplit;
    }

    /**
     * The state of the right-click loop after `on_click` has run on the first
     * `i` birds of `snapshot`; `before` holds every bird's state before the
     * click, `now` its state at this point and `wasSplit` its has_split flag.
     */
    ghost predicate Clicking(m: Numerics, snapshot: seq<Actor>, before: seq<BirdState>, wasSplit: seq<bool>,
                             now: seq<BirdState>, i: nat,
                             sprites0: seq<Actor>, bodies0: set<Body>, shapes0: set<Shape>, split: seq<Actor>, children: seq<Actor>)
      reads this, levelManager, sprites, world, birds, space
      reads set j | 0 <= j < |snapshot| :: snapshot[j], set j | 0 <= j < |snapshot| :: snapshot[j].body
    {
      && Valid() && StatesAre(m, snapshot, now)
      && ClickProgress(snapshot, before, wasSplit, now, i, split, children)
      && Clicked(snapshot, sprites0, bodies0, shapes0, split, children)
    }

    /** The lists and the space once the blue birds `split` have split and spawned `children`. */
    ghost predicate Clicked(snapshot: seq<Actor>, sprites0: seq<Actor>, bodies0: set<Body>, shapes0: set<Shape>,
                            split: seq<Actor>, children: seq<Actor>)
      reads this, sprites, birds, space
    {
      Accounted(snapshot, sprites0, bodies0, shapes0, split, children, birds.items, sprites.items, space.bodies, space.shapes)
    }

    /** One pass of the right-click loop: on_click on `snapshot[i]`. */
    method ClickNext(m: Numerics, snapshot: seq<Actor>, b: Actor, ghost before: seq<BirdState>, ghost wasSplit: seq<bool>,
                     ghost now: seq<BirdState>, i: nat, ghost sprites0: seq<Actor>, ghost bodies0: set<Body>,
                     ghost shapes0: set<Shape>, ghost split: seq<Actor>, ghost children: seq<Actor>)
      returns (ghost split': seq<Actor>, ghost c: seq<Actor>, ghost now': seq<BirdState>)
      requires i < |snapshot| && b == snapshot[i]
      requires Clicking(m, snapshot, before, wasSplit, now, i, sprites0, bodies0, shapes0, split, children)
      requires Spawned(m, split, children)
      modifies b`hasBoosted, b`hasSplit, b.body`impulses, sprites, birds, space
      ensures Clicking(m, snapshot, before, wasSplit, now', i + 1, sprites0, bodies0, shapes0, split', children + c)
      ensures Spawned(m, split', children + c)
      ensures forall k :: 0 <= k < |c| ==> fresh(c[k])
    {
      ghost var birds1, sprites1, bodies1, shapes1 := birds.items, sprites.items, space.bodies, space.shapes;
      ghost var wasB := b.hasSplit;
      assert Accounted(snapshot, sprites0, bodies0, shapes0, split, children, birds1, sprites1, bodies1, shapes1);
      assert ClickProgress(snapshot, before, wasSplit, now, i, split, children);
      assert forall k :: 0 <= k < |children| ==> children[k] != b;
      c := ClickBird(m, b, snapshot, i, now, split, children);
      split', now' := if c != [] then split + [b] else split, now[i := b.Before(m)];
      ClickedPrefixNext(snapshot, before, now, i, now'[i]);
      if c != [] {
        SpawnedNext(m, split, children, b, c);
      } else {
        assert children + c == children;
      }
      ClickingNext(m, snapshot, before, wasSplit, now', i, b, wasB, sprites0, bodies0, shapes0, split, children, c, split',
                   birds1, sprites1, bodies1, shapes1);
    }

    /** The bookkeeping of one pass of the right-click loop, stated on the heap after the click. */
    lemma ClickingNext(m: Numerics, snapshot: seq<Actor>, before: seq<BirdState>, wasSplit: seq<bool>, now: seq<BirdState>,
                       i: nat, b: Actor, wasB: bool,
                       sprites0: seq<Actor>, bodies0: set<Body>, shapes0: set<Shape>, split: seq<Actor>, children: seq<Actor>,
                       c: seq<Actor>, split': seq<Actor>,
                       birds1: seq<Actor>, sprites1: seq<Actor>, bodies1: set<Body>, shapes1: set<Shape>)
      requires Valid() && Distinct(snapshot) && BodiesApart(snapshot)
      requires i < |snapshot| == |before| == |wasSplit| && b == snapshot[i] && wasB == wasSplit[i]
      requires forall j :: 0 <= j < |snapshot| ==> wasSplit[j] == before[j].hasSplit
      requires StatesAre(m, snapshot, now) && ClickedPrefix(snapshot, before, now, i + 1)
      requires split == Unsplit(snapshot[..i], wasSplit[..i])
      requires forall j :: i <= j < |snapshot| ==> snapshot[j] !in split
      requires |children| == 3 * |split|
      requires forall k :: 0 <= k < |children| ==> children[k] !in snapshot && children[k].kind == Kind.Bird
      requires Accounted(snapshot, sprites0, bodies0, shapes0, split, children, birds1, sprites1, bodies1, shapes1)
      requires forall k :: 0 <= k < |c| ==>
                 c[k] !in snapshot && c[k].kind == Kind.Bird && c[k].body !in BodiesOf(split) && c[k].shape !in ShapesOf(split)
      requires b.kind == Kind.BlueBird && !wasB ==>
                 && |c| == 3 && split' == split + [b]
                 && birds.items == Drop(birds1, {b}) + c && sprites.items == Drop(sprites1, {b}) + c
                 && space.bodies == bodies1 + BodiesOf(c) - {b.body} && space.shapes == shapes1 + ShapesOf(c) - {b.shape}
      requires !(b.kind == Kind.BlueBird && !wasB) ==>
                 && c == [] && split' == split
                 && birds.items == birds1 && sprites.items == sprites1 && space.bodies == bodies1 && space.shapes == shapes1
      ensures Clicking(m, snapshot, before, wasSplit, now, i + 1, sprites0, bodies0, shapes0, split', children + c)
    {
      UnsplitNext(snapshot, wasSplit, i);
      AccountedNext(snapshot, sprites0, bodies0, shapes0, split, children, b, b.kind == Kind.BlueBird && !wasB, c,
                    birds1, sprites1, bodies1, shapes1, birds.items, sprites.items, space.bodies, space.shapes);
      forall j | i + 1 <= j < |snapshot|
        ensures snapshot[j] !in split'
      {
        assert snapshot[j] != b;
      }
    }
  }
}
