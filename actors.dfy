// The game's actors (game_object.py): birds and their one-shot abilities,
// pigs and passive scenery, each bound to one body/shape pair in the space.
// Python's class hierarchy becomes one `Actor` class tagged with a `Kind`.
module Actors {
  import opened Geometry
  import opened Physics
  import opened Lists

  datatype Kind = Bird | YellowBird | BlueBird | Pig | Column | Beam
  {
    predicate IsBird() {
      this == Bird || this == YellowBird || this == BlueBird
    }

    /** The kinds whose Python class defines on_click (a plain Bird does not). */
    predicate HasOnClick() {
      this == YellowBird || this == BlueBird
    }
  }

  /** arcade.SpriteList: an ordered list of sprites, changed in place. */
  class SpriteList {
    var items: seq<Actor>

    constructor ()
      ensures items == []
    {
      items := [];
    }

    method Append(a: Actor)
      modifies this
      ensures items == old(items) + [a]
    {
      items := items + [a];
    }

    /** This list's part of Sprite.remove_from_sprite_lists. */
    method Remove(a: Actor)
      modifies this
      ensures items == Drop(old(items), {a})
    {
      items := Drop(items, {a});
    }

    method Clear()
      modifies this
      ensures items == []
    {
      items := [];
    }
  }

  /** Number of actors of kind `k` in `xs`. */
  function CountKind(xs: seq<Actor>, k: Kind): nat {
    if xs == [] then 0
    else (if xs[0].kind == k then 1 else 0) + CountKind(xs[1..], k)
  }

  lemma {:induction false} CountKindAppend(xs: seq<Actor>, ys: seq<Actor>, k: Kind)
    ensures CountKind(xs + ys, k) == CountKind(xs, k) + CountKind(ys, k)
  {
    if xs == [] {
      assert xs + ys == ys;
    } else {
      assert (xs + ys)[1..] == xs[1..] + ys;
      CountKindAppend(xs[1..], ys, k);
    }
  }

  /** Removing one actor from a list without repeats lowers the count of its kind by one. */
  lemma {:induction false} CountKindDropOne(xs: seq<Actor>, a: Actor, k: Kind)
    requires Distinct(xs) && a in xs
    ensures CountKind(Drop(xs, {a}), k) == CountKind(xs, k) - (if a.kind == k then 1 else 0)
  {
    assert xs == [xs[0]] + xs[1..];
    assert Drop(xs, {a}) == Drop([xs[0]], {a}) + Drop(xs[1..], {a}) by {
      DropAppend([xs[0]], xs[1..], {a});
    }
    if xs[0] == a {
      assert forall i :: 0 <= i < |xs[1..]| ==> xs[1..][i] != a;
      DropNothing(xs[1..], {a});
      assert Drop(xs, {a}) == xs[1..];
    } else {
      assert a in xs[1..];
      CountKindDropOne(xs[1..], a, k);
      assert Drop(xs, {a}) == [xs[0]] + Drop(xs[1..], {a});
    }
  }

  /** The shapes of the actors in `xs`. */
  function ShapesOf(xs: seq<Actor>): set<Shape> {
    set a | a in xs :: a.shape
  }

  /** The bodies of the actors in `xs`. */
  function BodiesOf(xs: seq<Actor>): set<Body> {
    set a | a in xs :: a.body
  }

  lemma ShapesAndBodiesOfAppend(xs: seq<Actor>, a: Actor)
    ensures ShapesOf(xs + [a]) == ShapesOf(xs) + {a.shape}
    ensures BodiesOf(xs + [a]) == BodiesOf(xs) + {a.body}
  {
    assert forall b :: b in xs + [a] <==> b in xs || b == a;
  }

  lemma ShapesAndBodiesOfConcat(xs: seq<Actor>, ys: seq<Actor>)
    ensures ShapesOf(xs + ys) == ShapesOf(xs) + ShapesOf(ys)
    ensures BodiesOf(xs + ys) == BodiesOf(xs) + BodiesOf(ys)
  {
    assert forall b :: b in xs + ys <==> b in xs || b in ys;
  }

  /** Distinct actors of `xs` are bound to distinct bodies. */
  ghost predicate BodiesApart(xs: seq<Actor>) {
    forall i, j :: 0 <= i < |xs| && 0 <= j < |xs| && xs[i] != xs[j] ==> xs[i].body != xs[j].body
  }

  /** Dropping actors from a list and appending actors on bodies of their own keeps the bodies apart. */
  lemma BodiesApartAfterDrop(xs: seq<Actor>, gone: set<Actor>, ys: seq<Actor>)
    requires BodiesApart(xs) && BodiesApart(ys)
    requires forall i, j :: 0 <= i < |xs| && 0 <= j < |ys| ==> xs[i].body != ys[j].body
    ensures BodiesApart(Drop(xs, gone) + ys)
  {
    var zs := Drop(xs, gone) + ys;
    forall i, j | 0 <= i < |zs| && 0 <= j < |zs| && zs[i] != zs[j]
      ensures zs[i].body != zs[j].body
    {
      var d := Drop(xs, gone);
      if i < |d| {
        assert zs[i] in xs;
      }
      if j < |d| {
        assert zs[j] in xs;
      }
    }
  }

  /** A new actor on a body of its own extends a list without repeats whose bodies are apart. */
  lemma ApartSnoc(xs: seq<Actor>, x: Actor)
    requires Distinct(xs) && BodiesApart(xs)
    requires forall j :: 0 <= j < |xs| ==> xs[j] != x && xs[j].body != x.body
    ensures Distinct(xs + [x]) && BodiesApart(xs + [x])
  {
  }

  /**
   * What on_click may change on a bird, before the click: its two flags, its
   * body's impulse log, and the impulse a boost would apply now.
   */
  datatype BirdState = BirdState(hasBoosted: bool, hasSplit: bool, impulses: seq<LocalImpulse>, boost: LocalImpulse)

  /**
   * What on_click does to a bird of kind `kind` in state `s`, leaving it in
   * state `t`: a yellow bird boosts, applying the boost unless it already
   * had; a blue bird splits and keeps its impulses; a bird without on_click
   * is as it was.
   */
  ghost predicate Clicks(kind: Kind, s: BirdState, t: BirdState) {
    && (kind == Kind.YellowBird ==>
          t.hasBoosted && t.hasSplit == s.hasSplit && t.impulses == s.impulses + (if s.hasBoosted then [] else [s.boost]))
    && (kind == Kind.BlueBird ==> t.hasSplit && t.hasBoosted == s.hasBoosted && t.impulses == s.impulses)
    && (!kind.HasOnClick() ==> t.hasBoosted == s.hasBoosted && t.hasSplit == s.hasSplit && t.impulses == s.impulses)
  }

  /** The impulse a bird is launched with: min(max_impulse, requested) * power_multiplier. */
  function SpawnImpulse(maxImpulse: real, requested: real, powerMultiplier: real): real {
    (if requested < maxImpulse then requested else maxImpulse) * powerMultiplier
  }

  lemma SpawnImpulseIsMonotone(maxImpulse: real, a: real, b: real, powerMultiplier: real)
    requires a <= b && powerMultiplier >= 0.0
    ensures SpawnImpulse(maxImpulse, a, powerMultiplier) <= SpawnImpulse(maxImpulse, b, powerMultiplier)
  {
    var ma := if a < maxImpulse then a else maxImpulse;
    var mb := if b < maxImpulse then b else maxImpulse;
    assert (mb - ma) * powerMultiplier >= 0.0;
  }

  lemma SpawnImpulseIsCapped(maxImpulse: real, requested: real, powerMultiplier: real)
    requires powerMultiplier >= 0.0
    ensures SpawnImpulse(maxImpulse, requested, powerMultiplier) <= maxImpulse * powerMultiplier
    ensures requested >= maxImpulse ==> SpawnImpulse(maxImpulse, requested, powerMultiplier) == maxImpulse * powerMultiplier
  {
    var mn := if requested < maxImpulse then requested else maxImpulse;
    assert (maxImpulse - mn) * powerMultiplier >= 0.0;
  }

  /** The angles, relative to the parent's velocity, of the three birds a BlueBird splits into. */
  function SplitOffsets(angleOffset: real): (r: seq<real>)
    ensures |r| == 3 && r[1] == 0.0 && r[0] == Radians(angleOffset) && r[2] == -r[0]
  {
    [Radians(angleOffset), 0.0, -Radians(angleOffset)]
  }

  /** Splitting keeps the middle bird on the parent's course and every child at the parent's speed. */
  lemma SplitVelocities(m: Numerics, v: Vec, angleOffset: real)
    requires m.Lawful()
    ensures m.Rotate(v, SplitOffsets(angleOffset)[1]) == v
    ensures forall i :: 0 <= i < 3 ==> m.Length(m.Rotate(v, SplitOffsets(angleOffset)[i])) == m.Length(v)
  {
  }

  class Actor {
    const kind: Kind
    const body: Body
    const shape: Shape
    /** The space the pair was added to (shape.space in pymunk). */
    const space: Space
    /** YellowBird: boost strength relative to the current speed. */
    const impulseMultiplier: real
    /** BlueBird: angle in degrees between the split birds. */
    const angleOffset: real
    /** BlueBird: the shared lists that receive the split birds. */
    const spritesList: SpriteList?
    const birdsList: SpriteList?
    var centerX: real
    var centerY: real
    var radians: real
    var hasBoosted: bool
    var hasSplit: bool

    /** The physics binding is one body with one shape on it; birds are circles. */
    ghost predicate Valid() {
      && shape.body == body
      && (kind.IsBird() ==> shape.outline.Circle?)
      && (kind == Kind.BlueBird ==> spritesList != null && birdsList != null && spritesList != birdsList)
    }

    /** What a freshly registered pair looks like before any impulse. */
    static ghost predicate Bound(body: Body, shape: Shape, mass: real, x: real, y: real, outline: Outline,
                                 elasticity: real, friction: real, collisionLayer: int)
      reads body, shape
    {
      && shape.body == body
      && body.mass == mass && body.position == Vec(x, y) && body.angle == 0.0 && body.velocity == Vec(0.0, 0.0)
      && shape.outline == outline
      && shape.elasticity == elasticity && shape.friction == friction && shape.collisionType == collisionLayer
    }

    /** Creates a body and a shape with the given material and adds both to `space`. */
    static method Register(space: Space, mass: real, x: real, y: real, outline: Outline,
                           elasticity: real, friction: real, collisionLayer: int)
      returns (body: Body, shape: Shape)
      modifies space
      ensures fresh(body) && fresh(shape)
      ensures Bound(body, shape, mass, x, y, outline, elasticity, friction, collisionLayer) && body.impulses == []
      ensures space.bodies == old(space.bodies) + {body} && space.shapes == old(space.shapes) + {shape}
    {
      body := new Body(mass, Vec(x, y));
      shape := new Shape(body, outline);
      shape.elasticity := elasticity;
      shape.friction := friction;
      shape.collisionType := collisionLayer;
      space.Add(body, shape);
    }

    /** Bird.__init__ up to the sprite: registers a circle and applies the clamped launch impulse. */
    static method Launch(space: Space, iv: ImpulseVector, x: real, y: real, mass: real, radius: real,
                         maxImpulse: real, powerMultiplier: real, elasticity: real, friction: real,
                         collisionLayer: int)
      returns (body: Body, shape: Shape)
      modifies space
      ensures fresh(body) && fresh(shape)
      ensures Bound(body, shape, mass, x, y, Circle(radius), elasticity, friction, collisionLayer)
      ensures body.impulses == [LocalImpulse(SpawnImpulse(maxImpulse, iv.impulse, powerMultiplier), iv.angle)]
      ensures space.bodies == old(space.bodies) + {body} && space.shapes == old(space.shapes) + {shape}
    {
      body, shape := Register(space, mass, x, y, Circle(radius), elasticity, friction, collisionLayer);
      body.ApplyImpulseAtLocalPoint(LocalImpulse(SpawnImpulse(maxImpulse, iv.impulse, powerMultiplier), iv.angle));
    }

    constructor Bird(iv: ImpulseVector, x: real, y: real, space: Space,
                     mass: real := 5.0, radius: real := 12.0, maxImpulse: real := 100.0,
                     powerMultiplier: real := 50.0, elasticity: real := 0.8, friction: real := 1.0,
                     collisionLayer: int := 0)
      modifies space
      ensures Valid() && kind == Kind.Bird && this.space == space
      ensures fresh(body) && fresh(shape) && !hasBoosted && !hasSplit
      ensures Bound(body, shape, mass, x, y, Circle(radius), elasticity, friction, collisionLayer)
      ensures body.impulses == [LocalImpulse(SpawnImpulse(maxImpulse, iv.impulse, powerMultiplier), iv.angle)]
      ensures space.bodies == old(space.bodies) + {body} && space.shapes == old(space.shapes) + {shape}
    {
      var b, s := Launch(space, iv, x, y, mass, radius, maxImpulse, powerMultiplier, elasticity, friction, collisionLayer);
      kind, body, shape, this.space := Kind.Bird, b, s, space;
      impulseMultiplier, angleOffset := 0.0, 0.0;
      spritesList, birdsList := null, null;
      centerX, centerY, radians := 0.0, 0.0, 0.0;
      hasBoosted, hasSplit := false, false;
    }

    constructor YellowBird(iv: ImpulseVector, x: real, y: real, space: Space,
                           mass: real := 5.0, radius: real := 12.0, maxImpulse: real := 100.0,
                           powerMultiplier: real := 50.0, elasticity: real := 0.8, friction: real := 1.0,
                           collisionLayer: int := 0, impulseMultiplier: real := 2.0)
      modifies space
      ensures Valid() && kind == Kind.YellowBird && this.space == space && this.impulseMultiplier == impulseMultiplier
      ensures fresh(body) && fresh(shape) && !hasBoosted && !hasSplit
      ensures Bound(body, shape, mass, x, y, Circle(radius), elasticity, friction, collisionLayer)
      ensures body.impulses == [LocalImpulse(SpawnImpulse(maxImpulse, iv.impulse, powerMultiplier), iv.angle)]
      ensures space.bodies == old(space.bodies) + {body} && space.shapes == old(space.shapes) + {shape}
    {
      var b, s := Launch(space, iv, x, y, mass, radius, maxImpulse, powerMultiplier, elasticity, friction, collisionLayer);
      kind, body, shape, this.space := Kind.YellowBird, b, s, space;
      this.impulseMultiplier, angleOffset := impulseMultiplier, 0.0;
      spritesList, birdsList := null, null;
      centerX, centerY, radians := 0.0, 0.0, 0.0;
      hasBoosted, hasSplit := false, false;
    }

    constructor BlueBird(iv: ImpulseVector, x: real, y: real, space: Space,
                         spritesList: SpriteList, birdsList: SpriteList,
                         mass: real := 5.0, radius: real := 12.0, maxImpulse: real := 100.0,
                         powerMultiplier: real := 50.0, elasticity: real := 0.8, friction: real := 1.0,
                         collisionLayer: int := 0, angleOffset: real := 30.0)
      requires spritesList != birdsList
      modifies space
      ensures Valid() && kind == Kind.BlueBird && this.space == space && this.angleOffset == angleOffset
      ensures this.spritesList == spritesList && this.birdsList == birdsList
      ensures fresh(body) && fresh(shape) && !hasBoosted && !hasSplit
      ensures Bound(body, shape, mass, x, y, Circle(radius), elasticity, friction, collisionLayer)
      ensures body.impulses == [LocalImpulse(SpawnImpulse(maxImpulse, iv.impulse, powerMultiplier), iv.angle)]
      ensures space.bodies == old(space.bodies) + {body} && space.shapes == old(space.shapes) + {shape}
    {
      var b, s := Launch(space, iv, x, y, mass, radius, maxImpulse, powerMultiplier, elasticity, friction, collisionLayer);
      kind, body, shape, this.space := Kind.BlueBird, b, s, space;
      impulseMultiplier, this.angleOffset := 0.0, angleOffset;
      this.spritesList, this.birdsList := spritesList, birdsList;
      centerX, centerY, radians := 0.0, 0.0, 0.0;
      hasBoosted, hasSplit := false, false;
    }

    /** A pig: a circle whose radius follows from the width of its texture. */
    constructor Pig(x: real, y: real, space: Space, width: real,
                    mass: real := 2.0, elasticity: real := 0.8, friction: real := 0.4,
                    collisionLayer: int := 0)
      modifies space
      ensures Valid() && kind == Kind.Pig && this.space == space
      ensures fresh(body) && fresh(shape) && !hasBoosted && !hasSplit
      ensures Bound(body, shape, mass, x, y, Circle(width / 2.0 - 3.0), elasticity, friction, collisionLayer)
      ensures body.impulses == []
      ensures space.bodies == old(space.bodies) + {body} && space.shapes == old(space.shapes) + {shape}
    {
      var b, s := Register(space, mass, x, y, Circle(width / 2.0 - 3.0), elasticity, friction, collisionLayer);
      kind, body, shape, this.space := Kind.Pig, b, s, space;
      impulseMultiplier, angleOffset := 0.0, 0.0;
      spritesList, birdsList := null, null;
      centerX, centerY, radians := 0.0, 0.0, 0.0;
      hasBoosted, hasSplit := false, false;
    }

    /** A column or a beam: a box the size of its texture. */
    constructor PassiveObject(kind: Kind, x: real, y: real, space: Space, width: real, height: real,
                              mass: real := 2.0, elasticity: real := 0.8, friction: real := 1.0,
                              collisionLayer: int := 0)
      requires kind == Kind.Column || kind == Kind.Beam
      modifies space
      ensures Valid() && this.kind == kind && this.space == space
      ensures fresh(body) && fresh(shape) && !hasBoosted && !hasSplit
      ensures Bound(body, shape, mass, x, y, Box(width, height), elasticity, friction, collisionLayer)
      ensures body.impulses == []
      ensures space.bodies == old(space.bodies) + {body} && space.shapes == old(space.shapes) + {shape}
    {
      var b, s := Register(space, mass, x, y, Box(width, height), elasticity, friction, collisionLayer);
      this.kind, body, shape, this.space := kind, b, s, space;
      impulseMultiplier, angleOffset := 0.0, 0.0;
      spritesList, birdsList := null, null;
      centerX, centerY, radians := 0.0, 0.0, 0.0;
      hasBoosted, hasSplit := false, false;
    }

    /** The sprite shows the body where it is and as it is turned. */
    ghost predicate Posed()
      reads this, body
    {
      centerX == body.position.x && centerY == body.position.y && radians == body.angle
    }

    /** Copies the body's pose into the sprite. */
    method Update()
      requires Valid()
      modifies this`centerX, this`centerY, this`radians
      ensures Posed()
    {
      centerX := shape.body.position.x;
      centerY := shape.body.position.y;
      radians := shape.body.angle;
    }

    /** YellowBird.on_click: one boost along the body's current heading. */
    method Boost(m: Numerics)
      requires kind == Kind.YellowBird
      modifies this`hasBoosted, body`impulses
      ensures hasBoosted
      ensures old(hasBoosted) ==> body.impulses == old(body.impulses)
      ensures !old(hasBoosted) ==>
        body.impulses == old(body.impulses) + [LocalImpulse(old(impulseMultiplier * m.Length(body.velocity)), old(body.angle))]
    {
      if !hasBoosted {
        var impulse := impulseMultiplier * m.Length(body.velocity);
        body.ApplyImpulseAtLocalPoint(LocalImpulse(impulse, body.angle));
        hasBoosted := true;
      }
    }

    /** The state on_click starts from, with the boost taken along the body's current heading. */
    ghost function Before(m: Numerics): BirdState
      reads this`hasBoosted, this`hasSplit, body`impulses, body`velocity, body`angle
    {
      BirdState(hasBoosted, hasSplit, body.impulses, LocalImpulse(impulseMultiplier * m.Length(body.velocity), body.angle))
    }

    /** A bird produced by splitting `parent`: a plain bird with the parent's place, body and material. */
    ghost predicate IsSplitChildOf(parent: Actor, velocity: Vec)
      reads this`hasBoosted, this`hasSplit, body`position, body`velocity, shape, parent.body`position, parent.shape
    {
      && Valid() && kind == Kind.Bird && space == parent.space && !hasBoosted && !hasSplit
      && body.mass == parent.body.mass && body.position == parent.body.position
      && shape.outline == parent.shape.outline && shape.elasticity == parent.shape.elasticity
      && shape.friction == parent.shape.friction && shape.collisionType == parent.shape.collisionType
      && body.velocity == velocity
    }

    /** One pass of the split loop: a plain bird at this bird's place, flying at `velocity`. */
    method SpawnSplitChild(m: Numerics, angle: real, velocity: Vec) returns (child: Actor)
      requires Valid() && kind == Kind.BlueBird
      modifies space
      ensures fresh(child) && fresh(child.body) && fresh(child.shape)
      ensures child.IsSplitChildOf(this, velocity)
      ensures space.bodies == old(space.bodies) + {child.body} && space.shapes == old(space.shapes) + {child.shape}
    {
      var speed := m.Length(velocity);
      // The impulse vector is built as (speed, angle) although its fields are
      // (angle, impulse); the velocity assigned below supersedes its effect.
      child := new Actor.Bird(ImpulseVector(speed, angle), body.position.x, body.position.y, space,
                              mass := shape.body.mass, radius := shape.outline.radius, maxImpulse := speed,
                              powerMultiplier := 1.0, elasticity := shape.elasticity,
                              friction := shape.friction, collisionLayer := shape.collisionType);
      child.body.velocity := velocity;
    }

    /** The loop of BlueBird.on_click: spawns the three birds and appends each to both lists. */
    method SpawnChildren(m: Numerics) returns (children: seq<Actor>)
      requires Valid() && kind == Kind.BlueBird
      modifies spritesList, birdsList, space
      ensures |children| == 3 && Distinct(children) && BodiesApart(children)
      ensures forall i :: 0 <= i < 3 ==>
        && fresh(children[i]) && fresh(children[i].body) && fresh(children[i].shape)
        && children[i].IsSplitChildOf(this, m.Rotate(body.velocity, SplitOffsets(angleOffset)[i]))
      ensures spritesList.items == old(spritesList.items) + children
      ensures birdsList.items == old(birdsList.items) + children
      ensures space.bodies == old(space.bodies) + BodiesOf(children)
      ensures space.shapes == old(space.shapes) + ShapesOf(children)
    {
      var theta := body.angle;
      var offsets := SplitOffsets(angleOffset);
      var angles := [theta + offsets[0], theta + offsets[1], theta + offsets[2]];
      children := [];
      for i := 0 to 3
        invariant |children| == i && Distinct(children) && BodiesApart(children)
        invariant forall j :: 0 <= j < i ==>
            && fresh(children[j]) && fresh(children[j].body) && fresh(children[j].shape)
            && children[j].IsSplitChildOf(this, m.Rotate(body.velocity, offsets[j]))
        invariant spritesList.items == old(spritesList.items) + children
        invariant birdsList.items == old(birdsList.items) + children
        invariant space.bodies == old(space.bodies) + BodiesOf(children)
        invariant space.shapes == old(space.shapes) + ShapesOf(children)
      {
        var child := SpawnListed(m, angles[i], m.Rotate(body.velocity, angles[i] - theta));
        ApartSnoc(children, child);
        ShapesAndBodiesOfAppend(children, child);
        children := children + [child];
      }
    }

    /** One pass of that loop: a new bird, appended to the sprite list and to the bird list. */
    method SpawnListed(m: Numerics, angle: real, velocity: Vec) returns (child: Actor)
      requires Valid() && kind == Kind.BlueBird
      modifies spritesList, birdsList, space
      ensures fresh(child) && fresh(child.body) && fresh(child.shape) && child.IsSplitChildOf(this, velocity)
      ensures spritesList.items == old(spritesList.items) + [child] && birdsList.items == old(birdsList.items) + [child]
      ensures space.bodies == old(space.bodies) + {child.body} && space.shapes == old(space.shapes) + {child.shape}
    {
      child := SpawnSplitChild(m, angle, velocity);
      spritesList.Append(child);
      birdsList.Append(child);
    }

    /** BlueBird.on_click: replaces this bird by three plain birds fanned out around its course. */
    method Split(m: Numerics) returns (ghost children: seq<Actor>)
      requires Valid() && kind == Kind.BlueBird
      modifies this`hasSplit, spritesList, birdsList, space
      ensures hasSplit
      ensures old(hasSplit) ==> children == [] && unchanged(spritesList, birdsList, space)
      ensures !old(hasSplit) ==>
        && |children| == 3 && Distinct(children) && BodiesApart(children)
        && (forall i :: 0 <= i < 3 ==>
              && fresh(children[i]) && fresh(children[i].body) && fresh(children[i].shape)
              && children[i].IsSplitChildOf(this, m.Rotate(old(body.velocity), SplitOffsets(angleOffset)[i])))
        && spritesList.items == Drop(old(spritesList.items), {this}) + children
        && birdsList.items == Drop(old(birdsList.items), {this}) + children
        && space.bodies == old(space.bodies) + BodiesOf(children) - {body}
        && space.shapes == old(space.shapes) + ShapesOf(children) - {shape}
    {
      children := [];
      if !hasSplit {
        children := SpawnChildren(m);
        RemoveFromSpriteLists();
        space.Remove(shape, body);
        hasSplit := true;
        forall i | 0 <= i < 3
          ensures children[i].IsSplitChildOf(this, m.Rotate(old(body.velocity), SplitOffsets(angleOffset)[i]))
        {
          assert children[i] != this;
        }
        assert this !in children;
        DropNothing(children, {this});
        DropAppend(old(spritesList.items), children, {this});
        DropAppend(old(birdsList.items), children, {this});
      }
    }

    /** Sprite.remove_from_sprite_lists for a blue bird: leaves both of its lists. */
    method RemoveFromSpriteLists()
      requires Valid() && kind == Kind.BlueBird
      modifies spritesList, birdsList
      ensures spritesList.items == Drop(old(spritesList.items), {this})
      ensures birdsList.items == Drop(old(birdsList.items), {this})
    {
      spritesList.Remove(this);
      birdsList.Remove(this);
    }
  }
}
