// The part of the pymunk physics engine that the game touches: bodies, shapes
// and the space they are registered in. Integration, contact resolution and
// moments of inertia stay inside the engine; an impulse applied to a body is
// recorded in the body's log rather than turned into a change of velocity.
module Physics {
  import opened Geometry

  /** An impulse in a body's local frame: `magnitude` along direction `direction` (radians). */
  datatype LocalImpulse = LocalImpulse(magnitude: real, direction: real)

  /** Collision geometry: pymunk.Circle or pymunk.Poly.create_box. */
  datatype Outline = Circle(radius: real) | Box(width: real, height: real)

  class Body {
    const mass: real
    var position: Vec
    var angle: real
    var velocity: Vec
    /** Every impulse applied with apply_impulse_at_local_point, oldest first. */
    var impulses: seq<LocalImpulse>

    constructor (mass: real, position: Vec)
      ensures this.mass == mass && this.position == position
      ensures angle == 0.0 && velocity == Vec(0.0, 0.0) && impulses == []
    {
      this.mass := mass;
      this.position := position;
      angle := 0.0;
      velocity := Vec(0.0, 0.0);
      impulses := [];
    }

    method ApplyImpulseAtLocalPoint(j: LocalImpulse)
      modifies this`impulses
      ensures impulses == old(impulses) + [j]
    {
      impulses := impulses + [j];
    }
  }

  class Shape {
    const body: Body
    const outline: Outline
    var elasticity: real
    var friction: real
    var collisionType: int

    /** A new shape on `body`, with pymunk's default material and collision type 0. */
    constructor (body: Body, outline: Outline)
      ensures this.body == body && this.outline == outline
      ensures elasticity == 0.0 && friction == 0.0 && collisionType == 0
    {
      this.body := body;
      this.outline := outline;
      elasticity, friction, collisionType := 0.0, 0.0, 0;
    }
  }

  /** pymunk.Space as a registry of the bodies and shapes taking part in the simulation. */
  class Space {
    var bodies: set<Body>
    var shapes: set<Shape>

    constructor ()
      ensures bodies == {} && shapes == {}
    {
      bodies, shapes := {}, {};
    }

    method Add(body: Body, shape: Shape)
      modifies this
      ensures bodies == old(bodies) + {body} && shapes == old(shapes) + {shape}
    {
      bodies := bodies + {body};
      shapes := shapes + {shape};
    }

    method Remove(shape: Shape, body: Body)
      modifies this
      ensures bodies == old(bodies) - {body} && shapes == old(shapes) - {shape}
    {
      bodies := bodies - {body};
      shapes := shapes - {shape};
    }
  }
}
