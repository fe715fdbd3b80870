// Trajectory helpers of the game (game_logic.py) and the floating-point
// primitives they rely on. Floats are modelled as reals; sqrt, atan2, cos, sin
// and vector rotation are opaque parameters bundled in a `Numerics` value, and
// the few laws the proofs need are collected in `Numerics.Lawful`.
module Geometry {

  /** A 2D vector (pymunk's Vec2d), also used for body positions and velocities. */
  datatype Vec = Vec(x: real, y: real)

  /** A point on the screen; both coordinates default to 0. */
  datatype Point2D = Point2D(x: real := 0.0, y: real := 0.0)

  /** Launch direction and strength; the positional field order is (angle, impulse). */
  datatype ImpulseVector = ImpulseVector(angle: real, impulse: real)

  /** Python's math.pi, as a decimal literal. */
  const Pi: real := 3.141592653589793

  /** math.radians: degrees to radians. */
  function Radians(degrees: real): (r: real)
    ensures (r == 0.0) == (degrees == 0.0)
    ensures (r > 0.0) == (degrees > 0.0)
  {
    degrees * Pi / 180.0
  }

  /** x ** 2 */
  function Square(r: real): (sq: real)
    ensures sq >= 0.0
  {
    r * r
  }

  function SquaredNorm(v: Vec): real {
    Square(v.x) + Square(v.y)
  }

  /**
   * The numeric library the game calls into (math and pymunk.Vec2d). Every
   * use goes through the member functions below.
   */
  datatype Numerics = Numerics(
    sqrt: real -> real,
    atan2: (real, real) -> real,
    cos: real -> real,
    sin: real -> real,
    rotate: (Vec, real) -> Vec)
  {
    function Sqrt(x: real): real { sqrt(x) }
    function Atan2(y: real, x: real): real { atan2(y, x) }
    function Cos(t: real): real { cos(t) }
    function Sin(t: real): real { sin(t) }
    /** Vec2d.rotated */
    function Rotate(v: Vec, t: real): Vec { rotate(v, t) }
    /** Vec2d.length */
    function Length(v: Vec): real { Sqrt(SquaredNorm(v)) }

    /** The laws of the real functions that the proofs below use. */
    ghost predicate Lawful() {
      && (forall x :: x >= 0.0 ==> Sqrt(x) >= 0.0)
      && (forall r :: r >= 0.0 ==> Sqrt(Square(r)) == r)
      && (forall x :: x > 0.0 ==> Atan2(0.0, x) == 0.0)
      && (forall t :: Square(Cos(t)) + Square(Sin(t)) == 1.0)
      && (forall v :: Rotate(v, 0.0) == v)
      && (forall v, t :: SquaredNorm(Rotate(v, t)) == SquaredNorm(v))
    }
  }

  /** Angle of the vector that goes from `b` to `a`. */
  function GetAngleRadians(m: Numerics, a: Point2D, b: Point2D): real {
    m.Atan2(a.y - b.y, a.x - b.x)
  }

  /** Euclidean distance between `a` and `b`. */
  function GetDistance(m: Numerics, a: Point2D, b: Point2D): real {
    m.Sqrt(Square(b.x - a.x) + Square(b.y - a.y))
  }

  /** Launch vector of a drag gesture from `start` to `end`. */
  function GetImpulseVector(m: Numerics, start: Point2D, end: Point2D): (iv: ImpulseVector)
    ensures iv.angle == GetAngleRadians(m, start, end)
    ensures iv.impulse == GetDistance(m, start, end)
  {
    var angle := GetAngleRadians(m, start, end);
    var distance := GetDistance(m, start, end);
    ImpulseVector(angle, distance)
  }

  // ---------------------------------------------------------------------------
  // Properties of the trajectory helpers

  lemma DistanceToSelfIsZero(m: Numerics, a: Point2D)
    requires m.Lawful()
    ensures GetDistance(m, a, a) == 0.0
  {
    assert Square(a.x - a.x) + Square(a.y - a.y) == Square(0.0);
  }

  lemma DistanceIsNonNegative(m: Numerics, a: Point2D, b: Point2D)
    requires m.Lawful()
    ensures GetDistance(m, a, b) >= 0.0
  {
  }

  lemma DistanceIsSymmetric(m: Numerics, a: Point2D, b: Point2D)
    ensures GetDistance(m, a, b) == GetDistance(m, b, a)
  {
    assert Square(b.x - a.x) == Square(a.x - b.x);
    assert Square(b.y - a.y) == Square(a.y - b.y);
  }

  /** Both helpers depend only on the offset between the two points. */
  lemma TranslationInvariant(m: Numerics, a: Point2D, b: Point2D, dx: real, dy: real)
    ensures GetAngleRadians(m, Point2D(a.x + dx, a.y + dy), Point2D(b.x + dx, b.y + dy)) == GetAngleRadians(m, a, b)
    ensures GetDistance(m, Point2D(a.x + dx, a.y + dy), Point2D(b.x + dx, b.y + dy)) == GetDistance(m, a, b)
  {
    assert (a.x + dx) - (b.x + dx) == a.x - b.x && (a.y + dy) - (b.y + dy) == a.y - b.y;
    var a', b' := Point2D(a.x + dx, a.y + dy), Point2D(b.x + dx, b.y + dy);
    assert b'.x - a'.x == b.x - a.x && b'.y - a'.y == b.y - a.y;
  }

  /**
   * The launch angle points from the release point back towards the press
   * point: dragging straight left (end left of start) aims along +x.
   */
  lemma LaunchAimsFromEndTowardsStart(m: Numerics, start: Point2D, end: Point2D)
    requires m.Lawful()
    requires start.y == end.y && start.x > end.x
    ensures GetImpulseVector(m, start, end).angle == 0.0
    ensures GetImpulseVector(m, start, end).impulse == start.x - end.x
  {
    var d := start.x - end.x;
    assert Square(end.x - start.x) + Square(end.y - start.y) == Square(d);
  }

  /** A gesture that does not move gives a zero impulse and does not fail. */
  lemma NoDragNoImpulse(m: Numerics, p: Point2D)
    requires m.Lawful()
    ensures GetImpulseVector(m, p, p).impulse == 0.0
  {
    DistanceToSelfIsZero(m, p);
  }

  /** Pressing at (0, 0) and releasing at (3, 4) gives distance 5 and angle atan2(-4, -3). */
  lemma ThreeFourFive(m: Numerics)
    requires m.Lawful()
    ensures GetImpulseVector(m, Point2D(), Point2D(3.0, 4.0)) == ImpulseVector(m.Atan2(-4.0, -3.0), 5.0)
  {
    assert Square(3.0 - 0.0) + Square(4.0 - 0.0) == Square(5.0);
  }
}
