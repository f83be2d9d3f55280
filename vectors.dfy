/**
 * The part of pygame.Vector2 the game relies on, over exact reals.
 * Square roots and trigonometry are not expressible here: distances are
 * compared through their squares, and rotation is an input (a Rotation).
 */
module Vectors {

  datatype Vec2 = Vec2(x: real, y: real) {

    function Add(o: Vec2): Vec2 { Vec2(x + o.x, y + o.y) }

    function Sub(o: Vec2): Vec2 { Vec2(x - o.x, y - o.y) }

    function Scale(k: real): Vec2 { Vec2(x * k, y * k) }

    function Dot(o: Vec2): real { x * o.x + y * o.y }

    function LengthSquared(): real { x * x + y * y }
  }

  const Zero := Vec2(0.0, 0.0)

  /** `Vector2(0, 1)`: the direction a ship with rotation 0 faces. */
  const Up := Vec2(0.0, 1.0)

  /** `Vector2(v).rotate(degrees)`, supplied by the caller. */
  type Rotation = (Vec2, real) -> Vec2

  /** `math.sin` of an angle in radians, supplied by the caller. */
  type Sine = real -> real

  function DistanceSquared(a: Vec2, b: Vec2): real
  {
    a.Sub(b).LengthSquared()
  }

  /**
   * `a.distance_to(b) <= r`. For a real distance d >= 0 this holds exactly
   * when r is not negative and d * d <= r * r.
   */
  predicate WithinDistance(a: Vec2, b: Vec2, r: real)
  {
    0.0 <= r && DistanceSquared(a, b) <= r * r
  }

  /** The squared test above agrees with the test on the distance itself. */
  lemma WithinDistanceIffDistance(a: Vec2, b: Vec2, r: real, d: real)
    requires 0.0 <= d && d * d == DistanceSquared(a, b)
    ensures WithinDistance(a, b, r) <==> d <= r
  {
    if 0.0 <= r {
      SquaresOrdered(d, r);
    }
  }

  /** For non-negative reals, comparing squares is comparing the numbers. */
  lemma SquaresOrdered(d: real, r: real)
    requires 0.0 <= d && 0.0 <= r
    ensures d <= r <==> d * d <= r * r
  {
    if d <= r {
      assert (r - d) * d >= 0.0 && (r - d) * r >= 0.0;
      assert (r - d) * d == r * d - d * d;
      assert (r - d) * r == r * r - r * d;
    } else {
      assert (d - r) * d > 0.0 && (d - r) * r >= 0.0;
      assert (d - r) * d == d * d - r * d;
      assert (d - r) * r == r * d - r * r;
    }
  }

  lemma DistanceSquaredSymmetric(a: Vec2, b: Vec2)
    ensures DistanceSquared(a, b) == DistanceSquared(b, a)
  {
  }

  /** Only the zero vector has squared length zero. */
  lemma LengthSquaredPositive(v: Vec2)
    requires v != Zero
    ensures v.LengthSquared() > 0.0
  {
    calc {
      v.LengthSquared();
    ==
      v.x * v.x + v.y * v.y;
    > { SumOfSquaresPositive(v.x, v.y); }
      0.0;
    }
  }

  lemma SumOfSquaresPositive(x: real, y: real)
    requires x != 0.0 || y != 0.0
    ensures x * x + y * y > 0.0
  {
    if x != 0.0 {
      assert x * x > 0.0;
      assert y * y >= 0.0;
    } else {
      assert y * y > 0.0;
    }
  }
}
