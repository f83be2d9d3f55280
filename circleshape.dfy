/**
 * circleshape.py: the shared body of every moving entity (position,
 * velocity, radius, the screen wrap) and the collision geometry.
 */
module CircleShapes {
  import opened Vectors
  import opened Constants

  // ---------------------------------------------------------------------
  // Circle against circle

  /** `distance(c1, c2) <= r1 + r2`: touching circles collide. */
  predicate CirclesCollide(c1: Vec2, r1: real, c2: Vec2, r2: real)
  {
    WithinDistance(c1, c2, r1 + r2)
  }

  /** The squared test is the distance test of the source, boundary included. */
  lemma CirclesCollideIffDistance(c1: Vec2, r1: real, c2: Vec2, r2: real, d: real)
    requires 0.0 <= d && d * d == DistanceSquared(c1, c2)
    ensures CirclesCollide(c1, r1, c2, r2) <==> d <= r1 + r2
  {
    WithinDistanceIffDistance(c1, c2, r1 + r2, d);
  }

  lemma CirclesCollideSymmetric(c1: Vec2, r1: real, c2: Vec2, r2: real)
    ensures CirclesCollide(c1, r1, c2, r2) == CirclesCollide(c2, r2, c1, r1)
  {
    DistanceSquaredSymmetric(c1, c2);
  }

  // ---------------------------------------------------------------------
  // Ray casting

  /** The index j that the loop pairs with i: the previous vertex, cyclically. */
  function PrevIndex(n: nat, i: nat): (j: nat)
    requires i < n
    ensures j < n
  {
    if i == 0 then n - 1 else i - 1
  }

  /**
   * Edge (vi, vj) toggles the parity: its end points lie strictly on
   * different sides of the horizontal line through p, and the edge meets
   * that line to the right of p. The division is reached only when the
   * first test passed, so vj.y != vi.y there.
   */
  predicate EdgeCrossesRay(p: Vec2, vi: Vec2, vj: Vec2)
  {
    (vi.y > p.y) != (vj.y > p.y) &&
    p.x < (vj.x - vi.x) * (p.y - vi.y) / (vj.y - vi.y) + vi.x
  }

  /** How many of the edges (v[i], v[i-1 mod n]) with i < k toggle. */
  function Crossings(p: Vec2, vs: seq<Vec2>, k: nat): nat
    requires k <= |vs|
  {
    if k == 0 then 0
    else Crossings(p, vs, k - 1) +
         (if EdgeCrossesRay(p, vs[k - 1], vs[PrevIndex(|vs|, k - 1)]) then 1 else 0)
  }

  /** The ray-casting answer: an odd number of edges toggles. */
  predicate InsidePolygon(p: Vec2, vs: seq<Vec2>)
  {
    Crossings(p, vs, |vs|) % 2 == 1
  }

  /** `CircleShape._point_in_polygon` (it does not use the shape itself). */
  method PointInPolygon(point: Vec2, vertices: seq<Vec2>) returns (inside: bool)
    ensures inside == InsidePolygon(point, vertices)
  {
    var n := |vertices|;
    inside := false;
    var j: int := n - 1;
    for i := 0 to n
      invariant j == if i == 0 then n - 1 else i - 1
      invariant inside == (Crossings(point, vertices, i) % 2 == 1)
    {
      if EdgeCrossesRay(point, vertices[i], vertices[j]) {
        inside := !inside;
      }
      j := i;
    }
  }

  /** A horizontal edge never toggles the parity, whatever the point. */
  lemma HorizontalEdgeNeverCrosses(p: Vec2, vi: Vec2, vj: Vec2)
    requires vi.y == vj.y
    ensures !EdgeCrossesRay(p, vi, vj)
  {
  }

  /**
   * Whether an edge toggles does not depend on the direction it is walked
   * in: the crossing abscissa is the same from either end.
   */
  lemma EdgeCrossesRaySymmetric(p: Vec2, a: Vec2, b: Vec2)
    ensures EdgeCrossesRay(p, a, b) == EdgeCrossesRay(p, b, a)
  {
    if (a.y > p.y) != (b.y > p.y) {
      CrossingAbscissaSymmetric(p.y, a.x, a.y, b.x, b.y);
    }
  }

  lemma CrossingAbscissaSymmetric(py: real, ax: real, ay: real, qx: real, qy: real)
    requires ay != qy
    ensures (qx - ax) * (py - ay) / (qy - ay) + ax == (ax - qx) * (py - qy) / (ay - qy) + qx
  {
    var x, d := qx - ax, qy - ay;
    assert (ax - qx) * (py - qy) / (ay - qy) == (x * (py - qy)) / d;
    assert x * (py - ay) - x * (py - qy) == x * d;
    assert x * (py - ay) / d - x * (py - qy) / d == (x * d) / d;
  }

  /** The square with corners (0, 0) and (10, 10), counter-clockwise. */
  const Square := [Vec2(0.0, 0.0), Vec2(10.0, 0.0), Vec2(10.0, 10.0), Vec2(0.0, 10.0)]

  /**
   * The centre is inside and a point to the right is outside; of the two
   * vertical sides, the left one counts as inside and the right one as
   * outside, because a crossing must lie strictly to the right of the point.
   */
  lemma SquareExamples()
    ensures InsidePolygon(Vec2(5.0, 5.0), Square)
    ensures !InsidePolygon(Vec2(15.0, 5.0), Square)
    ensures InsidePolygon(Vec2(0.0, 5.0), Square)
    ensures !InsidePolygon(Vec2(10.0, 5.0), Square)
  {
    forall p | p in [Vec2(5.0, 5.0), Vec2(15.0, 5.0), Vec2(0.0, 5.0), Vec2(10.0, 5.0)]
      ensures Crossings(p, Square, 4) == Crossings(p, Square, 0) + (if p.x < 0.0 then 1 else 0) + (if p.x < 10.0 then 1 else 0)
    {
      assert !EdgeCrossesRay(p, Square[1], Square[0]);
      assert !EdgeCrossesRay(p, Square[3], Square[2]);
      assert EdgeCrossesRay(p, Square[0], Square[3]) == (p.x < 0.0);
      assert EdgeCrossesRay(p, Square[2], Square[1]) == (p.x < 10.0);
    }
  }

  // ---------------------------------------------------------------------
  // Closest point on a segment

  /** `max(0, min(1, v))`. */
  function Clamp01(v: real): (t: real)
    ensures 0.0 <= t <= 1.0
    ensures 0.0 <= v <= 1.0 ==> t == v
    ensures v < 0.0 ==> t == 0.0
    ensures v > 1.0 ==> t == 1.0
  {
    if 1.0 < v then 1.0 else if v < 0.0 then 0.0 else v
  }

  /** The point of the segment from a to b at parameter t. */
  function PointAt(a: Vec2, b: Vec2, t: real): Vec2
  {
    a.Add(b.Sub(a).Scale(t))
  }

  /** The parameter of the closest point: 0 for a zero-length segment. */
  function ClosestParameter(point: Vec2, a: Vec2, b: Vec2): (t: real)
    ensures 0.0 <= t <= 1.0
  {
    var segVec := b.Sub(a);
    var segLenSq := segVec.LengthSquared();
    if segLenSq == 0.0 then 0.0 else Clamp01(point.Sub(a).Dot(segVec) / segLenSq)
  }

  /** `CircleShape._closest_point_on_segment` (it does not use the shape itself). */
  function ClosestPointOnSegment(point: Vec2, segStart: Vec2, segEnd: Vec2): (c: Vec2)
    ensures segStart == segEnd ==> c == segStart
    ensures c == PointAt(segStart, segEnd, ClosestParameter(point, segStart, segEnd))
  {
    var segVec := segEnd.Sub(segStart);
    var segLenSq := segVec.LengthSquared();
    if segLenSq == 0.0 then
      ZeroLengthSegment(segStart, segEnd, 0.0);
      segStart
    else
      var t := Clamp01(point.Sub(segStart).Dot(segVec) / segLenSq);
      segStart.Add(segVec.Scale(t))
  }

  /** A segment has zero squared length exactly when its end points coincide. */
  lemma ZeroLengthSegment(a: Vec2, b: Vec2, t: real)
    ensures a == b ==> b.Sub(a).LengthSquared() == 0.0 && PointAt(a, b, t) == a
    ensures a != b ==> b.Sub(a).LengthSquared() > 0.0
  {
    var d := b.Sub(a);
    if a == b {
      assert d == Zero;
      assert d.Scale(t) == Zero;
    } else {
      LengthSquaredPositive(d);
    }
  }

  /**
   * The point returned is the closest point of the segment: no point of the
   * segment is nearer to `point`.
   */
  lemma ClosestPointIsClosest(point: Vec2, a: Vec2, b: Vec2, t: real)
    requires 0.0 <= t <= 1.0
    ensures DistanceSquared(point, ClosestPointOnSegment(point, a, b)) <= DistanceSquared(point, PointAt(a, b, t))
  {
    var d := b.Sub(a);
    var w := point.Sub(a);
    var tc := ClosestParameter(point, a, b);
    DistanceAlongSegment(point, a, b, t);
    DistanceAlongSegment(point, a, b, tc);
    ZeroLengthSegment(a, b, t);
    if a != b {
      ClampedMinimum(d.LengthSquared(), w.Dot(d), t);
    }
  }

  /** The squared distance from `point` to the point at parameter t, as a quadratic in t. */
  lemma DistanceAlongSegment(point: Vec2, a: Vec2, b: Vec2, t: real)
    ensures DistanceSquared(point, PointAt(a, b, t)) ==
            point.Sub(a).LengthSquared() - 2.0 * t * point.Sub(a).Dot(b.Sub(a)) + t * t * b.Sub(a).LengthSquared()
  {
    var d := b.Sub(a);
    var w := point.Sub(a);
    var q := PointAt(a, b, t);
    assert point.Sub(q) == Vec2(w.x - t * d.x, w.y - t * d.y);
    SquareOfDifference(w.x, t, d.x);
    SquareOfDifference(w.y, t, d.y);
  }

  lemma SquareOfDifference(w: real, t: real, d: real)
    ensures (w - t * d) * (w - t * d) == w * w - 2.0 * t * (w * d) + t * t * (d * d)
  {
  }

  /**
   * On [0, 1], the quadratic -2tD + t^2 L with L > 0 is smallest at its
   * vertex D / L clamped to [0, 1].
   */
  lemma ClampedMinimum(L: real, D: real, t: real)
    requires L > 0.0 && 0.0 <= t <= 1.0
    ensures var tc := Clamp01(D / L);
            -2.0 * tc * D + tc * tc * L <= -2.0 * t * D + t * t * L
  {
    var t0 := D / L;
    var tc := Clamp01(t0);
    assert D == t0 * L;
    var gap := (-2.0 * t * D + t * t * L) - (-2.0 * tc * D + tc * tc * L);
    assert gap == (t - tc) * ((t + tc) * L - 2.0 * D);
    if t0 < 0.0 {
      assert tc == 0.0;
      assert (t + tc) * L - 2.0 * D >= 0.0;
      assert t - tc >= 0.0;
      NonNegativeProduct(t - tc, (t + tc) * L - 2.0 * D);
    } else if t0 > 1.0 {
      assert tc == 1.0;
      assert (t + tc) * L - 2.0 * D <= (t - 1.0) * L by {
        assert 2.0 * D == 2.0 * t0 * L;
        assert t0 * L >= L;
      }
      assert (t - 1.0) * L <= 0.0;
      NonNegativeProduct(tc - t, 2.0 * D - (t + tc) * L);
    } else {
      assert tc == t0;
      assert gap == (t - t0) * (t - t0) * L;
      NonNegativeProduct((t - t0) * (t - t0), L);
    }
  }

  lemma NonNegativeProduct(x: real, y: real)
    requires 0.0 <= x && 0.0 <= y
    ensures 0.0 <= x * y
  {
  }

  // ---------------------------------------------------------------------
  // Circle against polygon

  /** Edge k of the polygon, from v[k] to v[k+1 mod n], comes within r of c. */
  predicate EdgeTouchesCircle(vs: seq<Vec2>, k: nat, c: Vec2, r: real)
    requires k < |vs|
  {
    WithinDistance(c, ClosestPointOnSegment(c, vs[k], vs[(k + 1) % |vs|]), r)
  }

  /**
   * What both circle-polygon tests compute: the centre is inside by ray
   * casting, or some edge's closest point lies within the radius.
   */
  predicate PolygonHitsCircle(vs: seq<Vec2>, c: Vec2, r: real)
  {
    InsidePolygon(c, vs) || exists k :: 0 <= k < |vs| && EdgeTouchesCircle(vs, k, c, r)
  }

  /**
   * `polygon_collides_circle`: the same test as
   * `CircleShape.collides_with_polygon`, with the ray casting and the
   * closest point written out inline.
   */
  method PolygonCollidesCircle(vertices: seq<Vec2>, circlePos: Vec2, circleRadius: real) returns (hit: bool)
    ensures hit == PolygonHitsCircle(vertices, circlePos, circleRadius)
  {
    var n := |vertices|;
    var inside := false;
    var j: int := n - 1;
    for i := 0 to n
      invariant j == if i == 0 then n - 1 else i - 1
      invariant inside == (Crossings(circlePos, vertices, i) % 2 == 1)
    {
      if EdgeCrossesRay(circlePos, vertices[i], vertices[j]) {
        inside := !inside;
      }
      j := i;
    }
    if inside {
      return true;
    }
    for i := 0 to n
      invariant forall k :: 0 <= k < i ==> !EdgeTouchesCircle(vertices, k, circlePos, circleRadius)
    {
      // The source writes the closest-point computation out inline.
      var closest := ClosestPointOnSegment(circlePos, vertices[i], vertices[(i + 1) % n]);
      if WithinDistance(circlePos, closest, circleRadius) {
        assert EdgeTouchesCircle(vertices, i, circlePos, circleRadius);
        return true;
      }
    }
    return false;
  }

  // ---------------------------------------------------------------------
  // Triangle against triangle (Separating Axis Theorem)

  function Perpendicular(e: Vec2): Vec2
  {
    Vec2(-e.y, e.x)
  }

  /**
   * The axis `get_axes` uses for the edge p1 -> p2: the edge's
   * perpendicular, or (1, 0) for a zero-length edge. The source normalizes
   * the perpendicular; multiplying an axis by a positive factor multiplies
   * both projected intervals by it and so changes no overlap test, and the
   * model keeps the axis unnormalized.
   */
  function EdgeAxis(p1: Vec2, p2: Vec2): Vec2
  {
    var edge := p2.Sub(p1);
    if edge.LengthSquared() > 0.0 then Perpendicular(edge) else Vec2(1.0, 0.0)
  }

  function TriangleAxes(tri: seq<Vec2>): (axes: seq<Vec2>)
    requires |tri| == 3
    ensures |axes| == 3
  {
    [EdgeAxis(tri[0], tri[1]), EdgeAxis(tri[1], tri[2]), EdgeAxis(tri[2], tri[0])]
  }

  /** `get_axes`: one axis per edge (tri[i], tri[i+1 mod 3]), appended in order. */
  method GetAxes(triangle: seq<Vec2>) returns (axes: seq<Vec2>)
    requires |triangle| == 3
    ensures axes == TriangleAxes(triangle)
  {
    axes := [];
    for i := 0 to 3
      invariant |axes| == i
      invariant forall k :: 0 <= k < i ==> axes[k] == EdgeAxis(triangle[k], triangle[(k + 1) % 3])
    {
      axes := axes + [EdgeAxis(triangle[i], triangle[(i + 1) % 3])];
    }
    assert axes[2] == EdgeAxis(triangle[2], triangle[0]);
  }

  function Dots(tri: seq<Vec2>, axis: Vec2): (dots: seq<real>)
    ensures |dots| == |tri|
    ensures forall i :: 0 <= i < |tri| ==> dots[i] == tri[i].Dot(axis)
  {
    seq(|tri|, i requires 0 <= i < |tri| => tri[i].Dot(axis))
  }

  /** `min(values)`: a member of the list no larger than any member. */
  function MinOf(values: seq<real>): (m: real)
    requires |values| > 0
    ensures m in values
    ensures forall v :: v in values ==> m <= v
  {
    if |values| == 1 then values[0]
    else
      var rest := MinOf(values[1..]);
      assert forall v :: v in values ==> v == values[0] || v in values[1..];
      if values[0] <= rest then values[0] else rest
  }

  /** `max(values)`: a member of the list no smaller than any member. */
  function MaxOf(values: seq<real>): (m: real)
    requires |values| > 0
    ensures m in values
    ensures forall v :: v in values ==> v <= m
  {
    if |values| == 1 then values[0]
    else
      var rest := MaxOf(values[1..]);
      assert forall v :: v in values ==> v == values[0] || v in values[1..];
      if values[0] >= rest then values[0] else rest
  }

  /** `project`: the interval [min, max] the vertices cover along the axis. */
  function Project(tri: seq<Vec2>, axis: Vec2): (interval: (real, real))
    requires |tri| > 0
  {
    var dots := Dots(tri, axis);
    (MinOf(dots), MaxOf(dots))
  }

  /** `overlap`: the two intervals share a point; touching counts. */
  predicate Overlap(proj1: (real, real), proj2: (real, real))
  {
    proj1.0 <= proj2.1 && proj2.0 <= proj1.1
  }

  predicate SeparatingAxis(tri1: seq<Vec2>, tri2: seq<Vec2>, axis: Vec2)
    requires |tri1| > 0 && |tri2| > 0
  {
    !Overlap(Project(tri1, axis), Project(tri2, axis))
  }

  /** No axis of either triangle separates them. */
  predicate TrianglesOverlap(tri1: seq<Vec2>, tri2: seq<Vec2>)
    requires |tri1| == 3 && |tri2| == 3
  {
    forall axis :: axis in TriangleAxes(tri1) + TriangleAxes(tri2) ==> !SeparatingAxis(tri1, tri2, axis)
  }

  /** `triangles_intersect`: false as soon as one axis separates the triangles. */
  method TrianglesIntersect(tri1: seq<Vec2>, tri2: seq<Vec2>) returns (hit: bool)
    requires |tri1| == 3 && |tri2| == 3
    ensures hit == TrianglesOverlap(tri1, tri2)
    ensures !hit <==> exists k :: 0 <= k < 6 && SeparatingAxis(tri1, tri2, (TriangleAxes(tri1) + TriangleAxes(tri2))[k])
  {
    var axes1 := GetAxes(tri1);
    var axes2 := GetAxes(tri2);
    var axes := axes1 + axes2;
    for k := 0 to |axes|
      invariant forall m :: 0 <= m < k ==> !SeparatingAxis(tri1, tri2, axes[m])
    {
      var proj1 := Project(tri1, axes[k]);
      var proj2 := Project(tri2, axes[k]);
      if !Overlap(proj1, proj2) {
        assert SeparatingAxis(tri1, tri2, axes[k]);
        return false;
      }
    }
    return true;
  }

  /**
   * The overlap test is inclusive: triangles that share a vertex intersect,
   * since that vertex's projection lies in both intervals on every axis.
   */
  lemma SharedVertexOverlaps(tri1: seq<Vec2>, tri2: seq<Vec2>, i: nat, j: nat)
    requires |tri1| == 3 && |tri2| == 3 && i < 3 && j < 3 && tri1[i] == tri2[j]
    ensures TrianglesOverlap(tri1, tri2)
  {
    forall axis | axis in TriangleAxes(tri1) + TriangleAxes(tri2)
      ensures !SeparatingAxis(tri1, tri2, axis)
    {
      var d1, d2 := Dots(tri1, axis), Dots(tri2, axis);
      assert d1[i] in d1 && d2[j] in d2 && d1[i] == d2[j];
    }
  }

  /** Two triangles that meet only at the origin, one in each opposite quadrant, intersect. */
  lemma CornerTouchIntersects()
    ensures TrianglesOverlap([Vec2(0.0, 0.0), Vec2(1.0, 0.0), Vec2(0.0, 1.0)],
                             [Vec2(0.0, 0.0), Vec2(-1.0, 0.0), Vec2(0.0, -1.0)])
  {
    SharedVertexOverlaps([Vec2(0.0, 0.0), Vec2(1.0, 0.0), Vec2(0.0, 1.0)],
                         [Vec2(0.0, 0.0), Vec2(-1.0, 0.0), Vec2(0.0, -1.0)], 0, 0);
  }

  /** The SAT answer does not depend on which triangle comes first. */
  lemma TrianglesOverlapSymmetric(tri1: seq<Vec2>, tri2: seq<Vec2>)
    requires |tri1| == 3 && |tri2| == 3
    ensures TrianglesOverlap(tri1, tri2) == TrianglesOverlap(tri2, tri1)
  {
    var a1, a2 := TriangleAxes(tri1), TriangleAxes(tri2);
    forall axis | axis in a1 + a2
      ensures axis in a2 + a1
      ensures SeparatingAxis(tri1, tri2, axis) == SeparatingAxis(tri2, tri1, axis)
    {
    }
    forall axis | axis in a2 + a1
      ensures axis in a1 + a2
    {
    }
  }

  // ---------------------------------------------------------------------
  // The shared body and the screen wrap

  /** One coordinate of `wrap_screen` on an axis of length `size`. */
  function WrapCoord(v: real, r: real, size: real): real
  {
    if v < -r then size + r
    else if v > size + r then -r
    else v
  }

  function Wrapped(p: Vec2, r: real): Vec2
  {
    Vec2(WrapCoord(p.x, r, ScreenWidth), WrapCoord(p.y, r, ScreenHeight))
  }

  /** The arena with its margin of one radius on every side. */
  predicate InArena(p: Vec2, r: real)
  {
    -r <= p.x <= ScreenWidth + r && -r <= p.y <= ScreenHeight + r
  }

  /** After a wrap the body is inside the arena and its margin. */
  lemma WrapLandsInArena(p: Vec2, r: real)
    requires 0.0 <= r
    ensures InArena(Wrapped(p, r), r)
  {
  }

  /** A body already inside the arena and its margin is not moved. */
  lemma WrapFixesArena(p: Vec2, r: real)
    requires 0.0 <= r
    ensures InArena(p, r) <==> Wrapped(p, r) == p
  {
  }

  lemma WrapIdempotent(p: Vec2, r: real)
    requires 0.0 <= r
    ensures Wrapped(Wrapped(p, r), r) == Wrapped(p, r)
  {
    WrapLandsInArena(p, r);
    WrapFixesArena(Wrapped(p, r), r);
  }

  /**
   * Leaving past the right margin puts the body exactly on the left margin:
   * how far it overshot is not carried over.
   */
  lemma WrapDropsOvershoot(y: real, r: real, overshoot: real)
    requires 0.0 < overshoot && -r <= y <= ScreenHeight + r
    ensures Wrapped(Vec2(ScreenWidth + r + overshoot, y), r) == Vec2(-r, y)
  {
  }

  /** `CircleShape`: the state every moving entity shares. */
  class CircleShape {
    var position: Vec2
    var velocity: Vec2
    const radius: real

    constructor (x: real, y: real, radius: real)
      ensures position == Vec2(x, y) && velocity == Zero && this.radius == radius
    {
      position := Vec2(x, y);
      velocity := Zero;
      this.radius := radius;
    }

    /** `collides_with`: circle against circle. */
    predicate CollidesWith(other: CircleShape)
      reads this, other
    {
      CirclesCollide(position, radius, other.position, other.radius)
    }

    /** `collides_with_polygon`: centre inside, else some edge within the radius. */
    method CollidesWithPolygon(vertices: seq<Vec2>) returns (hit: bool)
      ensures hit == PolygonHitsCircle(vertices, position, radius)
    {
      var inside := PointInPolygon(position, vertices);
      if inside {
        return true;
      }
      var n := |vertices|;
      for i := 0 to n
        invariant forall k :: 0 <= k < i ==> !EdgeTouchesCircle(vertices, k, position, radius)
      {
        var p1 := vertices[i];
        var p2 := vertices[(i + 1) % n];
        var closest := ClosestPointOnSegment(position, p1, p2);
        if WithinDistance(position, closest, radius) {
          assert EdgeTouchesCircle(vertices, i, position, radius);
          return true;
        }
      }
      return false;
    }

    /** `wrap_screen`: each axis independently, at most one jump per axis. */
    method WrapScreen()
      modifies this`position
      ensures position == Wrapped(old(position), radius)
    {
      if position.x < -radius {
        position := position.(x := ScreenWidth + radius);
      } else if position.x > ScreenWidth + radius {
        position := position.(x := -radius);
      }
      if position.y < -radius {
        position := position.(y := ScreenHeight + radius);
      } else if position.y > ScreenHeight + radius {
        position := position.(y := -radius);
      }
    }
  }

  lemma CollidesWithSymmetric(a: CircleShape, b: CircleShape)
    ensures a.CollidesWith(b) == b.CollidesWith(a)
  {
    CirclesCollideSymmetric(a.position, a.radius, b.position, b.radius);
  }

  /** The method and the free function duplicate one test and agree on every input. */
  method CircleTestsAgree(vertices: seq<Vec2>, center: Vec2, radius: real) returns (viaShape: bool, viaFunction: bool)
    ensures viaShape == viaFunction
  {
    var shape := new CircleShape(center.x, center.y, radius);
    viaShape := shape.CollidesWithPolygon(vertices);
    viaFunction := PolygonCollidesCircle(vertices, center, radius);
  }
}
