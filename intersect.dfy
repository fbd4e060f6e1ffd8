/** Bounding-volume intersection predicates. Each returns a classification:
    IIntersect (0), IReject (1) or, for tests against a plane, -IReject (-1)
    when the volume lies entirely on the plane's negative side. */
module Intersect {
  import opened Geometry
  import opened Lines

  const IIntersect: int := 0
  const IReject: int := 1

  /** The three classifications a predicate can return. */
  predicate IsVerdict(r: int) {
    r == IIntersect || r == IReject || r == -IReject
  }

  // ---------------------------------------------------------------------
  // Box against box

  /** Box/box test AS WRITTEN: the second x-axis comparison tests B's minimum
      x against A's maximum **y** (a typo for A's maximum x). Kept to record
      the defect; `BBoxBBoxIntersectIntended` is the evident intent. */
  function BBoxBBoxIntersect(a: BBox, b: BBox): (r: int)
    ensures r == IIntersect || r == IReject
  {
    if (a.min.x > b.max.x || b.min.x > a.max.y) ||
       (a.min.y > b.max.y || b.min.y > a.max.y) ||
       (a.min.z > b.max.z || b.min.z > a.max.z)
    then IReject
    else IIntersect
  }

  /** Box/box test with the x-axis typo corrected: reject when the extents
      fail to overlap on some axis. */
  function BBoxBBoxIntersectIntended(a: BBox, b: BBox): (r: int)
    ensures r == IIntersect || r == IReject
  {
    if (a.min.x > b.max.x || b.min.x > a.max.x) ||
       (a.min.y > b.max.y || b.min.y > a.max.y) ||
       (a.min.z > b.max.z || b.min.z > a.max.z)
    then IReject
    else IIntersect
  }

  /** The corrected test does not depend on the order of its arguments. */
  lemma BBoxBBoxIntendedSymmetric(a: BBox, b: BBox)
    ensures BBoxBBoxIntersectIntended(a, b) == BBoxBBoxIntersectIntended(b, a)
  {
  }

  /** The corrected test is exact: two well-formed boxes are reported as
      intersecting exactly when they share a point. */
  lemma BBoxBBoxIntendedOverlap(a: BBox, b: BBox)
    requires WellFormed(a) && WellFormed(b)
    ensures BBoxBBoxIntersectIntended(a, b) == IIntersect <==> exists p :: InBox(a, p) && InBox(b, p)
  {
    if BBoxBBoxIntersectIntended(a, b) == IIntersect {
      var p := Vector3(Max(a.min.x, b.min.x), Max(a.min.y, b.min.y), Max(a.min.z, b.min.z));
      assert InBox(a, p) && InBox(b, p);
    }
  }

  function Max(x: real, y: real): real {
    if x < y then y else x
  }

  /** The typo makes the as-written test wrong and asymmetric: A = [0,1]x[0,5]x[0,1]
      and B = [2,3]x[0,1]x[0,1] share no point, yet (A, B) is reported as
      intersecting while (B, A) is rejected. */
  lemma BBoxBBoxTypoCounterexample()
    ensures var A := BBox(Vector3(0.0, 0.0, 0.0), Vector3(1.0, 5.0, 1.0));
            var B := BBox(Vector3(2.0, 0.0, 0.0), Vector3(3.0, 1.0, 1.0));
            && BBoxBBoxIntersect(A, B) == IIntersect
            && BBoxBBoxIntersect(B, A) == IReject
            && BBoxBBoxIntersectIntended(A, B) == IReject
            && !exists p :: InBox(A, p) && InBox(B, p)
  {
  }

  // ---------------------------------------------------------------------
  // Box against plane

  /** Along one axis with normal component n, the extreme of [lo, hi] at
      which n times the coordinate is smallest ... */
  function NearCoord(n: real, lo: real, hi: real): real {
    if n < 0.0 then hi else lo
  }

  /** ... and the one at which it is largest. */
  function FarCoord(n: real, lo: real, hi: real): real {
    if n < 0.0 then lo else hi
  }

  /** The corner `uno`: per axis the box extreme at which n.P is smallest. */
  function NearCorner(b: BBox, n: Vector3): Vector3 {
    Vector3(NearCoord(n.x, b.min.x, b.max.x), NearCoord(n.y, b.min.y, b.max.y), NearCoord(n.z, b.min.z, b.max.z))
  }

  /** The corner `dos`: per axis the box extreme at which n.P is largest. */
  function FarCorner(b: BBox, n: Vector3): Vector3 {
    Vector3(FarCoord(n.x, b.min.x, b.max.x), FarCoord(n.y, b.min.y, b.max.y), FarCoord(n.z, b.min.z, b.max.z))
  }

  /** P is one of the eight corners of the box. */
  predicate IsCorner(b: BBox, p: Vector3) {
    (p.x == b.min.x || p.x == b.max.x) &&
    (p.y == b.min.y || p.y == b.max.y) &&
    (p.z == b.min.z || p.z == b.max.z)
  }

  /** Box/plane test: classify the two extreme corners; if either is on the
      plane or they are on different sides the box straddles the plane,
      otherwise it lies entirely on their common side. */
  function BBoxPlaneIntersect(b: BBox, pl: Plane): (r: int)
    ensures IsVerdict(r)
  {
    var uno := NearCorner(b, pl.n);
    var dos := FarCorner(b, pl.n);
    if WhichSide(pl, uno) == 0 || WhichSide(pl, dos) == 0 || WhichSide(pl, uno) != WhichSide(pl, dos) then
      IIntersect
    else if WhichSide(pl, uno) > 0 then
      IReject
    else
      -IReject
  }

  lemma AxisExtreme(n: real, lo: real, hi: real, p: real) returns (near: real, at: real, far: real)
    requires lo <= p <= hi
    ensures near == n * NearCoord(n, lo, hi) && at == n * p && far == n * FarCoord(n, lo, hi)
    ensures near <= at <= far
  {
    near, at, far := n * NearCoord(n, lo, hi), n * p, n * FarCoord(n, lo, hi);
    if n < 0.0 {
      assert n * (hi - p) <= 0.0 && n * (p - lo) <= 0.0;
    } else {
      assert n * (p - lo) >= 0.0 && n * (hi - p) >= 0.0;
    }
  }

  /** `uno` and `dos` are corners of the box, and they minimise and maximise
      n.P over every point of a well-formed box (so over its 8 corners). */
  lemma ExtremeCorners(b: BBox, n: Vector3)
    requires WellFormed(b)
    ensures IsCorner(b, NearCorner(b, n)) && InBox(b, NearCorner(b, n))
    ensures IsCorner(b, FarCorner(b, n)) && InBox(b, FarCorner(b, n))
    ensures forall p :: InBox(b, p) ==> Dot(n, NearCorner(b, n)) <= Dot(n, p) <= Dot(n, FarCorner(b, n))
  {
    CornersInBox(b, n);
    forall p | InBox(b, p)
      ensures Dot(n, NearCorner(b, n)) <= Dot(n, p) <= Dot(n, FarCorner(b, n))
    {
      ExtremeCornersAt(b, n, p);
    }
  }

  lemma CornersInBox(b: BBox, n: Vector3)
    requires WellFormed(b)
    ensures IsCorner(b, NearCorner(b, n)) && InBox(b, NearCorner(b, n))
    ensures IsCorner(b, FarCorner(b, n)) && InBox(b, FarCorner(b, n))
  {
  }

  lemma ExtremeCornersAt(b: BBox, n: Vector3, p: Vector3)
    requires InBox(b, p)
    ensures Dot(n, NearCorner(b, n)) <= Dot(n, p) <= Dot(n, FarCorner(b, n))
  {
    var lo, hi := NearCorner(b, n), FarCorner(b, n);
    ExtremeSum(n.x, n.y, n.z, b.min.x, b.min.y, b.min.z, b.max.x, b.max.y, b.max.z, p.x, p.y, p.z);
    assert lo == Vector3(NearCoord(n.x, b.min.x, b.max.x), NearCoord(n.y, b.min.y, b.max.y), NearCoord(n.z, b.min.z, b.max.z));
    assert hi == Vector3(FarCoord(n.x, b.min.x, b.max.x), FarCoord(n.y, b.min.y, b.max.y), FarCoord(n.z, b.min.z, b.max.z));
    assert Dot(n, lo) == n.x * lo.x + n.y * lo.y + n.z * lo.z;
    assert Dot(n, hi) == n.x * hi.x + n.y * hi.y + n.z * hi.z;
  }

  /** Over plain reals: summing the per-axis bounds of `AxisExtreme`. */
  lemma ExtremeSum(nx: real, ny: real, nz: real, lx: real, ly: real, lz: real,
                   hx: real, hy: real, hz: real, px: real, py: real, pz: real)
    requires lx <= px <= hx && ly <= py <= hy && lz <= pz <= hz
    ensures nx * NearCoord(nx, lx, hx) + ny * NearCoord(ny, ly, hy) + nz * NearCoord(nz, lz, hz)
            <= nx * px + ny * py + nz * pz
            <= nx * FarCoord(nx, lx, hx) + ny * FarCoord(ny, ly, hy) + nz * FarCoord(nz, lz, hz)
  {
    var ax, bx, cx := AxisExtreme(nx, lx, hx, px);
    var ay, bY, cy := AxisExtreme(ny, ly, hy, py);
    var az, bz, cz := AxisExtreme(nz, lz, hz, pz);
    SumOrdered(ax, ay, az, bx, bY, bz);
    SumOrdered(bx, bY, bz, cx, cy, cz);
  }

  lemma SumOrdered(a1: real, a2: real, a3: real, b1: real, b2: real, b3: real)
    requires a1 <= b1 && a2 <= b2 && a3 <= b3
    ensures a1 + a2 + a3 <= b1 + b2 + b3
  {
  }

  /** +IReject exactly when every corner is strictly on the positive side,
      and then every point of the box is. */
  lemma BBoxPlanePositive(b: BBox, pl: Plane)
    requires WellFormed(b)
    ensures BBoxPlaneIntersect(b, pl) == IReject <==> forall p :: IsCorner(b, p) ==> SignedValue(pl, p) > 0.0
    ensures BBoxPlaneIntersect(b, pl) == IReject ==> forall p :: InBox(b, p) ==> SignedValue(pl, p) > 0.0
  {
    ExtremeCorners(b, pl.n);
  }

  /** -IReject exactly when every corner is strictly on the negative side,
      and then every point of the box is. */
  lemma BBoxPlaneNegative(b: BBox, pl: Plane)
    requires WellFormed(b)
    ensures BBoxPlaneIntersect(b, pl) == -IReject <==> forall p :: IsCorner(b, p) ==> SignedValue(pl, p) < 0.0
    ensures BBoxPlaneIntersect(b, pl) == -IReject ==> forall p :: InBox(b, p) ==> SignedValue(pl, p) < 0.0
  {
    ExtremeCorners(b, pl.n);
  }

  /** The plane equation is affine along a segment. */
  lemma SignedValueAffine(pl: Plane, a: Vector3, c: Vector3, t: real)
    ensures SignedValue(pl, Add(a, Scale(t, Sub(c, a))))
         == SignedValue(pl, a) + t * (SignedValue(pl, c) - SignedValue(pl, a))
  {
  }

  /** IIntersect exactly when the plane really meets the box: some point of
      the well-formed box lies on the plane. */
  lemma BBoxPlaneStraddles(b: BBox, pl: Plane)
    requires WellFormed(b)
    ensures BBoxPlaneIntersect(b, pl) == IIntersect <==> exists p :: InBox(b, p) && SignedValue(pl, p) == 0.0
  {
    ExtremeCorners(b, pl.n);
    var lo, hi := NearCorner(b, pl.n), FarCorner(b, pl.n);
    assert SignedValue(pl, lo) <= SignedValue(pl, hi);
    if BBoxPlaneIntersect(b, pl) == IIntersect {
      var p := PointOnPlane(b, pl);
      assert InBox(b, p) && SignedValue(pl, p) == 0.0;
    } else {
      forall p | InBox(b, p) ensures SignedValue(pl, p) != 0.0 {
        assert SignedValue(pl, lo) <= SignedValue(pl, p) <= SignedValue(pl, hi);
      }
    }
  }

  /** When the extreme corners are not strictly on one side, the point of
      the segment between them where the plane equation vanishes. */
  lemma PointOnPlane(b: BBox, pl: Plane) returns (p: Vector3)
    requires WellFormed(b) && BBoxPlaneIntersect(b, pl) == IIntersect
    ensures InBox(b, p) && SignedValue(pl, p) == 0.0
  {
    var lo, hi := NearCorner(b, pl.n), FarCorner(b, pl.n);
    CornersInBox(b, pl.n);
    ExtremeCornersAt(b, pl.n, lo);
    var vlo, vhi := SignedValue(pl, lo), SignedValue(pl, hi);
    assert vlo <= vhi;
    assert vlo <= 0.0 <= vhi;
    if vlo == vhi {
      p := lo;
    } else {
      var t := ZeroCrossing(vlo, vhi);
      p := SegmentPoint(b, lo, hi, t);
      SignedValueAffine(pl, lo, hi, t);
    }
  }

  /** The point at parameter t in [0, 1] between two points of a box. */
  lemma SegmentPoint(b: BBox, a: Vector3, c: Vector3, t: real) returns (p: Vector3)
    requires InBox(b, a) && InBox(b, c) && 0.0 <= t <= 1.0
    ensures p == Add(a, Scale(t, Sub(c, a))) && InBox(b, p)
  {
    p := Add(a, Scale(t, Sub(c, a)));
    BetweenInRange(b.min.x, b.max.x, a.x, c.x, t);
    BetweenInRange(b.min.y, b.max.y, a.y, c.y, t);
    BetweenInRange(b.min.z, b.max.z, a.z, c.z, t);
  }

  /** The parameter in [0, 1] where a linear function with values vlo <= 0
      and vhi >= 0 at the ends (vlo != vhi) vanishes. */
  lemma ZeroCrossing(vlo: real, vhi: real) returns (t: real)
    requires vlo <= 0.0 <= vhi && vlo != vhi
    ensures 0.0 <= t <= 1.0 && vlo + t * (vhi - vlo) == 0.0
  {
    var w := vhi - vlo;
    assert w > 0.0;
    t := -vlo / w;
    assert t * w == -vlo;
    assert t <= 1.0 by {
      if t > 1.0 {
        MulLeft(w, 1.0, t);
      }
    }
  }

  /** Multiplying by a non-negative factor keeps an ordering. */
  lemma MulLeft(k: real, x: real, y: real)
    requires k >= 0.0 && x <= y
    ensures k * x <= k * y
  {
    assert k * y - k * x == k * (y - x);
  }

  /** A point between two values of [lo, hi] stays in [lo, hi]. */
  lemma BetweenInRange(lo: real, hi: real, a: real, c: real, t: real)
    requires lo <= a <= hi && lo <= c <= hi && 0.0 <= t <= 1.0
    ensures lo <= a + t * (c - a) <= hi
  {
    var e := a + t * (c - a);
    MulNonNegative(1.0 - t, a - lo);
    MulNonNegative(t, c - lo);
    MulNonNegative(1.0 - t, hi - a);
    MulNonNegative(t, hi - c);
    assert e - lo == (1.0 - t) * (a - lo) + t * (c - lo);
    assert hi - e == (1.0 - t) * (hi - a) + t * (hi - c);
  }

  // ---------------------------------------------------------------------
  // Sphere against sphere

  /** Sphere/sphere test: the squared distance between centres against the
      square of the sum of the radii, boundary inclusive. */
  function BSphereBSphereIntersect(a: BSphere, b: BSphere): (r: int)
    ensures r == IIntersect || r == IReject
  {
    var dist := Sub(a.centre, b.centre);
    if LengthSquare(dist) <= (a.radius + b.radius) * (a.radius + b.radius) then IIntersect else IReject
  }

  lemma SubAntisymmetricLength(p: Vector3, q: Vector3)
    ensures LengthSquare(Sub(p, q)) == LengthSquare(Sub(q, p))
  {
    assert Sub(q, p) == Scale(-1.0, Sub(p, q));
    ScaleLength(-1.0, Sub(p, q));
  }

  lemma ScaleLength(k: real, v: Vector3)
    ensures LengthSquare(Scale(k, v)) == k * k * LengthSquare(v)
  {
  }

  /** The sphere test does not depend on the order of its arguments. */
  lemma BSphereBSphereSymmetric(a: BSphere, b: BSphere)
    ensures BSphereBSphereIntersect(a, b) == BSphereBSphereIntersect(b, a)
  {
    SubAntisymmetricLength(a.centre, b.centre);
  }

  /** Spheres whose centres are exactly the sum of the radii apart touch and
      are reported as intersecting. */
  lemma BSphereBSphereTouching(a: BSphere, b: BSphere)
    requires LengthSquare(Sub(a.centre, b.centre)) == (a.radius + b.radius) * (a.radius + b.radius)
    ensures BSphereBSphereIntersect(a, b) == IIntersect
  {
  }

  /** Two spheres of non-negative radius are reported as intersecting exactly
      when their closed balls share a point. */
  lemma BSphereBSphereOverlap(a: BSphere, b: BSphere)
    requires a.radius >= 0.0 && b.radius >= 0.0
    ensures BSphereBSphereIntersect(a, b) == IIntersect <==> exists p :: InBall(a, p) && InBall(b, p)
  {
    if BSphereBSphereIntersect(a, b) == IIntersect {
      var p := CommonPoint(a, b);
      assert InBall(a, p) && InBall(b, p);
    }
    if exists p :: InBall(a, p) && InBall(b, p) {
      var p :| InBall(a, p) && InBall(b, p);
      SharedPointBound(a, b, p);
    }
  }

  /** When the squared test passes, the point dividing the segment between
      the centres in the ratio ra : rb lies in both balls. */
  lemma CommonPoint(a: BSphere, b: BSphere) returns (p: Vector3)
    requires a.radius >= 0.0 && b.radius >= 0.0
    requires BSphereBSphereIntersect(a, b) == IIntersect
    ensures InBall(a, p) && InBall(b, p)
  {
    var w := Sub(b.centre, a.centre);
    assert LengthSquare(w) <= (a.radius + b.radius) * (a.radius + b.radius) by {
      SubAntisymmetricLength(a.centre, b.centre);
    }
    if a.radius + b.radius == 0.0 {
      p := a.centre;
      SameCentre(a, b);
    } else {
      var k := RatioBound(a.radius, b.radius, LengthSquare(w));
      p := RatioPoint(a, b, k);
    }
  }

  /** Two zero-radius spheres that pass the test share the first centre. */
  lemma SameCentre(a: BSphere, b: BSphere)
    requires a.radius == 0.0 && b.radius == 0.0
    requires LengthSquare(Sub(b.centre, a.centre)) <= (a.radius + b.radius) * (a.radius + b.radius)
    ensures InBall(a, a.centre) && InBall(b, a.centre)
  {
    SubAntisymmetricLength(a.centre, b.centre);
    assert Sub(a.centre, a.centre) == Zero;
  }

  /** The point a + k (b - a) is in both balls given the bounds of `RatioBound`. */
  lemma RatioPoint(a: BSphere, b: BSphere, k: real) returns (p: Vector3)
    requires k * k * LengthSquare(Sub(b.centre, a.centre)) <= a.radius * a.radius
    requires (k - 1.0) * (k - 1.0) * LengthSquare(Sub(b.centre, a.centre)) <= b.radius * b.radius
    ensures InBall(a, p) && InBall(b, p)
  {
    var w := Sub(b.centre, a.centre);
    p := Add(a.centre, Scale(k, w));
    InBallScaled(a, p, w, k);
    InBallScaled(b, p, w, k - 1.0);
  }

  /** A point k v away from the centre is in the ball when k^2 |v|^2 <= r^2. */
  lemma InBallScaled(s: BSphere, p: Vector3, v: Vector3, k: real)
    requires Sub(p, s.centre) == Scale(k, v)
    requires k * k * LengthSquare(v) <= s.radius * s.radius
    ensures InBall(s, p)
  {
    ScaleLength(k, v);
  }

  /** Over plain reals: the ratio k = ra / (ra + rb) scales a squared
      distance of at most (ra + rb)^2 to at most ra^2, and k - 1 to rb^2. */
  lemma RatioBound(ra: real, rb: real, L: real) returns (k: real)
    requires ra >= 0.0 && rb >= 0.0 && ra + rb > 0.0 && L <= (ra + rb) * (ra + rb)
    ensures k * k * L <= ra * ra && (k - 1.0) * (k - 1.0) * L <= rb * rb
  {
    var S := ra + rb;
    k := ra / S;
    assert k * S == ra;
    ScaledSquareBound(k, S, L, ra);
    assert (k - 1.0) * S == -rb;
    ScaledSquareBound(k - 1.0, S, L, -rb);
  }

  lemma ScaledSquareBound(k: real, S: real, L: real, r: real)
    requires L <= S * S && k * S == r
    ensures k * k * L <= r * r
  {
    SquareNonNegative(k);
    MulLeft(k * k, L, S * S);
    assert k * k * (S * S) == (k * S) * (k * S);
  }

  /** A point shared by both balls bounds the distance between the centres
      by the sum of the radii (triangle inequality, squared). */
  lemma SharedPointBound(a: BSphere, b: BSphere, p: Vector3)
    requires a.radius >= 0.0 && b.radius >= 0.0
    requires InBall(a, p) && InBall(b, p)
    ensures BSphereBSphereIntersect(a, b) == IIntersect
  {
    var u := Sub(p, a.centre);
    var w := Sub(b.centre, p);
    var ra, rb := a.radius, b.radius;
    SubAntisymmetricLength(b.centre, p);
    assert LengthSquare(u) <= ra * ra && LengthSquare(w) <= rb * rb;
    assert Sub(b.centre, a.centre) == Add(u, w);
    assert LengthSquare(Add(u, w)) == LengthSquare(u) + 2.0 * Dot(u, w) + LengthSquare(w);
    DotBound(u, w, ra, rb);
    assert LengthSquare(Add(u, w)) <= (ra + rb) * (ra + rb);
    SubAntisymmetricLength(a.centre, b.centre);
  }

  /** u.w <= ra rb when |u| <= ra and |w| <= rb (Cauchy-Schwarz). */
  lemma DotBound(u: Vector3, w: Vector3, ra: real, rb: real)
    requires ra >= 0.0 && rb >= 0.0
    requires LengthSquare(u) <= ra * ra && LengthSquare(w) <= rb * rb
    ensures Dot(u, w) <= ra * rb
  {
    var k := Dot(u, w);
    if k > 0.0 {
      CauchySchwarz(u, w);
      LengthSquareNonNegative(u);
      LengthSquareNonNegative(w);
      ProductBound(LengthSquare(u), ra * ra, LengthSquare(w), rb * rb);
      assert (ra * ra) * (rb * rb) == (ra * rb) * (ra * rb);
      SquareMonotonic(k, ra * rb);
    }
  }

  lemma ProductBound(x: real, X: real, y: real, Y: real)
    requires 0.0 <= x <= X && 0.0 <= y <= Y
    ensures x * y <= X * Y
  {
    assert x * y <= X * y;
    assert X * y <= X * Y;
  }

  // ---------------------------------------------------------------------
  // Sphere against plane

  /** Sphere/plane test: the plane's distance to the centre against the
      radius; beyond it, the side of the centre decides the sign. The plane
      class's `distance` is not part of this model and is a parameter. */
  function BSpherePlaneIntersect(s: BSphere, pl: Plane, distance: (Plane, Vector3) -> real): (r: int)
    ensures IsVerdict(r)
    ensures r == IIntersect <==> distance(pl, s.centre) <= s.radius
    ensures r == IReject <==> distance(pl, s.centre) > s.radius && SignedValue(pl, s.centre) > 0.0
    ensures r == -IReject <==> distance(pl, s.centre) > s.radius && SignedValue(pl, s.centre) <= 0.0
  {
    var dist := distance(pl, s.centre);
    if dist > s.radius then
      if WhichSide(pl, s.centre) > 0 then IReject else -IReject
    else
      IIntersect
  }

  /** `distance` gives the metric distance from p to the plane:
      non-negative, and |n| times it is |n.p - d|. */
  predicate MetricAt(distance: (Plane, Vector3) -> real, pl: Plane, p: Vector3) {
    var dist := distance(pl, p);
    dist >= 0.0 && dist * dist * LengthSquare(pl.n) == SignedValue(pl, p) * SignedValue(pl, p)
  }

  /** With a metric distance, the sphere test is exactly the squared
      comparison (n.c - d)^2 <= r^2 |n|^2, which needs no square root. */
  lemma BSpherePlaneExact(s: BSphere, pl: Plane, distance: (Plane, Vector3) -> real)
    requires s.radius >= 0.0 && LengthSquare(pl.n) > 0.0 && MetricAt(distance, pl, s.centre)
    ensures BSpherePlaneIntersect(s, pl, distance) == IIntersect
        <==> SignedValue(pl, s.centre) * SignedValue(pl, s.centre) <= s.radius * s.radius * LengthSquare(pl.n)
  {
    var dist, r, nn := distance(pl, s.centre), s.radius, LengthSquare(pl.n);
    SquareMonotonic(dist, r);
    if dist * dist <= r * r {
      assert dist * dist * nn <= r * r * nn;
    } else {
      assert dist * dist * nn > r * r * nn;
    }
  }

  /** With a metric distance, a rejected sphere lies strictly on one side:
      every point of the ball is on the positive side for +IReject and on
      the negative side for -IReject. */
  lemma BSpherePlaneRejectSide(s: BSphere, pl: Plane, distance: (Plane, Vector3) -> real)
    requires s.radius >= 0.0 && LengthSquare(pl.n) > 0.0 && MetricAt(distance, pl, s.centre)
    ensures BSpherePlaneIntersect(s, pl, distance) == IReject ==> forall p :: InBall(s, p) ==> SignedValue(pl, p) > 0.0
    ensures BSpherePlaneIntersect(s, pl, distance) == -IReject ==> forall p :: InBall(s, p) ==> SignedValue(pl, p) < 0.0
  {
    var r := BSpherePlaneIntersect(s, pl, distance);
    if r != IIntersect {
      forall p | InBall(s, p)
        ensures r == IReject ==> SignedValue(pl, p) > 0.0
        ensures r == -IReject ==> SignedValue(pl, p) < 0.0
      {
        BallStaysOnSide(s, pl, distance, p);
      }
    }
  }

  lemma BallStaysOnSide(s: BSphere, pl: Plane, distance: (Plane, Vector3) -> real, p: Vector3)
    requires s.radius >= 0.0 && LengthSquare(pl.n) > 0.0 && MetricAt(distance, pl, s.centre)
    requires distance(pl, s.centre) > s.radius && InBall(s, p)
    ensures SignedValue(pl, s.centre) > 0.0 ==> SignedValue(pl, p) > 0.0
    ensures SignedValue(pl, s.centre) <= 0.0 ==> SignedValue(pl, p) < 0.0
  {
    var c, n := s.centre, pl.n;
    var dist, r, nn := distance(pl, c), s.radius, LengthSquare(n);
    var sv := SignedValue(pl, c);
    var k := Dot(n, Sub(p, c));
    assert SignedValue(pl, p) == sv + k;
    // k^2 <= |n|^2 |p - c|^2 <= |n|^2 r^2 < |n|^2 dist^2 = sv^2
    CauchySchwarz(n, Sub(p, c));
    LengthSquareNonNegative(Sub(p, c));
    assert k * k <= nn * LengthSquare(Sub(p, c)) <= nn * (r * r);
    SquareMonotonic(dist, r);
    assert r * r < dist * dist;
    assert nn * (r * r) < nn * (dist * dist);
    assert k * k < sv * sv;
    if sv > 0.0 {
      AbsBelow(k, sv);
    } else {
      AbsBelow(k, -sv);
    }
  }

  lemma AbsBelow(k: real, m: real)
    requires m >= 0.0 && k * k < m * m
    ensures -m < k < m
  {
    var a := Abs(k);
    assert a * a == k * k;
    SquareMonotonic(m, a);
  }

  /** With a unit normal and a metric distance, the sphere test compares
      |n.c - d| with the radius. */
  lemma BSpherePlaneUnitNormal(s: BSphere, pl: Plane, distance: (Plane, Vector3) -> real)
    requires LengthSquare(pl.n) == 1.0 && MetricAt(distance, pl, s.centre)
    ensures BSpherePlaneIntersect(s, pl, distance) == IIntersect <==> Abs(SignedValue(pl, s.centre)) <= s.radius
  {
    UnitNormalDistance(distance(pl, s.centre), SignedValue(pl, s.centre));
  }

  /** With |n| = 1 a metric distance is |n.p - d|. */
  lemma UnitNormalDistance(dist: real, sv: real)
    requires dist >= 0.0 && dist * dist * 1.0 == sv * sv
    ensures dist == Abs(sv)
  {
    var a := Abs(sv);
    assert a * a == sv * sv;
    SquareMonotonic(dist, a);
    SquareMonotonic(a, dist);
  }


  // ---------------------------------------------------------------------
  // Sphere against box

  /** Squared distance from c to the interval [lo, hi] along one axis. */
  function AxisGap(c: real, lo: real, hi: real): real {
    if c < lo then (c - lo) * (c - lo)
    else if c > hi then (c - hi) * (c - hi)
    else 0.0
  }

  /** Sphere/box test. The source's first branch, meant as "the centre lies
      in the box", is written with both inequalities inverted (min >= c and
      max <= c); it is kept as written. Otherwise the squared gaps between the
      centre and the box along each axis are summed and compared with r^2.
      Two names in that part of the source do not compile (`m_c` for the
      centre, `box->m_radius` for the sphere's radius); their evident
      meaning is modelled. */
  function BSphereBBoxIntersect(s: BSphere, b: BBox): (r: int)
    ensures r == IIntersect || r == IReject
  {
    var c := s.centre;
    if b.min.x >= c.x && b.max.x <= c.x &&
       b.min.y >= c.y && b.max.y <= c.y &&
       b.min.z >= c.z && b.max.z <= c.z then
      IIntersect
    else if AxisGap(c.x, b.min.x, b.max.x) + AxisGap(c.y, b.min.y, b.max.y) + AxisGap(c.z, b.min.z, b.max.z)
            <= s.radius * s.radius then
      IIntersect
    else
      IReject
  }

  function Clamp(c: real, lo: real, hi: real): real {
    if c < lo then lo else if c > hi then hi else c
  }

  /** The point of the box nearest to p. */
  function ClosestPoint(b: BBox, p: Vector3): Vector3 {
    Vector3(Clamp(p.x, b.min.x, b.max.x), Clamp(p.y, b.min.y, b.max.y), Clamp(p.z, b.min.z, b.max.z))
  }

  /** On a well-formed box the inverted containment test holds only for a
      box shrunk to the single point c. */
  lemma ContainmentBranchDegenerate(s: BSphere, b: BBox)
    requires WellFormed(b)
    requires b.min.x >= s.centre.x && b.max.x <= s.centre.x
    requires b.min.y >= s.centre.y && b.max.y <= s.centre.y
    requires b.min.z >= s.centre.z && b.max.z <= s.centre.z
    ensures b.min == b.max == s.centre
  {
  }

  lemma AxisGapClosest(c: real, lo: real, hi: real, q: real)
    requires lo <= hi && lo <= q <= hi
    ensures lo <= Clamp(c, lo, hi) <= hi
    ensures AxisGap(c, lo, hi) == (Clamp(c, lo, hi) - c) * (Clamp(c, lo, hi) - c)
    ensures AxisGap(c, lo, hi) <= (q - c) * (q - c)
  {
    if c < lo {
      assert q - c >= lo - c > 0.0;
      var g, h := lo - c, q - c;
      assert g * g <= g * h <= h * h;
    } else if c > hi {
      assert c - q >= c - hi > 0.0;
      var g, h := c - hi, c - q;
      assert g * g <= g * h <= h * h;
      assert (q - c) * (q - c) == h * h;
    } else {
      SquareNonNegative(q - c);
    }
  }

  /** On a well-formed box the test is exactly "the point of the box nearest
      to the centre is within the radius"; in particular the inverted
      containment branch never changes the result. */
  lemma BSphereBBoxClosestPoint(s: BSphere, b: BBox)
    requires WellFormed(b)
    ensures InBox(b, ClosestPoint(b, s.centre))
    ensures BSphereBBoxIntersect(s, b) == IIntersect
        <==> LengthSquare(Sub(ClosestPoint(b, s.centre), s.centre)) <= s.radius * s.radius
  {
    var c := s.centre;
    GapsAreClosestDistance(c, b);
    if b.min.x >= c.x && b.max.x <= c.x && b.min.y >= c.y && b.max.y <= c.y && b.min.z >= c.z && b.max.z <= c.z {
      ContainmentBranchDegenerate(s, b);
      assert AxisGap(c.x, b.min.x, b.max.x) == AxisGap(c.y, b.min.y, b.max.y) == AxisGap(c.z, b.min.z, b.max.z) == 0.0;
      SquareNonNegative(s.radius);
    }
  }

  /** The summed axis gaps are the squared distance from c to the point of
      the box nearest to it. */
  lemma GapsAreClosestDistance(c: Vector3, b: BBox)
    requires WellFormed(b)
    ensures InBox(b, ClosestPoint(b, c))
    ensures AxisGap(c.x, b.min.x, b.max.x) + AxisGap(c.y, b.min.y, b.max.y) + AxisGap(c.z, b.min.z, b.max.z)
            == LengthSquare(Sub(ClosestPoint(b, c), c))
  {
    AxisGapClosest(c.x, b.min.x, b.max.x, b.min.x);
    AxisGapClosest(c.y, b.min.y, b.max.y, b.min.y);
    AxisGapClosest(c.z, b.min.z, b.max.z, b.min.z);
  }

  /** A sphere and a well-formed box are reported as intersecting exactly
      when they share a point. */
  lemma BSphereBBoxOverlap(s: BSphere, b: BBox)
    requires WellFormed(b)
    ensures BSphereBBoxIntersect(s, b) == IIntersect <==> exists p :: InBox(b, p) && InBall(s, p)
  {
    if BSphereBBoxIntersect(s, b) == IIntersect {
      BSphereBBoxClosestPoint(s, b);
      var q := ClosestPoint(b, s.centre);
      assert InBox(b, q) && InBall(s, q);
    }
    if exists p :: InBox(b, p) && InBall(s, p) {
      var p :| InBox(b, p) && InBall(s, p);
      GapsBelowDistance(s.centre, b, p);
    }
  }

  /** The summed axis gaps never exceed the squared distance from c to a
      point of the box. */
  lemma GapsBelowDistance(c: Vector3, b: BBox, p: Vector3)
    requires InBox(b, p)
    ensures AxisGap(c.x, b.min.x, b.max.x) + AxisGap(c.y, b.min.y, b.max.y) + AxisGap(c.z, b.min.z, b.max.z)
            <= LengthSquare(Sub(p, c))
  {
    AxisGapClosest(c.x, b.min.x, b.max.x, p.x);
    AxisGapClosest(c.y, b.min.y, b.max.y, p.y);
    AxisGapClosest(c.z, b.min.z, b.max.z, p.z);
    SumOrdered(AxisGap(c.x, b.min.x, b.max.x), AxisGap(c.y, b.min.y, b.max.y), AxisGap(c.z, b.min.z, b.max.z),
               (p.x - c.x) * (p.x - c.x), (p.y - c.y) * (p.y - c.y), (p.z - c.z) * (p.z - c.z));
  }

  // ---------------------------------------------------------------------
  // Ray against triangle

  /** The classification and the contents of the `uvw` out-parameter after
      the call. */
  datatype TriangleHit = TriangleHit(code: int, uvw: Vector3)

  /** Möller-Trumbore ray/triangle test AS WRITTEN: rejects a (near) parallel
      ray and u or v outside [0, 1], but never checks u + v <= 1, so it
      accepts hits in the whole parallelogram spanned by the two edges.
      `uvw` is written only on a hit. */
  function IntersectTriangleRay(P0: Vector3, P1: Vector3, P2: Vector3, l: Line, uvw: Vector3): (h: TriangleHit)
    reads l
    ensures h.code == IIntersect || h.code == IReject
    ensures Abs(Dot(Sub(P1, P0), Cross(l.d, Sub(P2, P0)))) < DistanceEpsilon ==> h == TriangleHit(IReject, uvw)
    ensures h.code == IReject ==> h.uvw == uvw
    ensures h.code == IIntersect ==> 0.0 <= h.uvw.x <= 1.0 && 0.0 <= h.uvw.y <= 1.0
  {
    MollerTrumbore(Sub(P1, P0), Sub(P2, P0), l.d, Sub(l.O, P0), uvw)
  }

  /** The as-written test on the edges e1 = P1 - P0, e2 = P2 - P0, the ray
      direction d and s = O - P0. */
  function MollerTrumbore(e1: Vector3, e2: Vector3, d: Vector3, s: Vector3, uvw: Vector3): (h: TriangleHit)
    ensures h.code == IIntersect || h.code == IReject
    ensures Abs(Dot(e1, Cross(d, e2))) < DistanceEpsilon ==> h == TriangleHit(IReject, uvw)
    ensures h.code == IReject ==> h.uvw == uvw
    ensures h.code == IIntersect ==> 0.0 <= h.uvw.x <= 1.0 && 0.0 <= h.uvw.y <= 1.0
  {
    if Abs(Dot(e1, Cross(d, e2))) < DistanceEpsilon then TriangleHit(IReject, uvw)
    else
      var w := EdgeCoordinates(e1, e2, d, s);
      if w.x < 0.0 || w.x > 1.0 then TriangleHit(IReject, uvw)
      else if w.y < 0.0 || w.y > 1.0 then TriangleHit(IReject, uvw)
      else TriangleHit(IIntersect, w)
  }

  /** The ray/triangle test with the missing u + v <= 1 check added. */
  function IntersectTriangleRayChecked(P0: Vector3, P1: Vector3, P2: Vector3, l: Line, uvw: Vector3): (h: TriangleHit)
    reads l
    ensures h.code == IIntersect || h.code == IReject
    ensures Abs(Dot(Sub(P1, P0), Cross(l.d, Sub(P2, P0)))) < DistanceEpsilon ==> h == TriangleHit(IReject, uvw)
    ensures h.code == IReject ==> h.uvw == uvw
    ensures h.code == IIntersect ==> 0.0 <= h.uvw.x && 0.0 <= h.uvw.y && h.uvw.x + h.uvw.y <= 1.0
  {
    MollerTrumboreChecked(Sub(P1, P0), Sub(P2, P0), l.d, Sub(l.O, P0), uvw)
  }

  /** The corrected test on edges. */
  function MollerTrumboreChecked(e1: Vector3, e2: Vector3, d: Vector3, s: Vector3, uvw: Vector3): (h: TriangleHit)
    ensures h.code == IIntersect || h.code == IReject
    ensures Abs(Dot(e1, Cross(d, e2))) < DistanceEpsilon ==> h == TriangleHit(IReject, uvw)
    ensures h.code == IReject ==> h.uvw == uvw
    ensures h.code == IIntersect ==> 0.0 <= h.uvw.x && 0.0 <= h.uvw.y && h.uvw.x + h.uvw.y <= 1.0
  {
    if Abs(Dot(e1, Cross(d, e2))) < DistanceEpsilon then TriangleHit(IReject, uvw)
    else
      var w := EdgeCoordinates(e1, e2, d, s);
      if w.x < 0.0 || w.x > 1.0 then TriangleHit(IReject, uvw)
      else if w.y < 0.0 || w.x + w.y > 1.0 then TriangleHit(IReject, uvw)
      else TriangleHit(IIntersect, w)
  }

  /** Möller-Trumbore's (u, v, t) for the edges e1, e2, the direction d and
      s = O - P0: with p = d x e2, q = s x e1 and f = 1 / (e1.p) it is
      u = f (s.p), v = f (q.d), t = f (e2.q). It solves s = u e1 + v e2 - t d. */
  function EdgeCoordinates(e1: Vector3, e2: Vector3, d: Vector3, s: Vector3): (w: Vector3)
    requires Dot(e1, Cross(d, e2)) != 0.0
    ensures Solves(e1, e2, d, s, w.x, w.y, w.z)
  {
    MollerTrumboreSolves(e1, e2, d, s);
    ScaleByInverse(Dot(e1, Cross(d, e2)), Dot(s, Cross(d, e2)), Dot(Cross(s, e1), d), Dot(e2, Cross(s, e1)))
  }

  /** (f nu, f nv, f nt) with f = 1 / a, as the source computes u, v and t. */
  function ScaleByInverse(a: real, nu: real, nv: real, nt: real): Vector3
    requires a != 0.0
  {
    var f := 1.0 / a;
    Vector3(f * nu, f * nv, f * nt)
  }

  /** The point with edge coordinates (u, v) in the plane of the triangle. */
  function Barycentric(P0: Vector3, P1: Vector3, P2: Vector3, u: real, v: real): Vector3 {
    Add(P0, Add(Scale(u, Sub(P1, P0)), Scale(v, Sub(P2, P0))))
  }

  /** The line O + t d passes through the point with edge coordinates (u, v). */
  predicate LineMeets(P0: Vector3, P1: Vector3, P2: Vector3, O: Vector3, d: Vector3, u: real, v: real, t: real) {
    Add(O, Scale(t, d)) == Barycentric(P0, P1, P2, u, v)
  }

  // The algebra behind Möller-Trumbore. With p = d x e2, q = s x e1 and the
  // determinant a = e1.p, Cramer's rule gives a s = (s.p) e1 + (d.q) e2 - (e2.q) d.
  // The identities are proved coordinate by coordinate over plain reals.

  /** Cramer's rule, first coordinate. */
  lemma CramerFirst(e1x: real, e1y: real, e1z: real, e2x: real, e2y: real, e2z: real,
                    dx: real, dy: real, dz: real, sx: real, sy: real, sz: real)
    ensures var px, py, pz := dy * e2z - dz * e2y, dz * e2x - dx * e2z, dx * e2y - dy * e2x;
            var qx, qy, qz := sy * e1z - sz * e1y, sz * e1x - sx * e1z, sx * e1y - sy * e1x;
            (e1x * px + e1y * py + e1z * pz) * sx
            == (sx * px + sy * py + sz * pz) * e1x + (dx * qx + dy * qy + dz * qz) * e2x
               - (e2x * qx + e2y * qy + e2z * qz) * dx
  {
  }

  /** Dividing a x = A e + B g - C h through by a, with f = 1/a. */
  lemma Divide(a: real, f: real, x: real, A: real, B: real, C: real, e: real, g: real, h: real)
    requires f * a == 1.0 && a * x == A * e + B * g - C * h
    ensures x == (f * A) * e + (f * B) * g - (f * C) * h
  {
    calc {
      x;
      (f * a) * x;
      f * (a * x);
      f * (A * e + B * g - C * h);
      (f * A) * e + (f * B) * g - (f * C) * h;
    }
  }

  /** The first coordinate of s is u e1 + v e2 - t d for Möller-Trumbore's
      u = f (s.p), v = f (q.d), t = f (e2.q), f = 1/a. */
  lemma SolveFirst(e1x: real, e1y: real, e1z: real, e2x: real, e2y: real, e2z: real,
                   dx: real, dy: real, dz: real, sx: real, sy: real, sz: real)
    requires e1x * (dy * e2z - dz * e2y) + e1y * (dz * e2x - dx * e2z) + e1z * (dx * e2y - dy * e2x) != 0.0
    ensures var px, py, pz := dy * e2z - dz * e2y, dz * e2x - dx * e2z, dx * e2y - dy * e2x;
            var qx, qy, qz := sy * e1z - sz * e1y, sz * e1x - sx * e1z, sx * e1y - sy * e1x;
            var f := 1.0 / (e1x * px + e1y * py + e1z * pz);
            sx == (f * (sx * px + sy * py + sz * pz)) * e1x + (f * (qx * dx + qy * dy + qz * dz)) * e2x
                  - (f * (e2x * qx + e2y * qy + e2z * qz)) * dx
  {
    CramerFirst(e1x, e1y, e1z, e2x, e2y, e2z, dx, dy, dz, sx, sy, sz);
    Divide(e1x * (dy * e2z - dz * e2y) + e1y * (dz * e2x - dx * e2z) + e1z * (dx * e2y - dy * e2x),
           1.0 / (e1x * (dy * e2z - dz * e2y) + e1y * (dz * e2x - dx * e2z) + e1z * (dx * e2y - dy * e2x)),
           sx,
           sx * (dy * e2z - dz * e2y) + sy * (dz * e2x - dx * e2z) + sz * (dx * e2y - dy * e2x),
           (sy * e1z - sz * e1y) * dx + (sz * e1x - sx * e1z) * dy + (sx * e1y - sy * e1x) * dz,
           e2x * (sy * e1z - sz * e1y) + e2y * (sz * e1x - sx * e1z) + e2z * (sx * e1y - sy * e1x),
           e1x, e2x, dx);
  }

  /** `SolveFirst` for vectors. */
  lemma SolveX(e1: Vector3, e2: Vector3, d: Vector3, s: Vector3)
    requires Dot(e1, Cross(d, e2)) != 0.0
    ensures var f := 1.0 / Dot(e1, Cross(d, e2));
            s.x == (f * Dot(s, Cross(d, e2))) * e1.x + (f * Dot(Cross(s, e1), d)) * e2.x
                   - (f * Dot(e2, Cross(s, e1))) * d.x
  {
    SolveFirst(e1.x, e1.y, e1.z, e2.x, e2.y, e2.z, d.x, d.y, d.z, s.x, s.y, s.z);
  }

  /** Cyclic rotation of the coordinates, which preserves dot and cross products. */
  function Rot(v: Vector3): Vector3 {
    Vector3(v.y, v.z, v.x)
  }

  lemma RotDot(a: Vector3, b: Vector3)
    ensures Dot(Rot(a), Rot(b)) == Dot(a, b)
  {
  }

  lemma RotCross(a: Vector3, b: Vector3)
    ensures Cross(Rot(a), Rot(b)) == Rot(Cross(a, b))
  {
  }

  /** The second coordinate, from the first one on rotated vectors. */
  lemma SolveY(e1: Vector3, e2: Vector3, d: Vector3, s: Vector3)
    requires Dot(e1, Cross(d, e2)) != 0.0
    ensures var f := 1.0 / Dot(e1, Cross(d, e2));
            s.y == (f * Dot(s, Cross(d, e2))) * e1.y + (f * Dot(Cross(s, e1), d)) * e2.y
                   - (f * Dot(e2, Cross(s, e1))) * d.y
  {
    RotCross(d, e2);
    RotCross(s, e1);
    RotDot(e1, Cross(d, e2));
    RotDot(s, Cross(d, e2));
    RotDot(Cross(s, e1), d);
    RotDot(e2, Cross(s, e1));
    SolveX(Rot(e1), Rot(e2), Rot(d), Rot(s));
  }

  /** The third coordinate, from the second one on rotated vectors. */
  lemma SolveZ(e1: Vector3, e2: Vector3, d: Vector3, s: Vector3)
    requires Dot(e1, Cross(d, e2)) != 0.0
    ensures var f := 1.0 / Dot(e1, Cross(d, e2));
            s.z == (f * Dot(s, Cross(d, e2))) * e1.z + (f * Dot(Cross(s, e1), d)) * e2.z
                   - (f * Dot(e2, Cross(s, e1))) * d.z
  {
    RotCross(d, e2);
    RotCross(s, e1);
    RotDot(e1, Cross(d, e2));
    RotDot(s, Cross(d, e2));
    RotDot(Cross(s, e1), d);
    RotDot(e2, Cross(s, e1));
    SolveY(Rot(e1), Rot(e2), Rot(d), Rot(s));
  }

  /** s = u e1 + v e2 - t d, coordinate by coordinate. */
  predicate Solves(e1: Vector3, e2: Vector3, d: Vector3, s: Vector3, u: real, v: real, t: real) {
    && s.x == u * e1.x + v * e2.x - t * d.x
    && s.y == u * e1.y + v * e2.y - t * d.y
    && s.z == u * e1.z + v * e2.z - t * d.z
  }

  /** The line meets the point (u, v) at t exactly when O - P0 = u e1 + v e2 - t d. */
  lemma MeetsComponents(P0: Vector3, P1: Vector3, P2: Vector3, O: Vector3, d: Vector3, u: real, v: real, t: real)
    ensures LineMeets(P0, P1, P2, O, d, u, v, t) <==> Solves(Sub(P1, P0), Sub(P2, P0), d, Sub(O, P0), u, v, t)
  {
  }

  /** With a non-zero determinant, Möller-Trumbore's (u, v, t) solves the system. */
  lemma MollerTrumboreSolves(e1: Vector3, e2: Vector3, d: Vector3, s: Vector3)
    requires Dot(e1, Cross(d, e2)) != 0.0
    ensures var f := 1.0 / Dot(e1, Cross(d, e2));
            Solves(e1, e2, d, s, f * Dot(s, Cross(d, e2)), f * Dot(Cross(s, e1), d), f * Dot(e2, Cross(s, e1)))
  {
    SolveX(e1, e2, d, s);
    SolveY(e1, e2, d, s);
    SolveZ(e1, e2, d, s);
  }

  /** With a non-zero determinant the system has one solution only. */
  lemma SolvesUnique(e1: Vector3, e2: Vector3, d: Vector3, s: Vector3,
                     u: real, v: real, t: real, u2: real, v2: real, t2: real)
    requires Dot(e1, Cross(d, e2)) != 0.0
    requires Solves(e1, e2, d, s, u, v, t) && Solves(e1, e2, d, s, u2, v2, t2)
    ensures u == u2 && v == v2 && t == t2
  {
    KernelTrivial(e1.x, e1.y, e1.z, e2.x, e2.y, e2.z, d.x, d.y, d.z, u - u2, v - v2, t - t2);
  }

  /** x a = 0 with a non-zero forces x = 0. */
  lemma ZeroFactor(x: real, a: real)
    requires a != 0.0 && x * a == 0.0
    ensures x == 0.0
  {
    assert x == (x * a) / a;
  }

  /** Dotting w = du e1 + dv e2 - dt d with d x e2 leaves du a. */
  lemma KernelFirst(e1x: real, e1y: real, e1z: real, e2x: real, e2y: real, e2z: real,
                    dx: real, dy: real, dz: real, du: real, dv: real, dt: real)
    ensures var px, py, pz := dy * e2z - dz * e2y, dz * e2x - dx * e2z, dx * e2y - dy * e2x;
            du * (e1x * px + e1y * py + e1z * pz)
            == (du * e1x + dv * e2x - dt * dx) * px + (du * e1y + dv * e2y - dt * dy) * py
               + (du * e1z + dv * e2z - dt * dz) * pz
  {
  }

  /** Dotting w with e1 x d leaves dv a. */
  lemma KernelSecond(e1x: real, e1y: real, e1z: real, e2x: real, e2y: real, e2z: real,
                     dx: real, dy: real, dz: real, du: real, dv: real, dt: real)
    ensures var rx, ry, rz := e1y * dz - e1z * dy, e1z * dx - e1x * dz, e1x * dy - e1y * dx;
            dv * (e1x * (dy * e2z - dz * e2y) + e1y * (dz * e2x - dx * e2z) + e1z * (dx * e2y - dy * e2x))
            == (du * e1x + dv * e2x - dt * dx) * rx + (du * e1y + dv * e2y - dt * dy) * ry
               + (du * e1z + dv * e2z - dt * dz) * rz
  {
  }

  /** Dotting w with e1 x e2 leaves dt a. */
  lemma KernelThird(e1x: real, e1y: real, e1z: real, e2x: real, e2y: real, e2z: real,
                    dx: real, dy: real, dz: real, du: real, dv: real, dt: real)
    ensures var rx, ry, rz := e1y * e2z - e1z * e2y, e1z * e2x - e1x * e2z, e1x * e2y - e1y * e2x;
            dt * (e1x * (dy * e2z - dz * e2y) + e1y * (dz * e2x - dx * e2z) + e1z * (dx * e2y - dy * e2x))
            == (du * e1x + dv * e2x - dt * dx) * rx + (du * e1y + dv * e2y - dt * dy) * ry
               + (du * e1z + dv * e2z - dt * dz) * rz
  {
  }

  /** With a non-zero determinant, du e1 + dv e2 - dt d = 0 only for du = dv = dt = 0. */
  lemma KernelTrivial(e1x: real, e1y: real, e1z: real, e2x: real, e2y: real, e2z: real,
                      dx: real, dy: real, dz: real, du: real, dv: real, dt: real)
    requires e1x * (dy * e2z - dz * e2y) + e1y * (dz * e2x - dx * e2z) + e1z * (dx * e2y - dy * e2x) != 0.0
    requires du * e1x + dv * e2x - dt * dx == 0.0
    requires du * e1y + dv * e2y - dt * dy == 0.0
    requires du * e1z + dv * e2z - dt * dz == 0.0
    ensures du == 0.0 && dv == 0.0 && dt == 0.0
  {
    KernelFirst(e1x, e1y, e1z, e2x, e2y, e2z, dx, dy, dz, du, dv, dt);
    KernelSecond(e1x, e1y, e1z, e2x, e2y, e2z, dx, dy, dz, du, dv, dt);
    KernelThird(e1x, e1y, e1z, e2x, e2y, e2z, dx, dy, dz, du, dv, dt);
    ZeroFactor(du, e1x * (dy * e2z - dz * e2y) + e1y * (dz * e2x - dx * e2z) + e1z * (dx * e2y - dy * e2x));
    ZeroFactor(dv, e1x * (dy * e2z - dz * e2y) + e1y * (dz * e2x - dx * e2z) + e1z * (dx * e2y - dy * e2x));
    ZeroFactor(dt, e1x * (dy * e2z - dz * e2y) + e1y * (dz * e2x - dx * e2z) + e1z * (dx * e2y - dy * e2x));
  }

  /** The corrected test is exact: it reports a hit exactly when the ray is
      not (near) parallel to the triangle and its line passes through a point
      of the closed triangle; the hit is that point's (u, v, t). */
  lemma IntersectTriangleRayCheckedExact(P0: Vector3, P1: Vector3, P2: Vector3, l: Line, uvw: Vector3)
    ensures var h := IntersectTriangleRayChecked(P0, P1, P2, l, uvw);
            h.code == IIntersect
            <==> Abs(Dot(Sub(P1, P0), Cross(l.d, Sub(P2, P0)))) >= DistanceEpsilon
                 && exists u, v, t :: 0.0 <= u && 0.0 <= v && u + v <= 1.0 && LineMeets(P0, P1, P2, l.O, l.d, u, v, t)
    ensures var h := IntersectTriangleRayChecked(P0, P1, P2, l, uvw);
            h.code == IIntersect ==> LineMeets(P0, P1, P2, l.O, l.d, h.uvw.x, h.uvw.y, h.uvw.z)
  {
    if Abs(Dot(Sub(P1, P0), Cross(l.d, Sub(P2, P0)))) >= DistanceEpsilon {
      var w := EdgeCoordinates(Sub(P1, P0), Sub(P2, P0), l.d, Sub(l.O, P0));
      MeetsComponents(P0, P1, P2, l.O, l.d, w.x, w.y, w.z);
      if exists u, v, t :: 0.0 <= u && 0.0 <= v && u + v <= 1.0 && LineMeets(P0, P1, P2, l.O, l.d, u, v, t) {
        var u, v, t :| 0.0 <= u && 0.0 <= v && u + v <= 1.0 && LineMeets(P0, P1, P2, l.O, l.d, u, v, t);
        MeetsComponents(P0, P1, P2, l.O, l.d, u, v, t);
        SolvesUnique(Sub(P1, P0), Sub(P2, P0), l.d, Sub(l.O, P0), u, v, t, w.x, w.y, w.z);
      }
    }
  }

  /** The as-written test is exact for the parallelogram: it reports a hit
      exactly when the ray is not (near) parallel to the triangle's plane and
      its line passes through a point P0 + u e1 + v e2 with u and v in
      [0, 1]; the hit is that point's (u, v, t). */
  lemma IntersectTriangleRayExact(P0: Vector3, P1: Vector3, P2: Vector3, l: Line, uvw: Vector3)
    ensures var h := IntersectTriangleRay(P0, P1, P2, l, uvw);
            h.code == IIntersect
            <==> Abs(Dot(Sub(P1, P0), Cross(l.d, Sub(P2, P0)))) >= DistanceEpsilon
                 && exists u, v, t :: 0.0 <= u <= 1.0 && 0.0 <= v <= 1.0 && LineMeets(P0, P1, P2, l.O, l.d, u, v, t)
  {
    if Abs(Dot(Sub(P1, P0), Cross(l.d, Sub(P2, P0)))) >= DistanceEpsilon {
      var w := EdgeCoordinates(Sub(P1, P0), Sub(P2, P0), l.d, Sub(l.O, P0));
      MeetsComponents(P0, P1, P2, l.O, l.d, w.x, w.y, w.z);
      if exists u, v, t :: 0.0 <= u <= 1.0 && 0.0 <= v <= 1.0 && LineMeets(P0, P1, P2, l.O, l.d, u, v, t) {
        var u, v, t :| 0.0 <= u <= 1.0 && 0.0 <= v <= 1.0 && LineMeets(P0, P1, P2, l.O, l.d, u, v, t);
        MeetsComponents(P0, P1, P2, l.O, l.d, u, v, t);
        SolvesUnique(Sub(P1, P0), Sub(P2, P0), l.d, Sub(l.O, P0), u, v, t, w.x, w.y, w.z);
      }
    }
  }

  /** Whenever the as-written test reports a hit (u, v, t), the line really
      passes through the point P0 + u e1 + v e2 at parameter t, with u and v
      in [0, 1]: a point of the parallelogram, not necessarily of the triangle. */
  lemma IntersectTriangleRayHitPoint(P0: Vector3, P1: Vector3, P2: Vector3, l: Line, uvw: Vector3)
    ensures var h := IntersectTriangleRay(P0, P1, P2, l, uvw);
            h.code == IIntersect ==> LineMeets(P0, P1, P2, l.O, l.d, h.uvw.x, h.uvw.y, h.uvw.z)
  {
    if Abs(Dot(Sub(P1, P0), Cross(l.d, Sub(P2, P0)))) >= DistanceEpsilon {
      var w := EdgeCoordinates(Sub(P1, P0), Sub(P2, P0), l.d, Sub(l.O, P0));
      MeetsComponents(P0, P1, P2, l.O, l.d, w.x, w.y, w.z);
    }
  }

  /** For the edges (1,0,0), (0,1,0) and the direction (0,0,-1) the edge
      coordinates of s are s itself. */
  lemma UnitEdgeCoordinates(e1: Vector3, e2: Vector3, d: Vector3, s: Vector3)
    requires e1 == UnitX && e2 == UnitY && d == Vector3(0.0, 0.0, -1.0)
    ensures Dot(e1, Cross(d, e2)) == 1.0 && Abs(Dot(e1, Cross(d, e2))) >= DistanceEpsilon
    ensures EdgeCoordinates(e1, e2, d, s) == s
  {
    assert Cross(d, e2) == UnitX;
    var w := EdgeCoordinates(e1, e2, d, s);
    SolvesUnique(e1, e2, d, s, w.x, w.y, w.z, s.x, s.y, s.z);
  }

  /** Past the determinant test, the as-written verdict depends only on the
      edge coordinates w, which are returned on a hit. */
  lemma MollerTrumboreVerdict(e1: Vector3, e2: Vector3, d: Vector3, s: Vector3, uvw: Vector3, w: Vector3)
    requires Abs(Dot(e1, Cross(d, e2))) >= DistanceEpsilon && EdgeCoordinates(e1, e2, d, s) == w
    ensures var h := MollerTrumbore(e1, e2, d, s, uvw);
            (h.code == IIntersect <==> 0.0 <= w.x <= 1.0 && 0.0 <= w.y <= 1.0)
            && (h.code == IIntersect ==> h.uvw == w)
  {
  }

  /** The same for the corrected test. */
  lemma MollerTrumboreCheckedVerdict(e1: Vector3, e2: Vector3, d: Vector3, s: Vector3, uvw: Vector3, w: Vector3)
    requires Abs(Dot(e1, Cross(d, e2))) >= DistanceEpsilon && EdgeCoordinates(e1, e2, d, s) == w
    ensures var h := MollerTrumboreChecked(e1, e2, d, s, uvw);
            (h.code == IIntersect <==> 0.0 <= w.x && 0.0 <= w.y && w.x + w.y <= 1.0)
            && (h.code == IIntersect ==> h.uvw == w)
  {
  }

  /** On the edges (1,0,0), (0,1,0) and the direction (0,0,-1) the as-written
      test accepts s exactly when it lies over the unit square, and returns s. */
  lemma UnitTriangleAsWritten(e1: Vector3, e2: Vector3, d: Vector3, s: Vector3, uvw: Vector3)
    requires e1 == UnitX && e2 == UnitY && d == Vector3(0.0, 0.0, -1.0)
    ensures var h := MollerTrumbore(e1, e2, d, s, uvw);
            (h.code == IIntersect <==> 0.0 <= s.x <= 1.0 && 0.0 <= s.y <= 1.0)
            && (h.code == IIntersect ==> h.uvw == s)
  {
    UnitEdgeCoordinates(e1, e2, d, s);
    MollerTrumboreVerdict(e1, e2, d, s, uvw, s);
  }

  /** On the same edges the corrected test accepts s exactly when it lies over
      the triangle, and returns s. */
  lemma UnitTriangleChecked(e1: Vector3, e2: Vector3, d: Vector3, s: Vector3, uvw: Vector3)
    requires e1 == UnitX && e2 == UnitY && d == Vector3(0.0, 0.0, -1.0)
    ensures var h := MollerTrumboreChecked(e1, e2, d, s, uvw);
            (h.code == IIntersect <==> 0.0 <= s.x && 0.0 <= s.y && s.x + s.y <= 1.0)
            && (h.code == IIntersect ==> h.uvw == s)
  {
    UnitEdgeCoordinates(e1, e2, d, s);
    MollerTrumboreCheckedVerdict(e1, e2, d, s, uvw, s);
  }

  /** Both tests depend on the vertices and the origin only through the edges
      and O - P0. */
  lemma TestsOnEdges(P0: Vector3, P1: Vector3, P2: Vector3, l: Line, uvw: Vector3, e1: Vector3, e2: Vector3, s: Vector3)
    requires Sub(P1, P0) == e1 && Sub(P2, P0) == e2 && Sub(l.O, P0) == s
    ensures IntersectTriangleRay(P0, P1, P2, l, uvw) == MollerTrumbore(e1, e2, l.d, s, uvw)
    ensures IntersectTriangleRayChecked(P0, P1, P2, l, uvw) == MollerTrumboreChecked(e1, e2, l.d, s, uvw)
  {
  }

  /** The as-written test accepts a line that misses the triangle: for the
      triangle P0, P0 + (1,0,0), P0 + (0,1,0) (for instance (0,0,0), (1,0,0),
      (0,1,0)) and the line from P0 + (0.75, 0.75, 1) along -Z it reports
      u = v = 0.75, outside the triangle, while the corrected test rejects it. */
  lemma IntersectTriangleRayCounterexample(P0: Vector3, P1: Vector3, P2: Vector3, l: Line, uvw: Vector3)
    requires Sub(P1, P0) == UnitX && Sub(P2, P0) == UnitY
    requires Sub(l.O, P0) == Vector3(0.75, 0.75, 1.0) && l.d == Vector3(0.0, 0.0, -1.0)
    ensures var h := IntersectTriangleRay(P0, P1, P2, l, uvw);
            h.code == IIntersect && h.uvw.x + h.uvw.y > 1.0
    ensures IntersectTriangleRayChecked(P0, P1, P2, l, uvw).code == IReject
  {
    TestsOnEdges(P0, P1, P2, l, uvw, Sub(P1, P0), Sub(P2, P0), Sub(l.O, P0));
    UnitTriangleAsWritten(Sub(P1, P0), Sub(P2, P0), l.d, Sub(l.O, P0), uvw);
    UnitTriangleChecked(Sub(P1, P0), Sub(P2, P0), l.d, Sub(l.O, P0), uvw);
  }

  /** A ray aimed along -Z at the centroid of such a triangle is a hit with
      u = v = 1/3, at the ray parameter t = 1 where it crosses the plane. */
  lemma IntersectTriangleRayCentroid(P0: Vector3, P1: Vector3, P2: Vector3, l: Line, uvw: Vector3)
    requires Sub(P1, P0) == UnitX && Sub(P2, P0) == UnitY
    requires Sub(l.O, P0) == Vector3(1.0 / 3.0, 1.0 / 3.0, 1.0) && l.d == Vector3(0.0, 0.0, -1.0)
    ensures IntersectTriangleRayChecked(P0, P1, P2, l, uvw) == TriangleHit(IIntersect, Vector3(1.0 / 3.0, 1.0 / 3.0, 1.0))
  {
    TestsOnEdges(P0, P1, P2, l, uvw, Sub(P1, P0), Sub(P2, P0), Sub(l.O, P0));
    UnitTriangleChecked(Sub(P1, P0), Sub(P2, P0), l.d, Sub(l.O, P0), uvw);
  }

  // ---------------------------------------------------------------------
  // Names of the classifications

  /** The printable name of a classification; anything else is an error. */
  function IntersectString(code: int): (name: string)
    ensures IsVerdict(code) ==> name != "IERROR" && |name| > 0
    ensures !IsVerdict(code) ==> name == "IERROR"
  {
    if code == IIntersect then "IINTERSECT"
    else if code == IReject then "IREJECT"
    else if code == -IReject then "-IREJECT"
    else "IERROR"
  }

  /** The three classifications get three distinct names, and only codes
      that are not classifications are named "IERROR". */
  lemma IntersectStringDistinguishes(c1: int, c2: int)
    ensures IsVerdict(c1) && IsVerdict(c2) && c1 != c2 ==> IntersectString(c1) != IntersectString(c2)
    ensures IntersectString(c1) == "IERROR" <==> !IsVerdict(c1)
  {
  }
}
