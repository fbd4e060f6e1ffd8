/** The value types shared by the intersection predicates and the camera:
    3D vectors over the reals, planes, axis-aligned boxes and spheres.
    Single-precision floats of the original are modelled as exact reals. */
module Geometry {

  /** A point or direction in 3D space. */
  datatype Vector3 = Vector3(x: real, y: real, z: real)

  const Zero := Vector3(0.0, 0.0, 0.0)
  const UnitX := Vector3(1.0, 0.0, 0.0)
  const UnitY := Vector3(0.0, 1.0, 0.0)
  const UnitZ := Vector3(0.0, 0.0, 1.0)

  /** Tolerance for lengths and determinants. Its value lives in a header that
      is not part of this model; every proof only uses that it is positive and small. */
  const DistanceEpsilon: real := 0.000001
  /** Tolerance for colinearity tests (a cosine distance from 1). */
  const AngleEpsilon: real := 0.001

  function Add(a: Vector3, b: Vector3): Vector3 {
    Vector3(a.x + b.x, a.y + b.y, a.z + b.z)
  }

  function Sub(a: Vector3, b: Vector3): Vector3 {
    Vector3(a.x - b.x, a.y - b.y, a.z - b.z)
  }

  function Scale(k: real, a: Vector3): Vector3 {
    Vector3(k * a.x, k * a.y, k * a.z)
  }

  function Neg(a: Vector3): Vector3 {
    Vector3(-a.x, -a.y, -a.z)
  }

  function Dot(a: Vector3, b: Vector3): real {
    a.x * b.x + a.y * b.y + a.z * b.z
  }

  /** Right-handed cross product. */
  function Cross(a: Vector3, b: Vector3): Vector3 {
    Vector3(a.y * b.z - a.z * b.y, a.z * b.x - a.x * b.z, a.x * b.y - a.y * b.x)
  }

  function LengthSquare(a: Vector3): real {
    Dot(a, a)
  }

  function Abs(r: real): real {
    if r < 0.0 then -r else r
  }

  /** A vector is treated as zero when every component is within the distance
      tolerance of 0 (the vector class itself is not part of this model). */
  predicate IsZero(v: Vector3) {
    Abs(v.x) < DistanceEpsilon && Abs(v.y) < DistanceEpsilon && Abs(v.z) < DistanceEpsilon
  }

  lemma SquareNonNegative(r: real)
    ensures r * r >= 0.0
  {
    if r < 0.0 {
      assert r * r == (-r) * (-r);
    }
  }

  lemma MulNonNegative(x: real, y: real)
    requires x >= 0.0 && y >= 0.0
    ensures x * y >= 0.0
  {
  }

  lemma LengthSquareNonNegative(a: Vector3)
    ensures LengthSquare(a) >= 0.0
  {
    SquareNonNegative(a.x);
    SquareNonNegative(a.y);
    SquareNonNegative(a.z);
  }

  /** The cross product is orthogonal to both of its factors. */
  lemma CrossOrthogonal(a: Vector3, b: Vector3)
    ensures Dot(Cross(a, b), a) == 0.0
    ensures Dot(Cross(a, b), b) == 0.0
  {
  }

  /** Lagrange's identity: |a|^2 |b|^2 - (a.b)^2 = |a x b|^2. */
  lemma Lagrange(a: Vector3, b: Vector3)
    ensures LengthSquare(a) * LengthSquare(b) - Dot(a, b) * Dot(a, b) == LengthSquare(Cross(a, b))
  {
    var c := Cross(a, b);
    assert c.x * c.x == a.y * a.y * b.z * b.z - 2.0 * a.y * b.z * a.z * b.y + a.z * a.z * b.y * b.y;
    assert c.y * c.y == a.z * a.z * b.x * b.x - 2.0 * a.z * b.x * a.x * b.z + a.x * a.x * b.z * b.z;
    assert c.z * c.z == a.x * a.x * b.y * b.y - 2.0 * a.x * b.y * a.y * b.x + a.y * a.y * b.x * b.x;
  }

  /** Cauchy-Schwarz in squared form: (a.b)^2 <= |a|^2 |b|^2. */
  lemma CauchySchwarz(a: Vector3, b: Vector3)
    ensures Dot(a, b) * Dot(a, b) <= LengthSquare(a) * LengthSquare(b)
  {
    Lagrange(a, b);
    LengthSquareNonNegative(Cross(a, b));
  }

  /** For non-negative x and y, x^2 <= y^2 exactly when x <= y. */
  lemma SquareMonotonic(x: real, y: real)
    requires x >= 0.0 && y >= 0.0
    ensures x * x <= y * y <==> x <= y
  {
    if x <= y {
      var xx, xy, yy := x * x, x * y, y * y;
      assert xx <= xy <= yy;
    } else {
      var yy, yx, xx := y * y, y * x, x * x;
      assert yy <= yx;
      assert yx < xx;
    }
  }

  /** A plane `n.P - d = 0`; the sign of `n.P - d` tells the side of P.
      `n` need not be unit length unless `isNorm` holds. */
  datatype Plane = Plane(n: Vector3, d: real, isNorm: bool)

  /** The value of the plane equation at P (a distance scaled by |n|). */
  function SignedValue(pl: Plane, p: Vector3): real {
    Dot(pl.n, p) - pl.d
  }

  /** Which side of the plane P is on: 1 positive, -1 negative, 0 on the plane. */
  function WhichSide(pl: Plane, p: Vector3): int {
    var v := SignedValue(pl, p);
    if v > 0.0 then 1 else if v < 0.0 then -1 else 0
  }

  /** Axis-aligned bounding box given by its two extreme corners. */
  datatype BBox = BBox(min: Vector3, max: Vector3)

  /** The box is well formed: min <= max on every axis. */
  predicate WellFormed(b: BBox) {
    b.min.x <= b.max.x && b.min.y <= b.max.y && b.min.z <= b.max.z
  }

  /** P is inside or on the boundary of the box. */
  predicate InBox(b: BBox, p: Vector3) {
    b.min.x <= p.x <= b.max.x && b.min.y <= p.y <= b.max.y && b.min.z <= p.z <= b.max.z
  }

  /** Bounding sphere. */
  datatype BSphere = BSphere(centre: Vector3, radius: real)

  /** P is inside or on the boundary of the sphere. */
  predicate InBall(s: BSphere, p: Vector3) {
    LengthSquare(Sub(p, s.centre)) <= s.radius * s.radius
  }
}
