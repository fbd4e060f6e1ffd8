/** View-frustum planes extracted from the combined projection * view matrix
    (the Gribb-Hartmann method), and the six-plane culling verdict the camera
    computes for a bounding box. */
module Frustum {
  import opened Geometry
  import opened Intersect

  /** The 16 entries of a 4x4 matrix in OpenGL column-major order: the entry
      of row r and column c is at index 4 * c + r. */
  type Matrix16 = m: seq<real> | |m| == 16 witness seq(16, _ => 0.0)

  /** Row `row` of M applied to the homogeneous point (p, 1): a clip-space
      coordinate (rows 0..2 are x, y, z and row 3 is w). */
  function Clip(M: Matrix16, row: nat, p: Vector3): real
    requires row < 4
  {
    M[row] * p.x + M[4 + row] * p.y + M[8 + row] * p.z + M[12 + row]
  }

  /** The point lies strictly inside the clip volume: -w < c < w on x, y and z. */
  predicate InClipVolume(M: Matrix16, p: Vector3) {
    var w := Clip(M, 3, p);
    -w < Clip(M, 0, p) < w && -w < Clip(M, 1, p) < w && -w < Clip(M, 2, p) < w
  }

  /** The plane bounding clip coordinate `axis` (0 x, 1 y, 2 z) on the side
      `sign` (1.0 for left/bottom/near, -1.0 for right/top/far):
      n[k] = -(M[4k+3] + sign M[4k+axis]) and d = M[15] + sign M[12+axis].
      The stored `d` is the negated constant term, so that the plane is
      `n.P - d = 0`. Extracted planes are never normalised. */
  function ClipPlane(M: Matrix16, axis: nat, sign: real): (pl: Plane)
    requires axis < 3
    ensures !pl.isNorm
  {
    Plane(Vector3(-M[3] - sign * M[axis], -M[7] - sign * M[4 + axis], -M[11] - sign * M[8 + axis]),
          M[15] + sign * M[12 + axis], false)
  }

  /** The six frustum planes in the camera's order: left, right, bottom, top,
      near, far. */
  function FrustumPlanes(M: Matrix16): (planes: seq<Plane>)
    ensures |planes| == 6
  {
    [ClipPlane(M, 0, 1.0), ClipPlane(M, 0, -1.0),
     ClipPlane(M, 1, 1.0), ClipPlane(M, 1, -1.0),
     ClipPlane(M, 2, 1.0), ClipPlane(M, 2, -1.0)]
  }

  /** The plane equation of an extracted plane at P is minus (w + sign * c),
      where c and w are P's clip coordinates: its positive side is the outside
      of the frustum. */
  lemma ClipPlaneValue(M: Matrix16, axis: nat, sign: real, p: Vector3)
    requires axis < 3
    ensures SignedValue(ClipPlane(M, axis, sign), p) == -(Clip(M, 3, p) + sign * Clip(M, axis, p))
  {
  }

  /** A point is strictly on the negative side of all six extracted planes
      exactly when it is strictly inside the clip volume. */
  lemma FrustumPlanesInside(M: Matrix16, p: Vector3)
    ensures (forall i :: 0 <= i < 6 ==> SignedValue(FrustumPlanes(M)[i], p) < 0.0) <==> InClipVolume(M, p)
  {
    var planes := FrustumPlanes(M);
    var v := ClipSides(M, p);
    assert forall i :: 0 <= i < 6 ==> SignedValue(planes[i], p) == v[i];
  }

  /** The six plane values at P as the clip-coordinate combinations
      -(w + x), -(w - x), -(w + y), -(w - y), -(w + z), -(w - z). */
  lemma ClipSides(M: Matrix16, p: Vector3) returns (v: seq<real>)
    ensures |v| == 6
    ensures InClipVolume(M, p) <==> v[0] < 0.0 && v[1] < 0.0 && v[2] < 0.0 && v[3] < 0.0 && v[4] < 0.0 && v[5] < 0.0
    ensures forall i :: 0 <= i < 6 ==> SignedValue(FrustumPlanes(M)[i], p) == v[i]
  {
    var w, x, y, z := Clip(M, 3, p), Clip(M, 0, p), Clip(M, 1, p), Clip(M, 2, p);
    v := [-(w + x), -(w - x), -(w + y), -(w - y), -(w + z), -(w - z)];
    ClipPlaneValue(M, 0, 1.0, p);
    ClipPlaneValue(M, 0, -1.0, p);
    ClipPlaneValue(M, 1, 1.0, p);
    ClipPlaneValue(M, 1, -1.0, p);
    ClipPlaneValue(M, 2, 1.0, p);
    ClipPlaneValue(M, 2, -1.0, p);
  }

  /** The culling verdict over a set of planes: +IReject (outside) when the
      box is entirely on the positive side of some plane, -IReject (inside)
      when it is entirely on the negative side of every plane, and IIntersect
      otherwise. */
  function FrustumVerdict(planes: seq<Plane>, b: BBox): (r: int)
    ensures IsVerdict(r)
  {
    if exists i :: 0 <= i < |planes| && BBoxPlaneIntersect(b, planes[i]) == IReject then IReject
    else if forall i :: 0 <= i < |planes| ==> BBoxPlaneIntersect(b, planes[i]) == -IReject then -IReject
    else IIntersect
  }

  /** A box reported outside has no point strictly inside the clip volume. */
  lemma BoxCulledOutside(M: Matrix16, b: BBox)
    requires WellFormed(b) && FrustumVerdict(FrustumPlanes(M), b) == IReject
    ensures forall p :: InBox(b, p) ==> !InClipVolume(M, p)
  {
    var planes := FrustumPlanes(M);
    var i :| 0 <= i < |planes| && BBoxPlaneIntersect(b, planes[i]) == IReject;
    BBoxPlanePositive(b, planes[i]);
    forall p | InBox(b, p) ensures !InClipVolume(M, p) {
      FrustumPlanesInside(M, p);
    }
  }

  /** A box reported inside lies, every point of it, strictly inside the clip
      volume. */
  lemma BoxCulledInside(M: Matrix16, b: BBox)
    requires WellFormed(b) && FrustumVerdict(FrustumPlanes(M), b) == -IReject
    ensures forall p :: InBox(b, p) ==> InClipVolume(M, p)
  {
    var planes := FrustumPlanes(M);
    forall i | 0 <= i < 6 ensures forall p :: InBox(b, p) ==> SignedValue(planes[i], p) < 0.0 {
      BBoxPlaneNegative(b, planes[i]);
    }
    forall p | InBox(b, p) ensures InClipVolume(M, p) {
      FrustumPlanesInside(M, p);
    }
  }

  /** The inside verdict is exact: it is given precisely when every corner of
      the box is strictly inside the clip volume. */
  lemma BoxInsideExact(M: Matrix16, b: BBox)
    requires WellFormed(b)
    ensures FrustumVerdict(FrustumPlanes(M), b) == -IReject <==> forall p :: IsCorner(b, p) ==> InClipVolume(M, p)
  {
    var planes := FrustumPlanes(M);
    forall i | 0 <= i < 6
      ensures BBoxPlaneIntersect(b, planes[i]) == -IReject <==> forall p :: IsCorner(b, p) ==> SignedValue(planes[i], p) < 0.0
    {
      BBoxPlaneNegative(b, planes[i]);
    }
    forall p | IsCorner(b, p)
      ensures (forall i :: 0 <= i < 6 ==> SignedValue(planes[i], p) < 0.0) <==> InClipVolume(M, p)
    {
      FrustumPlanesInside(M, p);
    }
  }
}
