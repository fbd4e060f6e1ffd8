/** The camera: eye position E, target At and up vector Up, the orthonormal
    frame (R, U, D) derived from them, the view and projection
    transformations, and the six frustum planes used for culling. A camera is
    either perspective or orthographic. */
module Cameras {
  import opened Geometry
  import opened Intersect
  import opened Frustum

  /** Number of frustum planes a camera keeps. */
  const MaxClipPlanes: nat := 6

  /** A 3D transformation, represented by the call that built it; the
      transformation class itself is not part of this model. */
  datatype Trfm =
    | Identity
    | FrustumProjection(left: real, right: real, bottom: real, top: real, near: real, far: real)
    | OrthoProjection(left: real, right: real, bottom: real, top: real, near: real, far: real)
    | World2Local(e: Vector3, r: Vector3, u: Vector3, d: Vector3)

  /** The numerical routines the camera calls whose code is not part of this
      model, taken as given functions:
      - `invLength(v)`: the factor by which normalising scales v (1 / |v|);
      - `tan`: the tangent;
      - `clipMatrix(P, V)`: the 16 column-major entries of P * V;
      - `rotatePoint(axis, centre, angle, p)` and `rotateVector(...)`: the
        rotation by `angle` about the axis through `centre`, applied to a
        point and to a direction;
      - `defaultPlane`: a default-constructed plane;
      - `degreeToRad`: the degrees-to-radians factor. */
  datatype MathLibrary = MathLibrary(
    invLength: Vector3 -> real,
    tan: real -> real,
    clipMatrix: (Trfm, Trfm) -> Matrix16,
    rotatePoint: (Vector3, Vector3, real, Vector3) -> Vector3,
    rotateVector: (Vector3, Vector3, real, Vector3) -> Vector3,
    defaultPlane: Plane,
    degreeToRad: real)
  {
    /** Normalising a non-zero vector scales it by a positive factor to unit
        length. */
    ghost predicate Sound() {
      forall v {:trigger NormalizesAt(v)} :: NormalizesAt(v)
    }

    /** Normalising v, when v is not zero, scales it by a positive factor to
        unit length. */
    ghost predicate NormalizesAt(v: Vector3) {
      LengthSquare(v) > 0.0 ==> invLength(v) > 0.0 && invLength(v) * invLength(v) * LengthSquare(v) == 1.0
    }
  }

  /** In-place normalisation of v. */
  function Normalize(lib: MathLibrary, v: Vector3): Vector3 {
    Scale(lib.invLength(v), v)
  }

  /** A unit vector is its own normalisation. */
  lemma NormalizeUnit(lib: MathLibrary, v: Vector3)
    requires lib.Sound() && LengthSquare(v) == 1.0
    ensures Normalize(lib, v) == v
  {
    var k := lib.invLength(v);
    assert lib.NormalizesAt(v);
    assert k > 0.0 && k * k == 1.0;
    assert (k - 1.0) * (k + 1.0) == 0.0;
    ZeroFactor(k - 1.0, k + 1.0);
  }

  /** The camera frame computed from a normalised up vector and the
      normalised backward direction F: R = nUp x F, U = F x R, D = F. */
  ghost predicate FrameFrom(lib: MathLibrary, e: Vector3, at: Vector3, up: Vector3, r: Vector3, u: Vector3, d: Vector3) {
    d == Normalize(lib, Sub(e, at)) && r == Cross(Normalize(lib, up), d) && u == Cross(d, r)
  }

  /** Such a frame is orthogonal and right-handed up to the length of R:
      R.D = U.D = U.R = 0 and R x U = |R|^2 D. */
  lemma FrameOrthogonal(nUp: Vector3, F: Vector3)
    ensures Dot(Cross(nUp, F), F) == 0.0
    ensures Dot(Cross(F, Cross(nUp, F)), F) == 0.0
    ensures Dot(Cross(F, Cross(nUp, F)), Cross(nUp, F)) == 0.0
    ensures Cross(Cross(nUp, F), Cross(F, Cross(nUp, F))) == Scale(LengthSquare(Cross(nUp, F)), F)
  {
    var r := Cross(nUp, F);
    CrossOrthogonal(nUp, F);
    CrossOrthogonal(F, r);
    TripleCross(r, F);
  }

  /** a x (b x a) = |a|^2 b - (a.b) a; with a.b = 0 only the first term stays. */
  lemma TripleCross(a: Vector3, b: Vector3)
    requires Dot(a, b) == 0.0
    ensures Cross(a, Cross(b, a)) == Scale(LengthSquare(a), b)
  {
    TripleCrossAxes(a, b);
  }

  /** The three components of a x (b x a) for a.b = 0. */
  lemma TripleCrossAxes(a: Vector3, b: Vector3)
    requires Dot(a, b) == 0.0
    ensures Cross(a, Cross(b, a)).x == LengthSquare(a) * b.x
    ensures Cross(a, Cross(b, a)).y == LengthSquare(a) * b.y
    ensures Cross(a, Cross(b, a)).z == LengthSquare(a) * b.z
  {
    TripleCrossX(a, b);
    TripleCrossY(a, b);
    TripleCrossZ(a, b);
  }

  lemma TripleCrossX(a: Vector3, b: Vector3)
    requires Dot(a, b) == 0.0
    ensures Cross(a, Cross(b, a)).x == LengthSquare(a) * b.x
  {
    TripleCrossComponent(a.x, a.y, a.z, b.x, b.y, b.z, LengthSquare(a));
  }

  lemma TripleCrossY(a: Vector3, b: Vector3)
    requires Dot(a, b) == 0.0
    ensures Cross(a, Cross(b, a)).y == LengthSquare(a) * b.y
  {
    TripleCrossComponent(a.y, a.z, a.x, b.y, b.z, b.x, LengthSquare(a));
  }

  lemma TripleCrossZ(a: Vector3, b: Vector3)
    requires Dot(a, b) == 0.0
    ensures Cross(a, Cross(b, a)).z == LengthSquare(a) * b.z
  {
    TripleCrossComponent(a.z, a.x, a.y, b.z, b.x, b.y, LengthSquare(a));
  }

  /** One component of a x (b x a) for a.b = 0 and k = |a|^2, with the axes
      named p, q, r in cyclic order. */
  lemma TripleCrossComponent(ap: real, aq: real, ar: real, bp: real, bq: real, br: real, k: real)
    requires ap * bp + aq * bq + ar * br == 0.0
    requires k == ap * ap + aq * aq + ar * ar
    ensures aq * (bp * aq - bq * ap) - ar * (br * ap - bp * ar) == k * bp
  {
    assert aq * (bp * aq - bq * ap) - ar * (br * ap - bp * ar)
        == (ap * ap + aq * aq + ar * ar) * bp - (ap * bp + aq * bq + ar * br) * ap;
  }

  /** Where a point ends up after flying `step` units ahead: the camera looks
      along -D, so the point moves by -step * D. */
  function Flown(p: Vector3, dir: Vector3, step: real): (q: Vector3)
    ensures Add(q, Scale(step, dir)) == p
  {
    Sub(p, Scale(step, dir))
  }

  /** Where a point ends up after walking `step` units ahead: like flying,
      but along the horizontal part (D.x, 0, D.z) of D, so the height is
      kept. */
  function Walked(p: Vector3, dir: Vector3, step: real): (q: Vector3)
    ensures q.y == p.y
    ensures Add(q, Scale(step, Vector3(dir.x, 0.0, dir.z))) == p
  {
    Sub(p, Scale(step, Vector3(dir.x, 0.0, dir.z)))
  }

  /** Moving a vector within the zero tolerance by (1, 1, 1) takes it out
      of the tolerance. */
  lemma NudgedNotZero(v: Vector3)
    requires IsZero(v)
    ensures !IsZero(Add(v, Vector3(1.0, 1.0, 1.0)))
  {
    assert Add(v, Vector3(1.0, 1.0, 1.0)).x > 1.0 - DistanceEpsilon;
  }

  /** Flying back undoes flying, and walking back undoes walking. */
  lemma MoveRoundTrip(p: Vector3, dir: Vector3, step: real)
    ensures Flown(Flown(p, dir, step), dir, -step) == p
    ensures Walked(Walked(p, dir, step), dir, -step) == p
  {
  }

  /** Moving two points by the same translation keeps their difference. */
  lemma MovePreservesOffset(e: Vector3, at: Vector3, dir: Vector3, step: real)
    ensures Sub(Flown(e, dir, step), Flown(at, dir, step)) == Sub(e, at)
    ensures Sub(Walked(e, dir, step), Walked(at, dir, step)) == Sub(e, at)
    ensures Sub(Add(e, Scale(step, dir)), Add(at, Scale(step, dir))) == Sub(e, at)
  {
  }

  /** The colinearity guard of `lookAt` AS WRITTEN: when the normalised view
      direction `va` and the normalised up vector are nearly parallel, add 1
      to up's x; if the dot product is still near 1 in size, add 1 to its y.
      The second test is a dot product with a vector that is no longer unit
      length, and it misses the case where the first step cancels up to the
      zero vector (see `LookAtUpCancels`). */
  function GuardedUp(va: Vector3, nUp: Vector3): (up: Vector3)
    ensures up.z == nUp.z
    ensures Abs(Dot(va, nUp)) <= 1.0 - AngleEpsilon ==> up == nUp
  {
    if Abs(Dot(va, nUp)) > 1.0 - AngleEpsilon then
      var up1 := Vector3(nUp.x + 1.0, nUp.y, nUp.z);
      if Abs(Dot(va, up1)) > 1.0 - AngleEpsilon then Vector3(up1.x, up1.y + 1.0, up1.z) else up1
    else
      nUp
  }

  /** Looking along +X with up -X: the guard turns up into the zero vector,
      so the frame built from it is degenerate. Here normalising the zero
      vector scales it, which gives R = U = 0; the exact values depend on
      how the vector library normalises a zero vector (in single precision
      it may give an undefined vector), but no valid frame results. */
  lemma LookAtUpCancels(lib: MathLibrary, va: Vector3, up: Vector3, d: Vector3)
    requires lib.Sound()
    requires va.x == 1.0 && va.y == 0.0 && va.z == 0.0
    requires up.x == -1.0 && up.y == 0.0 && up.z == 0.0
    ensures !IsZero(va)
    ensures GuardedUp(Normalize(lib, va), Normalize(lib, up)) == Zero
    ensures var r := Cross(Normalize(lib, GuardedUp(Normalize(lib, va), Normalize(lib, up))), d);
      r == Zero && Cross(d, r) == Zero
  {
    NormalizeUnit(lib, va);
    NormalizeUnit(lib, up);
    assert Abs(Dot(va, up)) == 1.0;
    var g := GuardedUp(va, up);
    assert g == Zero;
    assert Normalize(lib, g) == Scale(lib.invLength(g), g);
  }

  /** The guard as intended: the second test asks whether the shifted up is
      still parallel to `va` (or zero), which is what leaves the camera
      without a frame. This tests exact parallelism rather than the
      epsilon-based near parallelism of the first test, so the property
      proved of it (`GuardedUpIntendedNotParallel`) is "never exactly
      parallel", not "never nearly parallel". */
  function GuardedUpIntended(va: Vector3, nUp: Vector3): (up: Vector3)
    ensures Abs(Dot(va, nUp)) <= 1.0 - AngleEpsilon ==> up == nUp
  {
    if Abs(Dot(va, nUp)) > 1.0 - AngleEpsilon then
      var up1 := Vector3(nUp.x + 1.0, nUp.y, nUp.z);
      if Cross(va, up1) == Zero then Vector3(up1.x, up1.y + 1.0, up1.z) else up1
    else
      nUp
  }

  /** With the intended guard, for a unit view direction and a unit up vector
      the resulting up is never parallel to the view direction, so R = up x F
      is never zero. */
  lemma GuardedUpIntendedNotParallel(va: Vector3, nUp: Vector3)
    requires LengthSquare(va) == 1.0 && LengthSquare(nUp) == 1.0
    ensures Cross(va, GuardedUpIntended(va, nUp)) != Zero
  {
    var dot := Dot(va, nUp);
    if Abs(dot) <= 1.0 - AngleEpsilon {
      NotParallelWhenDotSmall(va, nUp);
    } else {
      var up1 := Vector3(nUp.x + 1.0, nUp.y, nUp.z);
      if Cross(va, up1) == Zero {
        ShiftedTwiceNotParallel(va, nUp);
      }
    }
  }

  /** For unit vectors, |a.b| <= 1 - eps forces a x b != 0 (Lagrange). */
  lemma NotParallelWhenDotSmall(a: Vector3, b: Vector3)
    requires LengthSquare(a) == 1.0 && LengthSquare(b) == 1.0
    requires Abs(Dot(a, b)) <= 1.0 - AngleEpsilon
    ensures Cross(a, b) != Zero
  {
    Lagrange(a, b);
    SmallCosineSquare(Dot(a, b));
    assert LengthSquare(Cross(a, b)) > 0.0;
  }

  /** |c| <= 1 - eps forces c^2 < 1. */
  lemma SmallCosineSquare(c: real)
    requires Abs(c) <= 1.0 - AngleEpsilon
    ensures 1.0 * 1.0 - c * c > 0.0
  {
    SquareMonotonic(Abs(c), 1.0 - AngleEpsilon);
    assert Abs(c) * Abs(c) == c * c;
  }

  /** If adding 1 to up's x leaves it parallel to the unit vector va, then
      adding 1 to its y as well cannot, unless va.up = 0. */
  lemma ShiftedTwiceNotParallel(va: Vector3, nUp: Vector3)
    requires LengthSquare(nUp) == 1.0
    requires Abs(Dot(va, nUp)) > 1.0 - AngleEpsilon
    requires Cross(va, Vector3(nUp.x + 1.0, nUp.y, nUp.z)) == Zero
    ensures Cross(va, Vector3(nUp.x + 1.0, nUp.y + 1.0, nUp.z)) != Zero
  {
    if Cross(va, Vector3(nUp.x + 1.0, nUp.y + 1.0, nUp.z)) == Zero {
      BothShiftsParallel(va, nUp);
    }
  }

  /** If va is parallel both to up + (1, 0, 0) and to up + (1, 1, 0), and up
      is a unit vector, then va is orthogonal to up. */
  lemma BothShiftsParallel(va: Vector3, nUp: Vector3)
    requires LengthSquare(nUp) == 1.0
    requires Cross(va, Vector3(nUp.x + 1.0, nUp.y, nUp.z)) == Zero
    requires Cross(va, Vector3(nUp.x + 1.0, nUp.y + 1.0, nUp.z)) == Zero
    ensures Dot(va, nUp) == 0.0
  {
    var up1 := Vector3(nUp.x + 1.0, nUp.y, nUp.z);
    CrossShiftY(va, up1);
    assert va.x == 0.0 && va.z == 0.0;
    if va.y != 0.0 {
      YAxisCross(va, up1);
      UnitWithoutY(nUp.x, nUp.y, nUp.z);
    }
  }

  /** Adding 1 to the y of b adds (-a.z, 0, a.x) to a x b. */
  lemma CrossShiftY(a: Vector3, b: Vector3)
    ensures Cross(a, Vector3(b.x, b.y + 1.0, b.z)) == Add(Cross(a, b), Vector3(-a.z, 0.0, a.x))
  {
  }

  /** A vector parallel to a non-zero multiple of +Y has no x or z part. */
  lemma YAxisCross(a: Vector3, b: Vector3)
    requires a.x == 0.0 && a.z == 0.0 && a.y != 0.0
    requires Cross(a, b) == Zero
    ensures b.x == 0.0 && b.z == 0.0
  {
    assert a.y * b.z == 0.0 && a.y * b.x == 0.0;
    ZeroFactor(b.z, a.y);
    ZeroFactor(b.x, a.y);
  }

  /** The unit vector (-1, y, 0) has y = 0. */
  lemma UnitWithoutY(x: real, y: real, z: real)
    requires x * x + y * y + z * z == 1.0
    requires x == -1.0 && z == 0.0
    ensures y == 0.0
  {
    assert Abs(y) * Abs(y) == 0.0 * 0.0;
    SquareMonotonic(Abs(y), 0.0);
  }

  datatype Kind = Perspective | Orthographic

  class Camera {
    const kind: Kind
    const lib: MathLibrary
    /** View (world to camera) and projection transformations. */
    var viewTrfm: Trfm
    var projTrfm: Trfm
    /** The arguments of the last completed `LookAt`, for `GoLast`. */
    var lastE: Vector3
    var lastAt: Vector3
    var lastUp: Vector3
    /** Eye, target and up vector. */
    var E: Vector3
    var At: Vector3
    var Up: Vector3
    /** Camera frame: right, up and backward (D points away from At). */
    var R: Vector3
    var U: Vector3
    var D: Vector3
    /** Frustum planes: left, right, bottom, top, near, far. */
    const fPlanes: array<Plane>
    /** Projection parameters. `fovy` and `aspect` are used by perspective
        cameras only. */
    var near: real
    var far: real
    var left: real
    var right: real
    var bottom: real
    var top: real
    var fovy: real
    var aspect: real

    /** What holds between any two operations, apart from the frame. */
    ghost predicate Consistent()
      reads this
    {
      lib.Sound() && fPlanes.Length == MaxClipPlanes && !IsZero(Sub(lastAt, lastE))
    }

    /** The class invariant: the frame (R, U, D) is the one computed from
        E, At and Up. */
    ghost predicate Valid()
      reads this
    {
      Consistent() && FrameFrom(lib, E, At, Up, R, U, D)
    }

    /** The frustum planes are those of the current projection * view
        matrix. */
    ghost predicate PlanesCurrent()
      reads this, fPlanes
    {
      fPlanes[..] == FrustumPlanes(lib.clipMatrix(projTrfm, viewTrfm))
    }

    /** A perspective camera: looking from the origin towards -Z with up +Y,
        frame (X, Y, Z), fovy 60 degrees, near 0.1, far 1500, aspect 1 and
        the frustum bounds stored verbatim. The planes are left
        default-constructed. */
    constructor PerspectiveCamera(lib: MathLibrary)
      requires lib.Sound()
      ensures Consistent() && kind == Perspective && this.lib == lib
      ensures fresh(fPlanes) && fPlanes[..] == seq(MaxClipPlanes, _ => lib.defaultPlane)
      ensures viewTrfm == Identity && projTrfm == FrustumProjection(-0.034451, 0.034451, -0.026795, 0.026795, 0.1, 1500.0)
      ensures lastE == Zero && lastAt == Vector3(0.0, 0.0, -1.0) && lastUp == Vector3(0.0, 0.0, -1.0)
      ensures E == Zero && At == Vector3(0.0, 0.0, -1.0) && Up == UnitY && R == UnitX && U == UnitY && D == UnitZ
      ensures fovy == 60.0 * lib.degreeToRad && near == 0.1 && far == 1500.0 && aspect == 1.0
      ensures left == -0.034451 && right == 0.034451 && bottom == -0.026795 && top == 0.026795
    {
      kind := Perspective;
      this.lib := lib;
      viewTrfm := Identity;
      lastE := Zero;
      lastAt := Vector3(0.0, 0.0, -1.0);
      lastUp := Vector3(0.0, 0.0, -1.0);
      E := Zero;
      At := Vector3(0.0, 0.0, -1.0);
      Up := UnitY;
      R := UnitX;
      U := UnitY;
      D := UnitZ;
      fPlanes := new Plane[MaxClipPlanes](_ => lib.defaultPlane);
      fovy := 60.0 * lib.degreeToRad;
      near := 0.1;
      far := 1500.0;
      aspect := 1.0;
      left := -0.034451;
      bottom := -0.026795;
      right := 0.034451;
      top := 0.026795;
      projTrfm := FrustumProjection(-0.034451, 0.034451, -0.026795, 0.026795, 0.1, 1500.0);
      new;
      assert Sub(lastAt, lastE).z == -1.0;
    }

    /** An orthographic camera: the same initial pose and bounds as the
        perspective one, with an orthographic projection. */
    constructor OrthographicCamera(lib: MathLibrary)
      requires lib.Sound()
      ensures Consistent() && kind == Orthographic && this.lib == lib
      ensures fresh(fPlanes) && fPlanes[..] == seq(MaxClipPlanes, _ => lib.defaultPlane)
      ensures viewTrfm == Identity && projTrfm == OrthoProjection(-0.034451, 0.034451, -0.026795, 0.026795, 0.1, 1500.0)
      ensures lastE == Zero && lastAt == Vector3(0.0, 0.0, -1.0) && lastUp == Vector3(0.0, 0.0, -1.0)
      ensures E == Zero && At == Vector3(0.0, 0.0, -1.0) && Up == UnitY && R == UnitX && U == UnitY && D == UnitZ
      ensures near == 0.1 && far == 1500.0
      ensures left == -0.034451 && right == 0.034451 && bottom == -0.026795 && top == 0.026795
    {
      kind := Orthographic;
      this.lib := lib;
      viewTrfm := Identity;
      lastE := Zero;
      lastAt := Vector3(0.0, 0.0, -1.0);
      lastUp := Vector3(0.0, 0.0, -1.0);
      E := Zero;
      At := Vector3(0.0, 0.0, -1.0);
      Up := UnitY;
      R := UnitX;
      U := UnitY;
      D := UnitZ;
      fPlanes := new Plane[MaxClipPlanes](_ => lib.defaultPlane);
      near := 0.1;
      far := 1500.0;
      left := -0.034451;
      bottom := -0.026795;
      right := 0.034451;
      top := 0.026795;
      projTrfm := OrthoProjection(-0.034451, 0.034451, -0.026795, 0.026795, 0.1, 1500.0);
      new;
      assert Sub(lastAt, lastE).z == -1.0;
    }

    /** Recomputes the six frustum planes from the projection * view matrix
        (see `ClipPlane`); all six are marked not normalised. */
    method UpdateFrustumPlanes()
      requires fPlanes.Length == MaxClipPlanes
      modifies fPlanes
      ensures PlanesCurrent()
      ensures forall i :: 0 <= i < MaxClipPlanes ==> !fPlanes[i].isNorm
    {
      var M := lib.clipMatrix(projTrfm, viewTrfm);
      fPlanes[0] := Plane(Vector3(-M[3] - M[0], -M[7] - M[4], -M[11] - M[8]), M[15] + M[12], false);
      fPlanes[1] := Plane(Vector3(-M[3] + M[0], -M[7] + M[4], -M[11] + M[8]), M[15] - M[12], false);
      fPlanes[2] := Plane(Vector3(-M[3] - M[1], -M[7] - M[5], -M[11] - M[9]), M[15] + M[13], false);
      fPlanes[3] := Plane(Vector3(-M[3] + M[1], -M[7] + M[5], -M[11] + M[9]), M[15] - M[13], false);
      fPlanes[4] := Plane(Vector3(-M[3] - M[2], -M[7] - M[6], -M[11] - M[10]), M[15] + M[14], false);
      fPlanes[5] := Plane(Vector3(-M[3] + M[2], -M[7] + M[6], -M[11] + M[10]), M[15] - M[14], false);
      assert fPlanes[..] == FrustumPlanes(M);
    }

    /** Classifies a box against the frustum: 1 outside (some plane rejects
        it on its positive side, found with an early return), -1 inside
        (every plane rejects it on its negative side), 0 otherwise. Nothing
        is modified. The source's bit-mask argument is never used. */
    method CheckFrustum(b: BBox) returns (r: int)
      requires fPlanes.Length == MaxClipPlanes
      ensures r == FrustumVerdict(fPlanes[..], b)
    {
      var intersecta := -1;
      var i := 0;
      while i < MaxClipPlanes
        invariant 0 <= i <= MaxClipPlanes
        invariant forall k :: 0 <= k < i ==> BBoxPlaneIntersect(b, fPlanes[k]) != IReject
        invariant intersecta == if forall k :: 0 <= k < i ==> BBoxPlaneIntersect(b, fPlanes[k]) == -IReject then -1 else 0
      {
        var resul := BBoxPlaneIntersect(b, fPlanes[i]);
        if resul == IIntersect {
          intersecta := 0;
        } else if resul == IReject {
          assert fPlanes[..][i] == fPlanes[i];
          return 1;
        }
        i := i + 1;
      }
      assert forall k :: 0 <= k < MaxClipPlanes ==> fPlanes[..][k] == fPlanes[k];
      return intersecta;
    }

    /** Rebuilds the view transformation from the eye and the frame, then the
        frustum planes. */
    method SetViewTrfm()
      requires fPlanes.Length == MaxClipPlanes
      modifies this`viewTrfm, fPlanes
      ensures viewTrfm == World2Local(E, R, U, D)
      ensures PlanesCurrent()
    {
      viewTrfm := World2Local(E, R, U, D);
      UpdateFrustumPlanes();
    }

    /** Computes the frame from E, At and Up: F = normalise(E - At),
        R = normalise(Up) x F, U = F x R, D = F; then the view
        transformation. The resulting frame is orthogonal (see
        `ValidFrameOrthogonal`). */
    method UpdateFrame()
      requires Consistent()
      modifies this`R, this`U, this`D, this`viewTrfm, fPlanes
      ensures Valid() && PlanesCurrent()
      ensures viewTrfm == World2Local(E, R, U, D)
    {
      var F := Normalize(lib, Sub(E, At));
      R := Normalize(lib, Up);
      R := Cross(R, F);
      U := F;
      U := Cross(U, R);
      D := F;
      SetViewTrfm();
    }

    /** Points the camera from `e` towards `at` with up vector `up`. A
        target too near the eye is moved by (1, 1, 1); an up vector nearly
        parallel to the view direction is shifted (see `GuardedUp`). The
        result is remembered for `GoLast`, and the frame is recomputed. */
    method LookAt(e: Vector3, at: Vector3, up: Vector3)
      requires Consistent()
      modifies this`E, this`At, this`Up, this`lastE, this`lastAt, this`lastUp
      modifies this`R, this`U, this`D, this`viewTrfm, fPlanes
      ensures Valid() && PlanesCurrent()
      ensures E == e
      ensures At == if IsZero(Sub(at, e)) then Add(at, Vector3(1.0, 1.0, 1.0)) else at
      ensures !IsZero(Sub(At, E))
      ensures Up == GuardedUp(Normalize(lib, Sub(At, E)), Normalize(lib, up))
      ensures lastE == E && lastAt == At && lastUp == Up
      ensures viewTrfm == World2Local(E, R, U, D)
    {
      E := e;
      At := at;
      Up := Normalize(lib, up);
      var VA := Sub(at, e);
      if IsZero(VA) {
        NudgedNotZero(VA);
        At := Add(At, Vector3(1.0, 1.0, 1.0));
        VA := Add(VA, Vector3(1.0, 1.0, 1.0));
      }
      assert VA == Sub(At, E) && !IsZero(VA);
      VA := Normalize(lib, VA);
      Up := GuardedUp(VA, Up);
      lastE := E;
      lastAt := At;
      lastUp := Up;
      UpdateFrame();
    }

    /** Looks again with the arguments of the last `LookAt`: the eye and the
        target come back to where that call put them. */
    method GoLast()
      requires Valid()
      modifies this`E, this`At, this`Up, this`lastE, this`lastAt, this`lastUp
      modifies this`R, this`U, this`D, this`viewTrfm, fPlanes
      ensures Valid() && PlanesCurrent()
      ensures E == old(lastE) && At == old(lastAt)
      ensures Up == GuardedUp(Normalize(lib, Sub(At, E)), Normalize(lib, old(lastUp)))
      ensures lastE == E && lastAt == At && lastUp == Up
      ensures viewTrfm == World2Local(E, R, U, D)
    {
      LookAt(lastE, lastAt, lastUp);
    }

    /** Flies `step` units ahead (along -D): E and At move together, so the
        view direction and the frame are kept. */
    method Fly(step: real)
      requires Valid()
      modifies this`E, this`At, this`viewTrfm, fPlanes
      ensures Valid() && PlanesCurrent()
      ensures E == Flown(old(E), D, step) && At == Flown(old(At), D, step)
      ensures Sub(At, E) == old(Sub(At, E))
      ensures viewTrfm == World2Local(E, R, U, D)
    {
      MovePreservesOffset(E, At, D, step);
      E := Sub(E, Scale(step, D));
      At := Sub(At, Scale(step, D));
      SetViewTrfm();
    }

    /** Walks `step` units ahead along the horizontal part of -D: heights
        are kept, and so are the view direction and the frame. */
    method Walk(step: real)
      requires Valid()
      modifies this`E, this`At, this`viewTrfm, fPlanes
      ensures Valid() && PlanesCurrent()
      ensures E == Walked(old(E), D, step) && At == Walked(old(At), D, step)
      ensures E.y == old(E.y) && At.y == old(At.y)
      ensures Sub(At, E) == old(Sub(At, E))
      ensures viewTrfm == World2Local(E, R, U, D)
    {
      MovePreservesOffset(E, At, D, step);
      var mover := Vector3(D.x, 0.0, D.z);
      mover := Scale(step, mover);
      E := Sub(E, mover);
      At := Sub(At, mover);
      SetViewTrfm();
    }

    /** Moves `step` units along R (sideways). */
    method PanX(step: real)
      requires Valid()
      modifies this`E, this`At, this`viewTrfm, fPlanes
      ensures Valid() && PlanesCurrent()
      ensures E == Add(old(E), Scale(step, R)) && At == Add(old(At), Scale(step, R))
      ensures Sub(At, E) == old(Sub(At, E))
      ensures viewTrfm == World2Local(E, R, U, D)
    {
      MovePreservesOffset(E, At, R, step);
      E := Add(E, Scale(step, R));
      At := Add(At, Scale(step, R));
      SetViewTrfm();
    }

    /** Moves `step` units along U (up and down the screen). */
    method PanY(step: real)
      requires Valid()
      modifies this`E, this`At, this`viewTrfm, fPlanes
      ensures Valid() && PlanesCurrent()
      ensures E == Add(old(E), Scale(step, U)) && At == Add(old(At), Scale(step, U))
      ensures Sub(At, E) == old(Sub(At, E))
      ensures viewTrfm == World2Local(E, R, U, D)
    {
      MovePreservesOffset(E, At, U, step);
      E := Add(E, Scale(step, U));
      At := Add(At, Scale(step, U));
      SetViewTrfm();
    }

    /** Turns the target and the up vector about the axis R through the
        eye, then recomputes the frame. */
    method Pitch(angle: real)
      requires Valid()
      modifies this`At, this`Up, this`R, this`U, this`D, this`viewTrfm, fPlanes
      ensures Valid() && PlanesCurrent()
      ensures At == lib.rotatePoint(old(R), E, angle, old(At))
      ensures Up == lib.rotateVector(old(R), E, angle, old(Up))
      ensures viewTrfm == World2Local(E, R, U, D)
    {
      At := lib.rotatePoint(R, E, angle, At);
      Up := lib.rotateVector(R, E, angle, Up);
      UpdateFrame();
    }

    /** Turns the target and the up vector about the axis U through the
        eye. */
    method Yaw(angle: real)
      requires Valid()
      modifies this`At, this`Up, this`R, this`U, this`D, this`viewTrfm, fPlanes
      ensures Valid() && PlanesCurrent()
      ensures At == lib.rotatePoint(old(U), E, angle, old(At))
      ensures Up == lib.rotateVector(old(U), E, angle, old(Up))
      ensures viewTrfm == World2Local(E, R, U, D)
    {
      At := lib.rotatePoint(U, E, angle, At);
      Up := lib.rotateVector(U, E, angle, Up);
      UpdateFrame();
    }

    /** Turns the target and the up vector about the axis D through the eye,
        by -angle. */
    method Roll(angle: real)
      requires Valid()
      modifies this`At, this`Up, this`R, this`U, this`D, this`viewTrfm, fPlanes
      ensures Valid() && PlanesCurrent()
      ensures At == lib.rotatePoint(old(D), E, -angle, old(At))
      ensures Up == lib.rotateVector(old(D), E, -angle, old(Up))
      ensures viewTrfm == World2Local(E, R, U, D)
    {
      At := lib.rotatePoint(D, E, -angle, At);
      Up := lib.rotateVector(D, E, -angle, Up);
      UpdateFrame();
    }

    /** Turns the target and the up vector about the world's Y axis through
        the eye. */
    method ViewYWorld(angle: real)
      requires Valid()
      modifies this`At, this`Up, this`R, this`U, this`D, this`viewTrfm, fPlanes
      ensures Valid() && PlanesCurrent()
      ensures At == lib.rotatePoint(UnitY, E, angle, old(At))
      ensures Up == lib.rotateVector(UnitY, E, angle, old(Up))
      ensures viewTrfm == World2Local(E, R, U, D)
    {
      At := lib.rotatePoint(UnitY, E, angle, At);
      Up := lib.rotateVector(UnitY, E, angle, Up);
      UpdateFrame();
    }

    /** Turns the eye and the up vector about the axis R through the
        target. */
    method ArcOverUnder(angle: real)
      requires Valid()
      modifies this`E, this`Up, this`R, this`U, this`D, this`viewTrfm, fPlanes
      ensures Valid() && PlanesCurrent()
      ensures E == lib.rotatePoint(old(R), At, angle, old(E))
      ensures Up == lib.rotateVector(old(R), At, angle, old(Up))
      ensures viewTrfm == World2Local(E, R, U, D)
    {
      E := lib.rotatePoint(R, At, angle, E);
      Up := lib.rotateVector(R, At, angle, Up);
      UpdateFrame();
    }

    /** Turns the eye and the up vector about the world's Y axis through the
        target. */
    method ArcLeftRight(angle: real)
      requires Valid()
      modifies this`E, this`Up, this`R, this`U, this`D, this`viewTrfm, fPlanes
      ensures Valid() && PlanesCurrent()
      ensures E == lib.rotatePoint(UnitY, At, angle, old(E))
      ensures Up == lib.rotateVector(UnitY, At, angle, old(Up))
      ensures viewTrfm == World2Local(E, R, U, D)
    {
      E := lib.rotatePoint(UnitY, At, angle, E);
      Up := lib.rotateVector(UnitY, At, angle, Up);
      UpdateFrame();
    }

    /** The projection transformation the current bounds call for. */
    ghost function Projection(): Trfm
      reads this
    {
      match kind
      case Perspective => FrustumProjection(left, right, bottom, top, near, far)
      case Orthographic => OrthoProjection(left, right, bottom, top, near, far)
    }

    /** Recomputes the projection. A perspective camera first derives a
        symmetric frustum from (near, fovy, aspect): top = near tan(fovy/2),
        bottom = -top, right = aspect top, left = -right. An orthographic
        camera keeps its bounds. Then the frustum planes are rebuilt. */
    method UpdateProjection()
      requires fPlanes.Length == MaxClipPlanes
      modifies this`left, this`right, this`bottom, this`top, this`projTrfm, fPlanes
      ensures PlanesCurrent() && projTrfm == Projection()
      ensures kind == Perspective ==>
        top == near * lib.tan(fovy / 2.0) && bottom + top == 0.0 && left + right == 0.0 && right == aspect * top
      ensures kind == Orthographic ==>
        left == old(left) && right == old(right) && bottom == old(bottom) && top == old(top)
    {
      if kind == Perspective {
        top := near * lib.tan(fovy / 2.0);
        bottom := -top;
        right := aspect * top;
        left := -right;
        projTrfm := FrustumProjection(left, right, bottom, top, near, far);
      } else {
        projTrfm := OrthoProjection(left, right, bottom, top, near, far);
      }
      UpdateFrustumPlanes();
    }

    /** Sets the perspective parameters, then the projection. */
    method InitPerspective(fovy: real, aspect: real, near: real, far: real)
      requires kind == Perspective && fPlanes.Length == MaxClipPlanes
      modifies this`fovy, this`aspect, this`near, this`far
      modifies this`left, this`right, this`bottom, this`top, this`projTrfm, fPlanes
      ensures this.fovy == fovy && this.aspect == aspect && this.near == near && this.far == far
      ensures top == near * lib.tan(fovy / 2.0) && bottom + top == 0.0 && left + right == 0.0 && right == aspect * top
      ensures PlanesCurrent() && projTrfm == Projection()
    {
      this.fovy := fovy;
      this.aspect := aspect;
      this.near := near;
      this.far := far;
      UpdateProjection();
    }

    /** Sets the orthographic bounds, then the projection. */
    method InitOrthographic(left: real, right: real, bottom: real, top: real, near: real, far: real)
      requires kind == Orthographic && fPlanes.Length == MaxClipPlanes
      modifies this`near, this`far
      modifies this`left, this`right, this`bottom, this`top, this`projTrfm, fPlanes
      ensures this.left == left && this.right == right && this.bottom == bottom && this.top == top
      ensures this.near == near && this.far == far
      ensures PlanesCurrent() && projTrfm == OrthoProjection(left, right, bottom, top, near, far)
    {
      this.left := left;
      this.right := right;
      this.bottom := bottom;
      this.top := top;
      this.near := near;
      this.far := far;
      UpdateProjection();
    }

    /** Window resize: a perspective camera takes aspect = w / h, or 1 when
        h is not positive, and recomputes its projection; an orthographic
        camera ignores it. */
    method OnResize(w: int, h: int)
      requires fPlanes.Length == MaxClipPlanes
      modifies this`aspect, this`left, this`right, this`bottom, this`top, this`projTrfm, fPlanes
      ensures kind == Perspective ==> (if h > 0 then aspect * (h as real) == w as real else aspect == 1.0)
      ensures kind == Perspective ==> PlanesCurrent() && projTrfm == Projection()
      ensures kind == Perspective ==>
        top == near * lib.tan(fovy / 2.0) && bottom + top == 0.0 && left + right == 0.0 && right == aspect * top
      ensures kind == Orthographic ==> unchanged(this) && unchanged(fPlanes)
    {
      if kind == Perspective {
        if h > 0 {
          aspect := (w as real) / (h as real);
        } else {
          aspect := 1.0;
        }
        UpdateProjection();
      }
    }

    /** Zoom: a perspective camera takes `angle` as its fovy and recomputes
        its projection; an orthographic camera ignores it. */
    method Zoom(angle: real)
      requires fPlanes.Length == MaxClipPlanes
      modifies this`fovy, this`left, this`right, this`bottom, this`top, this`projTrfm, fPlanes
      ensures kind == Perspective ==> GetZoom() == angle && PlanesCurrent() && projTrfm == Projection()
      ensures kind == Perspective ==>
        top == near * lib.tan(angle / 2.0) && bottom + top == 0.0 && left + right == 0.0 && right == aspect * top
      ensures kind == Orthographic ==> unchanged(this) && unchanged(fPlanes) && GetZoom() == 0.0
    {
      if kind == Perspective {
        fovy := angle;
        UpdateProjection();
      }
    }

    /** The zoom angle: fovy for a perspective camera, 0 otherwise. */
    function GetZoom(): (angle: real)
      reads this
      ensures kind == Perspective ==> angle == fovy
      ensures kind == Orthographic ==> angle == 0.0
    {
      if kind == Perspective then fovy else 0.0
    }

    /** Sets the far distance, then the projection. */
    method SetFar(far: real)
      requires fPlanes.Length == MaxClipPlanes
      modifies this`far, this`left, this`right, this`bottom, this`top, this`projTrfm, fPlanes
      ensures GetFar() == far && near == old(near)
      ensures PlanesCurrent() && projTrfm == Projection()
      ensures kind == Perspective ==>
        top == near * lib.tan(fovy / 2.0) && bottom + top == 0.0 && left + right == 0.0 && right == aspect * top
      ensures kind == Orthographic ==>
        left == old(left) && right == old(right) && bottom == old(bottom) && top == old(top)
    {
      this.far := far;
      UpdateProjection();
    }

    function GetFar(): (far: real)
      reads this
      ensures far == this.far
    {
      this.far
    }

    /** Sets the near distance, then the projection (for a perspective
        camera the frustum bounds scale with it). */
    method SetNear(near: real)
      requires fPlanes.Length == MaxClipPlanes
      modifies this`near, this`left, this`right, this`bottom, this`top, this`projTrfm, fPlanes
      ensures GetNear() == near && far == old(far)
      ensures PlanesCurrent() && projTrfm == Projection()
      ensures kind == Perspective ==>
        top == near * lib.tan(fovy / 2.0) && bottom + top == 0.0 && left + right == 0.0 && right == aspect * top
      ensures kind == Orthographic ==>
        left == old(left) && right == old(right) && bottom == old(bottom) && top == old(top)
    {
      this.near := near;
      UpdateProjection();
    }

    function GetNear(): (near: real)
      reads this
      ensures near == this.near
    {
      this.near
    }

    function GetPosition(): (p: Vector3)
      reads this
      ensures p == E
    {
      E
    }

    /** The viewing direction: the opposite of D. */
    function GetDirection(): (dir: Vector3)
      reads this
      ensures Add(dir, D) == Zero
    {
      Scale(-1.0, D)
    }
  }

  /** The initial pose (eye at the origin, target (0, 0, -1), up +Y) has the
      frame (X, Y, Z). */
  lemma InitialFrame(lib: MathLibrary, e: Vector3, at: Vector3, up: Vector3, r: Vector3, u: Vector3, d: Vector3)
    requires lib.Sound()
    requires e == Zero && at == Vector3(0.0, 0.0, -1.0) && up == UnitY
    requires r == UnitX && u == UnitY && d == UnitZ
    ensures FrameFrom(lib, e, at, up, r, u, d)
  {
    InitialBackward(lib, e, at, d);
    InitialRight(lib, up, r, d);
    assert u == Cross(d, r);
  }

  /** A freshly constructed camera satisfies the class invariant: its
      literal frame (X, Y, Z) is the one computed from its literal pose. */
  lemma InitialValid(c: Camera)
    requires c.Consistent()
    requires c.E == Zero && c.At == Vector3(0.0, 0.0, -1.0) && c.Up == UnitY
    requires c.R == UnitX && c.U == UnitY && c.D == UnitZ
    ensures c.Valid()
  {
    InitialFrame(c.lib, c.E, c.At, c.Up, c.R, c.U, c.D);
  }

  /** In the initial pose, normalise(E - At) is +Z. */
  lemma InitialBackward(lib: MathLibrary, e: Vector3, at: Vector3, d: Vector3)
    requires lib.Sound()
    requires e == Zero && at == Vector3(0.0, 0.0, -1.0) && d == UnitZ
    ensures d == Normalize(lib, Sub(e, at))
  {
    assert Sub(e, at) == d;
    NormalizeUnit(lib, d);
  }

  /** In the initial pose, normalise(Up) x D is +X. */
  lemma InitialRight(lib: MathLibrary, up: Vector3, r: Vector3, d: Vector3)
    requires lib.Sound()
    requires up == UnitY && r == UnitX && d == UnitZ
    ensures r == Cross(Normalize(lib, up), d)
  {
    NormalizeUnit(lib, up);
  }

  /** The frame of a camera satisfying its invariant is orthogonal and
      right-handed up to the length of R. */
  lemma ValidFrameOrthogonal(c: Camera)
    requires c.Valid()
    ensures Dot(c.R, c.D) == 0.0 && Dot(c.U, c.D) == 0.0 && Dot(c.U, c.R) == 0.0
    ensures Cross(c.R, c.U) == Scale(LengthSquare(c.R), c.D)
  {
    FrameOrthogonal(Normalize(c.lib, c.Up), c.D);
  }

  /** Whenever the camera's invariant holds and the eye is not at the
      target, the viewing direction is the unit vector from the eye towards
      the target. */
  lemma DirectionTowardsTarget(c: Camera)
    requires c.Valid() && LengthSquare(Sub(c.E, c.At)) > 0.0
    ensures c.lib.invLength(Sub(c.E, c.At)) > 0.0
    ensures c.GetDirection() == Scale(c.lib.invLength(Sub(c.E, c.At)), Sub(c.At, c.E))
    ensures LengthSquare(c.GetDirection()) == 1.0
  {
    var v := Sub(c.E, c.At);
    var k := c.lib.invLength(v);
    assert c.lib.NormalizesAt(v);
    assert k > 0.0 && k * k * LengthSquare(v) == 1.0;
    assert c.GetDirection() == Scale(k, Sub(c.At, c.E));
    assert LengthSquare(Scale(k, Sub(c.At, c.E))) == k * k * LengthSquare(v);
  }
}
