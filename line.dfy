/** A line (or ray) given by an origin and a direction, updated in place by
    assignment and by `SetFromAtoB`. */
module Lines {
  import opened Geometry

  class Line {
    /** Origin. */
    var O: Vector3
    /** Direction (expected unit length for parametric distances to be metric). */
    var d: Vector3

    /** The default line: through the origin, along +Y. */
    constructor ()
      ensures O == Zero && d == UnitY
    {
      O := Zero;
      d := UnitY;
    }

    /** A line with the given origin and direction, stored verbatim. */
    constructor FromOriginDirection(o: Vector3, dir: Vector3)
      ensures O == o && d == dir
    {
      O := o;
      d := dir;
    }

    /** Copy constructor. */
    constructor Copy(line: Line)
      ensures O == line.O && d == line.d
    {
      O := line.O;
      d := line.d;
    }

    /** Assignment operator: copies both fields unless `line` is this very
        object; either way the result is a line equal to the old `line`,
        and self-assignment leaves it unchanged. Returns the assigned line. */
    method Assign(line: Line) returns (self: Line)
      modifies this
      ensures self == this
      ensures O == old(line.O) && d == old(line.d)
      ensures line == this ==> O == old(O) && d == old(d)
    {
      if line != this {
        O := line.O;
        d := line.d;
      }
      self := this;
    }

    /** Sets the line through A (parameter 0) and B (parameter 1). The source
        does not compile as written (it uses `this.` on a pointer and `->` on
        references); this is its evident intent. The "A and B not too close"
        check its comment asks for is not implemented there, so not here. */
    method SetFromAtoB(A: Vector3, B: Vector3)
      modifies this
      ensures O == A && d == Sub(B, A)
      ensures Add(O, d) == B
    {
      O := A;
      d := Sub(B, A);
    }

    /** Unimplemented in the source: returns a default-constructed vector
        (taken to be the zero vector) whatever `u` is, so it agrees with
        the documented point O + u d only when that point is the origin. */
    function At(u: real): (p: Vector3)
      reads this
      ensures p == PointAt(O, d, u) <==> PointAt(O, d, u) == Zero
    {
      Zero
    }

    /** Unimplemented in the source: returns 0 whatever `P` is, so it
        agrees with the documented nearest parameter only when the foot of
        P on the line is O itself. */
    function ParamDistance(P: Vector3): (u: real)
      reads this
      ensures LengthSquare(d) != 0.0 ==> (u == NearestParameter(O, d, P) <==> Dot(d, Sub(P, O)) == 0.0)
    {
      0.0
    }

    /** Unimplemented in the source: returns 0 whatever `P` is, so its
        square agrees with the documented squared distance
        |P - (O + u0 d)|^2 only when that distance is zero. */
    function Distance(P: Vector3): (dist: real)
      reads this
      ensures LengthSquare(d) != 0.0 ==>
        (dist * dist == LengthSquare(Sub(P, PointAt(O, d, NearestParameter(O, d, P))))
         <==> LengthSquare(Sub(P, PointAt(O, d, NearestParameter(O, d, P)))) == 0.0)
    {
      0.0
    }
  }

  /** The point at parameter u of the line through o with direction dir, as
      the source's comments document `at` (not implemented there). */
  ghost function PointAt(o: Vector3, dir: Vector3, u: real): Vector3 {
    Add(o, Scale(u, dir))
  }

  /** The documented but unimplemented `paramDistance`:
      u0 = D.(P - O) / (D.D). */
  ghost function NearestParameter(o: Vector3, dir: Vector3, p: Vector3): real
    requires LengthSquare(dir) != 0.0
  {
    Dot(dir, Sub(p, o)) / LengthSquare(dir)
  }

  /** The documented intent of `paramDistance` is sound: u0 gives the point of
      the line nearest to P, i.e. it minimises the squared distance. */
  lemma NearestParameterMinimises(o: Vector3, dir: Vector3, p: Vector3, u: real)
    requires LengthSquare(dir) != 0.0
    ensures LengthSquare(Sub(p, PointAt(o, dir, NearestParameter(o, dir, p))))
         <= LengthSquare(Sub(p, PointAt(o, dir, u)))
  {
    var u0 := NearestParameter(o, dir, p);
    LengthSquareNonNegative(dir);
    DistanceAlongLine(o, dir, p, u0);
    DistanceAlongLine(o, dir, p, u);
    QuadraticMinimum(LengthSquare(Sub(p, o)), Dot(dir, Sub(p, o)), LengthSquare(dir), u0, u);
  }

  /** |P - (O + t D)|^2 = |P - O|^2 - 2 t (D.(P - O)) + t^2 |D|^2. */
  lemma DistanceAlongLine(o: Vector3, dir: Vector3, p: Vector3, t: real)
    ensures LengthSquare(Sub(p, PointAt(o, dir, t)))
         == LengthSquare(Sub(p, o)) - 2.0 * t * Dot(dir, Sub(p, o)) + t * t * LengthSquare(dir)
  {
    var w := Sub(p, o);
    assert Sub(p, PointAt(o, dir, t)) == Vector3(w.x - t * dir.x, w.y - t * dir.y, w.z - t * dir.z);
    ComponentAlongLine(w.x, dir.x, t);
    ComponentAlongLine(w.y, dir.y, t);
    ComponentAlongLine(w.z, dir.z, t);
    SumAlongLine((w.x - t * dir.x) * (w.x - t * dir.x), (w.y - t * dir.y) * (w.y - t * dir.y),
                 (w.z - t * dir.z) * (w.z - t * dir.z), w.x * w.x, w.y * w.y, w.z * w.z,
                 dir.x * w.x, dir.y * w.y, dir.z * w.z, dir.x * dir.x, dir.y * dir.y, dir.z * dir.z, t);
  }

  /** Adding up the three coordinates of the expansion. */
  lemma SumAlongLine(x1: real, x2: real, x3: real, a1: real, a2: real, a3: real,
                     b1: real, b2: real, b3: real, c1: real, c2: real, c3: real, t: real)
    requires x1 == a1 - 2.0 * t * b1 + t * t * c1
    requires x2 == a2 - 2.0 * t * b2 + t * t * c2
    requires x3 == a3 - 2.0 * t * b3 + t * t * c3
    ensures x1 + x2 + x3 == (a1 + a2 + a3) - 2.0 * t * (b1 + b2 + b3) + t * t * (c1 + c2 + c3)
  {
  }

  /** One coordinate of the expansion: (a - t b)^2 = a^2 - 2 t b a + t^2 b^2. */
  lemma ComponentAlongLine(a: real, b: real, t: real)
    ensures (a - t * b) * (a - t * b) == a * a - 2.0 * t * (b * a) + t * t * (b * b)
  {
  }

  /** A - 2 t B + t^2 C with C > 0 is smallest at t0 = B / C: the difference
      is C (t - t0)^2. */
  lemma QuadraticMinimum(A: real, B: real, C: real, t0: real, t: real)
    requires C > 0.0 && t0 == B / C
    ensures A - 2.0 * t0 * B + t0 * t0 * C <= A - 2.0 * t * B + t * t * C
  {
    assert t0 * C == B;
    SquareNonNegative(t - t0);
    MulNonNegative(C, (t - t0) * (t - t0));
    assert (A - 2.0 * t * B + t * t * C) - (A - 2.0 * t0 * B + t0 * t0 * C) == C * ((t - t0) * (t - t0));
  }

  /** The three queries are stubs: their answers depend neither on the line
      nor on the argument. */
  lemma StubsIgnoreTheirInput(l1: Line, l2: Line, u1: real, u2: real, p1: Vector3, p2: Vector3)
    ensures l1.At(u1) == l2.At(u2) == Zero
    ensures l1.ParamDistance(p1) == l2.ParamDistance(p2) == 0.0
    ensures l1.Distance(p1) == l2.Distance(p2) == 0.0
  {
  }

  /** The stubs disagree with their documented intent: for the line through
      the origin along +X and the point (1,0,0), the nearest parameter is 1
      and the distance is 0, while `ParamDistance` answers 0 and `At(1)`
      answers the origin rather than (1,0,0). */
  lemma StubsDifferFromIntent(l: Line)
    requires l.O == Zero && l.d == UnitX
    ensures NearestParameter(l.O, l.d, UnitX) == 1.0 != l.ParamDistance(UnitX)
    ensures PointAt(l.O, l.d, 1.0) == UnitX != l.At(1.0)
  {
    assert Sub(UnitX, Zero) == UnitX;
    assert Dot(UnitX, UnitX) == 1.0;
  }
}
