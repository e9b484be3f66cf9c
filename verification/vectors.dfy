/** The 3-vector helpers of `m4`: add, subtract, scale, cross, dot,
    length, distance and normalize. A vector is the datatype `Vec3` whose
    fields `x`, `y`, `z` are the array entries 0, 1, 2; each helper returns a
    fresh vector (the optional `dst` buffer is not modelled). */
module Vectors {
  import opened Reals

  datatype Vec3 = Vec3(x: real, y: real, z: real)

  const Zero: Vec3 := Vec3(0.0, 0.0, 0.0)

  /** `normalize` leaves its zero-filled output untouched at or below this length. */
  const NormalizeEpsilon: real := 0.00001

  function Add(a: Vec3, b: Vec3): (r: Vec3)
  {
    Vec3(a.x + b.x, a.y + b.y, a.z + b.z)
  }

  function Subtract(a: Vec3, b: Vec3): (r: Vec3)
  {
    Vec3(a.x - b.x, a.y - b.y, a.z - b.z)
  }

  function ScaleVector(v: Vec3, s: real): (r: Vec3)
  {
    Vec3(v.x * s, v.y * s, v.z * s)
  }

  function Dot(a: Vec3, b: Vec3): real
  {
    a.x * b.x + a.y * b.y + a.z * b.z
  }

  function Cross(a: Vec3, b: Vec3): (r: Vec3)
  {
    Vec3(a.y * b.z - a.z * b.y,
         a.z * b.x - a.x * b.z,
         a.x * b.y - a.y * b.x)
  }

  /** The dot product is symmetric. */
  lemma DotSymmetric(a: Vec3, b: Vec3)
    ensures Dot(a, b) == Dot(b, a)
  {
  }

  /** The cross product is perpendicular to both of its arguments. */
  lemma CrossPerpendicular(a: Vec3, b: Vec3)
    ensures Dot(a, Cross(a, b)) == 0.0 && Dot(b, Cross(a, b)) == 0.0
  {
    var r := Cross(a, b);
    PerpendicularExpanded(a.x, a.y, a.z, b.x, b.y, b.z, r.x, r.y, r.z);
  }

  /** `r = a x b` on plain components is perpendicular to `a` and `b`. */
  lemma PerpendicularExpanded(a0: real, a1: real, a2: real, b0: real, b1: real, b2: real,
                              r0: real, r1: real, r2: real)
    requires r0 == a1 * b2 - a2 * b1 && r1 == a2 * b0 - a0 * b2 && r2 == a0 * b1 - a1 * b0
    ensures a0 * r0 + a1 * r1 + a2 * r2 == 0.0
    ensures b0 * r0 + b1 * r1 + b2 * r2 == 0.0
  {
  }

  /** The squared length is non-negative and vanishes only on the zero vector. */
  function LengthSq(v: Vec3): (r: real)
    ensures r >= 0.0
    ensures r == 0.0 <==> v == Zero
  {
    SquaresVanish(v.x, v.y, v.z);
    v.x * v.x + v.y * v.y + v.z * v.z
  }

  lemma SquaresVanish(x: real, y: real, z: real)
    ensures x * x + y * y + z * z >= 0.0
    ensures x * x + y * y + z * z == 0.0 <==> x == 0.0 && y == 0.0 && z == 0.0
  {
    Square(x, x * x);
    Square(y, y * y);
    Square(z, z * z);
  }

  /** `length`: with a true square root, zero exactly on the zero vector. */
  function Length(v: Vec3, sqrt: real -> real): (r: real)
    ensures IsSqrtAt(sqrt, LengthSq(v)) ==> r >= 0.0 && (r == 0.0 <==> v == Zero)
  {
    SqrtZero(sqrt, LengthSq(v));
    sqrt(LengthSq(v))
  }

  /** `distanceSq` is the squared length of the difference, and zero only for equal points. */
  function DistanceSq(a: Vec3, b: Vec3): (r: real)
    ensures r == LengthSq(Subtract(a, b))
    ensures r == 0.0 <==> a == b
  {
    var dx := a.x - b.x;
    var dy := a.y - b.y;
    var dz := a.z - b.z;
    assert Subtract(a, b) == Zero <==> a == b;
    dx * dx + dy * dy + dz * dz
  }

  /** `distance` is the length of the difference. */
  function Distance(a: Vec3, b: Vec3, sqrt: real -> real): (r: real)
    ensures r == Length(Subtract(a, b), sqrt)
    ensures IsSqrtAt(sqrt, DistanceSq(a, b)) ==> r >= 0.0 && (r == 0.0 <==> a == b)
  {
    SqrtZero(sqrt, DistanceSq(a, b));
    sqrt(DistanceSq(a, b))
  }

  /** `normalize`: divides by the length when it exceeds 1e-5, and otherwise
      returns the untouched zero-filled output. With a true square root the
      result is a unit vector pointing the same way as `v`, and it is zero
      exactly when the squared length is at most 1e-10. */
  function Normalize(v: Vec3, sqrt: real -> real): (r: Vec3)
    ensures !(sqrt(LengthSq(v)) > NormalizeEpsilon) ==> r == Zero
    ensures IsSqrtAt(sqrt, LengthSq(v)) ==>
      (sqrt(LengthSq(v)) > NormalizeEpsilon ==> LengthSq(r) == 1.0)
      && (r == Zero <==> LengthSq(v) <= NormalizeEpsilon * NormalizeEpsilon)
      && Cross(r, v) == Zero && Dot(r, v) >= 0.0
  {
    var length := sqrt(LengthSq(v));
    if length > NormalizeEpsilon then
      var r := Vec3(v.x / length, v.y / length, v.z / length);
      NormalizedFacts(v, length, sqrt);
      r
    else
      SmallLength(v, length, sqrt);
      Zero
  }

  lemma NormalizedFacts(v: Vec3, length: real, sqrt: real -> real)
    requires length == sqrt(LengthSq(v)) && length > NormalizeEpsilon
    ensures var r: Vec3 := Vec3(v.x / length, v.y / length, v.z / length);
      Cross(r, v) == Zero
      && (IsSqrtAt(sqrt, LengthSq(v)) ==>
            LengthSq(r) == 1.0 && r != Zero && Dot(r, v) >= 0.0
            && LengthSq(v) > NormalizeEpsilon * NormalizeEpsilon)
  {
    var k := 1.0 / length;
    DivideIsScale(v, length);
    ScaledCross(v, k);
    if IsSqrtAt(sqrt, LengthSq(v)) {
      UnitAfterScaling(v, length, k);
      PositiveScaleDot(v, k);
      LargeLength(length, LengthSq(v));
    }
  }

  lemma DivideIsScale(v: Vec3, length: real)
    requires length != 0.0
    ensures Vec3(v.x / length, v.y / length, v.z / length) == ScaleVector(v, 1.0 / length)
  {
    QuotientIsProduct(v.x, length);
    QuotientIsProduct(v.y, length);
    QuotientIsProduct(v.z, length);
    var w := ScaleVector(v, 1.0 / length);
    assert w.x == v.x / length && w.y == v.y / length && w.z == v.z / length;
  }

  lemma PositiveScaleDot(v: Vec3, k: real)
    requires k > 0.0
    ensures Dot(ScaleVector(v, k), v) >= 0.0
  {
    var sq := v.x * v.x + v.y * v.y + v.z * v.z;
    assert (v.x * k) * v.x + (v.y * k) * v.y + (v.z * k) * v.z == k * sq;
    MulLeMono(0.0, k, sq, 0.0, k * sq);
  }

  lemma LargeLength(length: real, sq: real)
    requires length > NormalizeEpsilon && length * length == sq
    ensures sq > NormalizeEpsilon * NormalizeEpsilon
  {
    SquareMono(NormalizeEpsilon, length, NormalizeEpsilon * NormalizeEpsilon, length * length);
  }

  lemma UnitAfterScaling(v: Vec3, length: real, k: real)
    requires length > 0.0 && length * length == LengthSq(v) && k == 1.0 / length
    ensures LengthSq(ScaleVector(v, k)) == 1.0
  {
    var w := ScaleVector(v, k);
    calc {
      LengthSq(w);
      (v.x * k) * (v.x * k) + (v.y * k) * (v.y * k) + (v.z * k) * (v.z * k);
      { assert (v.x * k) * (v.x * k) == (k * k) * (v.x * v.x);
        assert (v.y * k) * (v.y * k) == (k * k) * (v.y * v.y);
        assert (v.z * k) * (v.z * k) == (k * k) * (v.z * v.z); }
      (k * k) * LengthSq(v);
      (k * k) * (length * length);
      { assert (k * k) * (length * length) == (k * length) * (k * length); }
      (k * length) * (k * length);
    }
    assert k * length == 1.0;
  }

  lemma SmallLength(v: Vec3, length: real, sqrt: real -> real)
    requires length == sqrt(LengthSq(v)) && !(length > NormalizeEpsilon)
    ensures IsSqrtAt(sqrt, LengthSq(v)) ==> LengthSq(v) <= NormalizeEpsilon * NormalizeEpsilon
  {
    if IsSqrtAt(sqrt, LengthSq(v)) {
      SquareMono(length, NormalizeEpsilon, length * length, NormalizeEpsilon * NormalizeEpsilon);
    }
  }

  lemma ScaledCross(v: Vec3, k: real)
    ensures Cross(ScaleVector(v, k), v) == Zero
  {
    var w := ScaleVector(v, k);
    assert (v.y * k) * v.z - (v.z * k) * v.y == 0.0;
    assert (v.z * k) * v.x - (v.x * k) * v.z == 0.0;
    assert (v.x * k) * v.y - (v.y * k) * v.x == 0.0;
    assert Cross(w, v).x == 0.0 && Cross(w, v).y == 0.0 && Cross(w, v).z == 0.0;
  }

  /** Subtracting undoes adding, and adding undoes subtracting. */
  lemma AddSubtractInverse(a: Vec3, b: Vec3)
    ensures Subtract(Add(a, b), b) == a
    ensures Add(Subtract(a, b), b) == a
  {
  }

  /** Scaling a vector scales its dot products. */
  lemma DotScaleVector(v: Vec3, s: real, w: Vec3)
    ensures Dot(ScaleVector(v, s), w) == s * Dot(v, w)
    ensures Dot(w, ScaleVector(v, s)) == s * Dot(w, v)
  {
    assert w.x * (v.x * s) + w.y * (v.y * s) + w.z * (v.z * s) == s * (w.x * v.x + w.y * v.y + w.z * v.z);
  }

  /** The cross product is anti-commutative. */
  lemma CrossAntiCommutes(a: Vec3, b: Vec3)
    ensures Cross(a, b) == ScaleVector(Cross(b, a), -1.0)
  {
  }

  /** Distance is symmetric. */
  lemma DistanceSqSymmetric(a: Vec3, b: Vec3)
    ensures DistanceSq(a, b) == DistanceSq(b, a)
  {
  }

  /** The triple product `a . (b x c)` is invariant under cyclic shifts. */
  lemma TripleProductCyclic(a: Vec3, b: Vec3, c: Vec3)
    ensures Dot(a, Cross(b, c)) == Dot(b, Cross(c, a))
    ensures Dot(a, Cross(b, c)) == Dot(c, Cross(a, b))
  {
    TripleProductShift(a, b, c);
    TripleProductShift(b, c, a);
  }

  lemma TripleProductShift(a: Vec3, b: Vec3, c: Vec3)
    ensures Dot(a, Cross(b, c)) == Dot(b, Cross(c, a))
  {
    var u, v := Cross(b, c), Cross(c, a);
    TripleShift(a.x, a.y, a.z, b.x, b.y, b.z, c.x, c.y, c.z, u.x, u.y, u.z, v.x, v.y, v.z);
  }

  /** On plain components, with `u = b x c` and `v = c x a`: `a . u == b . v`. */
  lemma TripleShift(a0: real, a1: real, a2: real, b0: real, b1: real, b2: real,
                    c0: real, c1: real, c2: real,
                    u0: real, u1: real, u2: real, v0: real, v1: real, v2: real)
    requires u0 == b1 * c2 - b2 * c1 && u1 == b2 * c0 - b0 * c2 && u2 == b0 * c1 - b1 * c0
    requires v0 == c1 * a2 - c2 * a1 && v1 == c2 * a0 - c0 * a2 && v2 == c0 * a1 - c1 * a0
    ensures a0 * u0 + a1 * u1 + a2 * u2 == b0 * v0 + b1 * v1 + b2 * v2
  {
  }

  /** The triple product of three vectors equals that of the vectors formed
      from their x, y and z components (a 3x3 determinant equals that of its
      transpose). */
  lemma TripleProductTranspose(a: Vec3, b: Vec3, c: Vec3)
    ensures Dot(a, Cross(b, c)) == Dot(Vec3(a.x, b.x, c.x), Cross(Vec3(a.y, b.y, c.y), Vec3(a.z, b.z, c.z)))
  {
    var u := Cross(b, c);
    var t := Cross(Vec3(a.y, b.y, c.y), Vec3(a.z, b.z, c.z));
    TripleTranspose(a.x, a.y, a.z, b.x, b.y, b.z, c.x, c.y, c.z, u.x, u.y, u.z, t.x, t.y, t.z);
  }

  /** On plain components, with `u = b x c` and `t = (a1, b1, c1) x (a2, b2, c2)`:
      `a . u == (a0, b0, c0) . t`. */
  lemma TripleTranspose(a0: real, a1: real, a2: real, b0: real, b1: real, b2: real,
                        c0: real, c1: real, c2: real,
                        u0: real, u1: real, u2: real, t0: real, t1: real, t2: real)
    requires u0 == b1 * c2 - b2 * c1 && u1 == b2 * c0 - b0 * c2 && u2 == b0 * c1 - b1 * c0
    requires t0 == b1 * c2 - c1 * b2 && t1 == c1 * a2 - a1 * c2 && t2 == a1 * b2 - b1 * a2
    ensures a0 * u0 + a1 * u1 + a2 * u2 == a0 * t0 + b0 * t1 + c0 * t2
  {
  }

  /** Normalizing keeps a vector perpendicular to whatever it was
      perpendicular to, in both branches of `normalize`. */
  lemma NormalizeKeepsPerpendicular(v: Vec3, w: Vec3, sqrt: real -> real)
    requires Dot(v, w) == 0.0
    ensures Dot(Normalize(v, sqrt), w) == 0.0
  {
    var length := sqrt(LengthSq(v));
    if length > NormalizeEpsilon {
      DivideIsScale(v, length);
      DotScaleVector(v, 1.0 / length, w);
    }
  }

  /** Lagrange's identity: `|a x b|^2 = |a|^2 |b|^2 - (a . b)^2`. */
  lemma CrossLengthSq(a: Vec3, b: Vec3)
    ensures LengthSq(Cross(a, b)) == LengthSq(a) * LengthSq(b) - Dot(a, b) * Dot(a, b)
  {
    LagrangeExpanded(a.x, a.y, a.z, b.x, b.y, b.z);
  }

  lemma LagrangeExpanded(a0: real, a1: real, a2: real, b0: real, b1: real, b2: real)
    ensures (a1 * b2 - a2 * b1) * (a1 * b2 - a2 * b1) + (a2 * b0 - a0 * b2) * (a2 * b0 - a0 * b2)
          + (a0 * b1 - a1 * b0) * (a0 * b1 - a1 * b0)
         == (a0 * a0 + a1 * a1 + a2 * a2) * (b0 * b0 + b1 * b1 + b2 * b2)
          - (a0 * b0 + a1 * b1 + a2 * b2) * (a0 * b0 + a1 * b1 + a2 * b2)
  {
  }

  /** The cross product of two perpendicular unit vectors is a unit vector. */
  lemma UnitCross(a: Vec3, b: Vec3)
    requires LengthSq(a) == 1.0 && LengthSq(b) == 1.0 && Dot(a, b) == 0.0
    ensures LengthSq(Cross(a, b)) == 1.0
  {
    CrossLengthSq(a, b);
  }
}
