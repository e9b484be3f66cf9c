/** `m4.decompose(mat, translation, quaternion, scale)`: splits a matrix
    into the translation in column 3, the scale as the lengths of columns
    0..2, and the rotation `quatFromRotationMatrix` reads from the columns
    divided by their scale. A negative determinant is meant to flip the
    sign of the x scale, but the library stores that scale in a `const`
    binding, so the assignment throws a `TypeError` instead.
    `DecomposeAsWritten` is the library's behaviour and `Decompose` the
    intended one. */
module M4Decompose {
  import opened Wrappers
  import opened Reals
  import opened M4
  import opened M4Inverse
  import opened M4Compose
  import M4Builders
  import V = Vectors

  /** The three out-parameters `decompose` fills. */
  datatype Parts = Parts(translation: V.Vec3, rotation: Quat, scale: V.Vec3)

  /** The lengths of columns 0, 1 and 2 (`matrix.subarray(0, 3)` and so on). */
  function ColumnLengths(m: Matrix4, sqrt: real -> real): V.Vec3
  {
    V.Vec3(V.Length(V.Vec3(m.m0, m.m1, m.m2), sqrt),
           V.Length(V.Vec3(m.m4, m.m5, m.m6), sqrt),
           V.Length(V.Vec3(m.m8, m.m9, m.m10), sqrt))
  }

  /** Columns 0, 1 and 2 multiplied by `1 / s.x`, `1 / s.y` and `1 / s.z`;
      row 3 and column 3 kept. */
  function Unscale(m: Matrix4, s: V.Vec3): Matrix4
    requires s.x != 0.0 && s.y != 0.0 && s.z != 0.0
  {
    var ix, iy, iz := 1.0 / s.x, 1.0 / s.y, 1.0 / s.z;
    Matrix4(m.m0 * ix, m.m1 * ix, m.m2 * ix, m.m3,
            m.m4 * iy, m.m5 * iy, m.m6 * iy, m.m7,
            m.m8 * iz, m.m9 * iz, m.m10 * iz, m.m11,
            m.m12, m.m13, m.m14, m.m15)
  }

  /** The scale `decompose` means to report: the column lengths, with the x
      length negated when the determinant is negative. */
  function SignedScale(m: Matrix4, sqrt: real -> real): V.Vec3
  {
    var s := ColumnLengths(m, sqrt);
    if Determinate(m) < 0.0 then V.Vec3(-s.x, s.y, s.z) else s
  }

  /** The divisions `decompose` performs are by non-zero numbers: the scale
      `s` it divides the columns by, and the root `quatFromRotationMatrix`
      takes of the unscaled matrix. */
  predicate Divisible(m: Matrix4, s: V.Vec3, sqrt: real -> real)
  {
    s.x != 0.0 && s.y != 0.0 && s.z != 0.0 && sqrt(Radicand(Unscale(m, s))) != 0.0
  }

  /** `decompose` as intended: a negative determinant flips the x scale. */
  function Decompose(m: Matrix4, sqrt: real -> real): Parts
    requires Divisible(m, SignedScale(m, sqrt), sqrt)
  {
    var s := SignedScale(m, sqrt);
    Parts(V.Vec3(m.m12, m.m13, m.m14), QuatFromRotationMatrix(Unscale(m, s), sqrt), s)
  }

  /** `decompose` as the library writes it: the assignment `sx = -sx` to a
      `const` throws when the determinant is negative. Otherwise it agrees
      with the intended `Decompose`. */
  function DecomposeAsWritten(m: Matrix4, sqrt: real -> real): (r: Result<Parts, Thrown>)
    requires Determinate(m) >= 0.0 ==> Divisible(m, ColumnLengths(m, sqrt), sqrt)
    ensures r.Failure? <==> Determinate(m) < 0.0
    ensures r.Success? ==> r.value == Decompose(m, sqrt)
    ensures r.Success? ==> r.value.translation == V.Vec3(m.m12, m.m13, m.m14) && r.value.scale == ColumnLengths(m, sqrt)
  {
    var s := ColumnLengths(m, sqrt);
    if Determinate(m) < 0.0 then
      Failure(TypeError("assignment to constant variable"))
    else
      Success(Parts(V.Vec3(m.m12, m.m13, m.m14), QuatFromRotationMatrix(Unscale(m, s), sqrt), s))
  }

  /** `compose` then `decompose` gives back the translation, the scale and
      the quaternion up to sign, for a unit quaternion and a scale whose y
      and z factors are positive: the determinant then has the sign of the
      x factor, which `decompose` moves back onto it. */
  lemma DecomposeRoundTrip(t: V.Vec3, q: Quat, s: V.Vec3, sqrt: real -> real)
    requires IsUnit(q)
    requires s.x != 0.0 && s.y > 0.0 && s.z > 0.0
    requires IsSqrtAt(sqrt, s.x * s.x) && IsSqrtAt(sqrt, s.y * s.y) && IsSqrtAt(sqrt, s.z * s.z)
    requires IsSqrtAt(sqrt, Radicand(Compose(t, q, Unscaled)))
    ensures Divisible(Compose(t, q, s), SignedScale(Compose(t, q, s), sqrt), sqrt)
    ensures Decompose(Compose(t, q, s), sqrt).translation == t
    ensures Decompose(Compose(t, q, s), sqrt).scale == s
    ensures UpToSign(Decompose(Compose(t, q, s), sqrt).rotation, q)
  {
    ComposeSignedScale(t, q, s, sqrt);
    UnscaleCompose(t, q, s);
    QuatRecoversRotation(t, q, sqrt);
  }

  /** With every scale positive, the library's `decompose` as written
      recovers what `compose` was given: the same translation and scale and
      the rotation up to the sign of its quaternion. */
  lemma DecomposeAsWrittenRoundTrip(t: V.Vec3, q: Quat, s: V.Vec3, sqrt: real -> real)
    requires IsUnit(q)
    requires s.x > 0.0 && s.y > 0.0 && s.z > 0.0
    requires IsSqrtAt(sqrt, s.x * s.x) && IsSqrtAt(sqrt, s.y * s.y) && IsSqrtAt(sqrt, s.z * s.z)
    requires IsSqrtAt(sqrt, Radicand(Compose(t, q, Unscaled)))
    ensures Determinate(Compose(t, q, s)) > 0.0
    ensures Divisible(Compose(t, q, s), ColumnLengths(Compose(t, q, s), sqrt), sqrt)
    ensures DecomposeAsWritten(Compose(t, q, s), sqrt).Success?
    ensures DecomposeAsWritten(Compose(t, q, s), sqrt).value.translation == t
    ensures DecomposeAsWritten(Compose(t, q, s), sqrt).value.scale == s
    ensures UpToSign(DecomposeAsWritten(Compose(t, q, s), sqrt).value.rotation, q)
  {
    DecomposeRoundTrip(t, q, s, sqrt);
    ComposeDeterminate(t, q, s);
    ProductSign(s.x, s.y, s.z);
    ComposeSignedScale(t, q, s, sqrt);
  }

  /** The library's `decompose` throws on every matrix `compose` builds
      with a negative x scale, positive y and z scales and a unit
      quaternion: the determinant is negative there. */
  lemma DecomposeAsWrittenThrows(t: V.Vec3, q: Quat, s: V.Vec3, sqrt: real -> real)
    requires IsUnit(q)
    requires s.x < 0.0 && s.y > 0.0 && s.z > 0.0
    ensures Determinate(Compose(t, q, s)) < 0.0
    ensures DecomposeAsWritten(Compose(t, q, s), sqrt) == Failure(TypeError("assignment to constant variable"))
  {
    ComposeDeterminate(t, q, s);
    ProductSign(s.x, s.y, s.z);
  }

  /** The library's `decompose` throws on a matrix `compose` builds from a
      unit quaternion exactly when the product of the scales is negative:
      one or three of them negative, not just a negative x. */
  lemma DecomposeAsWrittenThrowsExactly(t: V.Vec3, q: Quat, s: V.Vec3, sqrt: real -> real)
    requires IsUnit(q)
    requires s.x * s.y * s.z >= 0.0 ==> Divisible(Compose(t, q, s), ColumnLengths(Compose(t, q, s), sqrt), sqrt)
    ensures Determinate(Compose(t, q, s)) == s.x * s.y * s.z
    ensures DecomposeAsWritten(Compose(t, q, s), sqrt).Failure? <==> s.x * s.y * s.z < 0.0
  {
    ComposeDeterminate(t, q, s);
  }

  /** The mirror in the x axis. */
  const Mirror: Matrix4 := M4Builders.Scaling(-1.0, 1.0, 1.0)

  /** The mirror in the x axis, `scaling(-1, 1, 1)`, makes the library's
      `decompose` throw. */
  lemma MirrorThrows(sqrt: real -> real)
    ensures DecomposeAsWritten(Mirror, sqrt).Failure?
  {
    var q, s := Quat(0.0, 0.0, 0.0, 1.0), V.Vec3(-1.0, 1.0, 1.0);
    ComposeNoRotation(V.Zero, s);
    DecomposeAsWrittenThrows(V.Zero, q, s, sqrt);
  }

  /** The scale `decompose` means to report for `compose(t, q, s)` is `s`
      itself, under the conditions of `DecomposeRoundTrip`. */
  lemma ComposeSignedScale(t: V.Vec3, q: Quat, s: V.Vec3, sqrt: real -> real)
    requires IsUnit(q)
    requires s.x != 0.0 && s.y > 0.0 && s.z > 0.0
    requires IsSqrtAt(sqrt, s.x * s.x) && IsSqrtAt(sqrt, s.y * s.y) && IsSqrtAt(sqrt, s.z * s.z)
    ensures SignedScale(Compose(t, q, s), sqrt) == s
  {
    ComposeColumnLengths(t, q, s, sqrt);
    ComposeDeterminate(t, q, s);
    ProductSign(s.x, s.y, s.z);
  }

  /** Under `compose`, the column lengths are the magnitudes of the scale
      factors. */
  lemma ComposeColumnLengths(t: V.Vec3, q: Quat, s: V.Vec3, sqrt: real -> real)
    requires IsUnit(q)
    requires IsSqrtAt(sqrt, s.x * s.x) && IsSqrtAt(sqrt, s.y * s.y) && IsSqrtAt(sqrt, s.z * s.z)
    ensures ColumnLengths(Compose(t, q, s), sqrt) == V.Vec3(Abs(s.x), Abs(s.y), Abs(s.z))
  {
    SqrtOfSquareAbs(sqrt, s.x, s.x * s.x);
    SqrtOfSquareAbs(sqrt, s.y, s.y * s.y);
    SqrtOfSquareAbs(sqrt, s.z, s.z * s.z);
    ColumnLengthSqX(t, q, s);
    ColumnLengthSqY(t, q, s);
    ColumnLengthSqZ(t, q, s);
  }

  /** With `b` and `c` positive, `a * b * c` is negative exactly when `a` is. */
  lemma ProductSign(a: real, b: real, c: real)
    requires a != 0.0 && b > 0.0 && c > 0.0
    ensures a * b * c < 0.0 <==> a < 0.0
  {
    if a > 0.0 {
      MulPos(a, b, a * b);
      MulPos(a * b, c, a * b * c);
    } else {
      MulPos(-a, b, (-a) * b);
      MulPos((-a) * b, c, (-a) * b * c);
    }
  }

  /** Column 0 of `compose(t, q, s)` for a unit `q` has squared length `s.x * s.x`. */
  lemma ColumnLengthSqX(t: V.Vec3, q: Quat, s: V.Vec3)
    requires IsUnit(q)
    ensures V.LengthSq(V.Vec3(Compose(t, q, s).m0, Compose(t, q, s).m1, Compose(t, q, s).m2)) == s.x * s.x
  {
    var m := Compose(t, q, s);
    ScaledColumnX(q.x, q.y, q.z, q.w, s.x, m.m0, m.m1, m.m2);
  }

  lemma ScaledColumnX(x: real, y: real, z: real, w: real, k: real, a0: real, a1: real, a2: real)
    requires a0 == (1.0 - (y * (y + y) + z * (z + z))) * k
    requires a1 == (x * (y + y) + w * (z + z)) * k
    requires a2 == (x * (z + z) - w * (y + y)) * k
    requires x * x + y * y + z * z + w * w == 1.0
    ensures a0 * a0 + a1 * a1 + a2 * a2 == k * k
  {
    UnitColumnX(x, y, z, w);
    ScaledColumn(1.0 - (y * (y + y) + z * (z + z)), x * (y + y) + w * (z + z), x * (z + z) - w * (y + y), k, a0, a1, a2, 1.0);
  }

  lemma UnitColumnX(x: real, y: real, z: real, w: real)
    requires x * x + y * y + z * z + w * w == 1.0
    ensures (1.0 - (y * (y + y) + z * (z + z))) * (1.0 - (y * (y + y) + z * (z + z))) + (x * (y + y) + w * (z + z)) * (x * (y + y) + w * (z + z)) + (x * (z + z) - w * (y + y)) * (x * (z + z) - w * (y + y)) == 1.0
  {
  }

  /** Column 1 of `compose(t, q, s)` for a unit `q` has squared length `s.y * s.y`. */
  lemma ColumnLengthSqY(t: V.Vec3, q: Quat, s: V.Vec3)
    requires IsUnit(q)
    ensures V.LengthSq(V.Vec3(Compose(t, q, s).m4, Compose(t, q, s).m5, Compose(t, q, s).m6)) == s.y * s.y
  {
    var m := Compose(t, q, s);
    ScaledColumnY(q.x, q.y, q.z, q.w, s.y, m.m4, m.m5, m.m6);
  }

  lemma ScaledColumnY(x: real, y: real, z: real, w: real, k: real, a0: real, a1: real, a2: real)
    requires a0 == (x * (y + y) - w * (z + z)) * k
    requires a1 == (1.0 - (x * (x + x) + z * (z + z))) * k
    requires a2 == (y * (z + z) + w * (x + x)) * k
    requires x * x + y * y + z * z + w * w == 1.0
    ensures a0 * a0 + a1 * a1 + a2 * a2 == k * k
  {
    UnitColumnY(x, y, z, w);
    ScaledColumn(x * (y + y) - w * (z + z), 1.0 - (x * (x + x) + z * (z + z)), y * (z + z) + w * (x + x), k, a0, a1, a2, 1.0);
  }

  lemma UnitColumnY(x: real, y: real, z: real, w: real)
    requires x * x + y * y + z * z + w * w == 1.0
    ensures (x * (y + y) - w * (z + z)) * (x * (y + y) - w * (z + z)) + (1.0 - (x * (x + x) + z * (z + z))) * (1.0 - (x * (x + x) + z * (z + z))) + (y * (z + z) + w * (x + x)) * (y * (z + z) + w * (x + x)) == 1.0
  {
  }

  /** Column 2 of `compose(t, q, s)` for a unit `q` has squared length `s.z * s.z`. */
  lemma ColumnLengthSqZ(t: V.Vec3, q: Quat, s: V.Vec3)
    requires IsUnit(q)
    ensures V.LengthSq(V.Vec3(Compose(t, q, s).m8, Compose(t, q, s).m9, Compose(t, q, s).m10)) == s.z * s.z
  {
    var m := Compose(t, q, s);
    ScaledColumnZ(q.x, q.y, q.z, q.w, s.z, m.m8, m.m9, m.m10);
  }

  lemma ScaledColumnZ(x: real, y: real, z: real, w: real, k: real, a0: real, a1: real, a2: real)
    requires a0 == (x * (z + z) + w * (y + y)) * k
    requires a1 == (y * (z + z) - w * (x + x)) * k
    requires a2 == (1.0 - (x * (x + x) + y * (y + y))) * k
    requires x * x + y * y + z * z + w * w == 1.0
    ensures a0 * a0 + a1 * a1 + a2 * a2 == k * k
  {
    UnitColumnZ(x, y, z, w);
    ScaledColumn(x * (z + z) + w * (y + y), y * (z + z) - w * (x + x), 1.0 - (x * (x + x) + y * (y + y)), k, a0, a1, a2, 1.0);
  }

  lemma UnitColumnZ(x: real, y: real, z: real, w: real)
    requires x * x + y * y + z * z + w * w == 1.0
    ensures (x * (z + z) + w * (y + y)) * (x * (z + z) + w * (y + y)) + (y * (z + z) - w * (x + x)) * (y * (z + z) - w * (x + x)) + (1.0 - (x * (x + x) + y * (y + y))) * (1.0 - (x * (x + x) + y * (y + y))) == 1.0
  {
  }


  /** Scaling three numbers by `k` scales the sum of their squares by `k * k`. */
  lemma ScaledColumn(e0: real, e1: real, e2: real, k: real, a0: real, a1: real, a2: real, u: real)
    requires a0 == e0 * k && a1 == e1 * k && a2 == e2 * k
    requires e0 * e0 + e1 * e1 + e2 * e2 == u
    ensures a0 * a0 + a1 * a1 + a2 * a2 == u * (k * k)
  {
  }

  /** The determinant of the 3x3 block with columns `(a0, a1, a2)`,
      `(a4, a5, a6)` and `(a8, a9, a10)`, expanded as `determinate` does. */
  function Det3(a0: real, a1: real, a2: real, a4: real, a5: real, a6: real, a8: real, a9: real, a10: real): real
  {
    -a2 * a5 * a8 + a1 * a6 * a8 + a2 * a4 * a9 - a0 * a6 * a9 - a1 * a4 * a10 + a0 * a5 * a10
  }

  /** The determinant of `compose(t, q, s)` for a unit `q` is the product
      of the scale factors. */
  lemma ComposeDeterminate(t: V.Vec3, q: Quat, s: V.Vec3)
    requires IsUnit(q)
    ensures Determinate(Compose(t, q, s)) == s.x * s.y * s.z
  {
    var m := Compose(t, q, s);
    ScaledRotationDeterminate(q.x, q.y, q.z, q.w, s.x, s.y, s.z, m.m0, m.m1, m.m2, m.m4, m.m5, m.m6, m.m8, m.m9, m.m10);
    AffineDeterminate(m);
  }

  /** With row 3 equal to `(0, 0, 0, 1)` only the 3x3 block contributes. */
  lemma AffineDeterminate(m: Matrix4)
    requires IsAffine(m)
    ensures Determinate(m) == Det3(m.m0, m.m1, m.m2, m.m4, m.m5, m.m6, m.m8, m.m9, m.m10)
  {
  }

  lemma ScaledRotationDeterminate(x: real, y: real, z: real, w: real, kx: real, ky: real, kz: real, a0: real, a1: real, a2: real, a4: real, a5: real, a6: real, a8: real, a9: real, a10: real)
    requires a0 == (1.0 - (y * (y + y) + z * (z + z))) * kx
    requires a1 == (x * (y + y) + w * (z + z)) * kx
    requires a2 == (x * (z + z) - w * (y + y)) * kx
    requires a4 == (x * (y + y) - w * (z + z)) * ky
    requires a5 == (1.0 - (x * (x + x) + z * (z + z))) * ky
    requires a6 == (y * (z + z) + w * (x + x)) * ky
    requires a8 == (x * (z + z) + w * (y + y)) * kz
    requires a9 == (y * (z + z) - w * (x + x)) * kz
    requires a10 == (1.0 - (x * (x + x) + y * (y + y))) * kz
    requires x * x + y * y + z * z + w * w == 1.0
    ensures Det3(a0, a1, a2, a4, a5, a6, a8, a9, a10) == kx * ky * kz
  {
    UnitDeterminate(x, y, z, w);
    ScaledDeterminate(1.0 - (y * (y + y) + z * (z + z)), x * (y + y) + w * (z + z), x * (z + z) - w * (y + y), x * (y + y) - w * (z + z), 1.0 - (x * (x + x) + z * (z + z)), y * (z + z) + w * (x + x), x * (z + z) + w * (y + y), y * (z + z) - w * (x + x), 1.0 - (x * (x + x) + y * (y + y)), kx, ky, kz, a0, a1, a2, a4, a5, a6, a8, a9, a10, 1.0);
  }

  /** The rotation of a unit quaternion has determinant 1. */
  lemma UnitDeterminate(x: real, y: real, z: real, w: real)
    requires x * x + y * y + z * z + w * w == 1.0
    ensures Det3(1.0 - (y * (y + y) + z * (z + z)), x * (y + y) + w * (z + z), x * (z + z) - w * (y + y), x * (y + y) - w * (z + z), 1.0 - (x * (x + x) + z * (z + z)), y * (z + z) + w * (x + x), x * (z + z) + w * (y + y), y * (z + z) - w * (x + x), 1.0 - (x * (x + x) + y * (y + y))) == 1.0
  {
  }

  /** Scaling the columns of a 3x3 block scales its determinant by their product. */
  lemma ScaledDeterminate(e0: real, e1: real, e2: real, e4: real, e5: real, e6: real, e8: real, e9: real, e10: real, kx: real, ky: real, kz: real, a0: real, a1: real, a2: real, a4: real, a5: real, a6: real, a8: real, a9: real, a10: real, u: real)
    requires a0 == e0 * kx
    requires a1 == e1 * kx
    requires a2 == e2 * kx
    requires a4 == e4 * ky
    requires a5 == e5 * ky
    requires a6 == e6 * ky
    requires a8 == e8 * kz
    requires a9 == e9 * kz
    requires a10 == e10 * kz
    requires Det3(e0, e1, e2, e4, e5, e6, e8, e9, e10) == u
    ensures Det3(a0, a1, a2, a4, a5, a6, a8, a9, a10) == u * (kx * ky * kz)
  {
  }


  /** Dividing the columns of `compose(t, q, s)` by `s` leaves the
      unscaled `compose(t, q, (1, 1, 1))`. */
  lemma UnscaleCompose(t: V.Vec3, q: Quat, s: V.Vec3)
    requires s.x != 0.0 && s.y != 0.0 && s.z != 0.0
    ensures Unscale(Compose(t, q, s), s) == Compose(t, q, Unscaled)
  {
    UnscaleEntry0(t, q, s);
    UnscaleEntry1(t, q, s);
    UnscaleEntry2(t, q, s);
    UnscaleEntry4(t, q, s);
    UnscaleEntry5(t, q, s);
    UnscaleEntry6(t, q, s);
    UnscaleEntry8(t, q, s);
    UnscaleEntry9(t, q, s);
    UnscaleEntry10(t, q, s);
  }

  lemma UnscaleEntry0(t: V.Vec3, q: Quat, s: V.Vec3)
    requires s.x != 0.0 && s.y != 0.0 && s.z != 0.0
    ensures Unscale(Compose(t, q, s), s).m0 == Compose(t, q, Unscaled).m0
  {
    DivideOut(1.0 - (q.y * (q.y + q.y) + q.z * (q.z + q.z)), s.x, Compose(t, q, s).m0, Unscaled.x);
  }

  lemma UnscaleEntry1(t: V.Vec3, q: Quat, s: V.Vec3)
    requires s.x != 0.0 && s.y != 0.0 && s.z != 0.0
    ensures Unscale(Compose(t, q, s), s).m1 == Compose(t, q, Unscaled).m1
  {
    DivideOut(q.x * (q.y + q.y) + q.w * (q.z + q.z), s.x, Compose(t, q, s).m1, Unscaled.x);
  }

  lemma UnscaleEntry2(t: V.Vec3, q: Quat, s: V.Vec3)
    requires s.x != 0.0 && s.y != 0.0 && s.z != 0.0
    ensures Unscale(Compose(t, q, s), s).m2 == Compose(t, q, Unscaled).m2
  {
    DivideOut(q.x * (q.z + q.z) - q.w * (q.y + q.y), s.x, Compose(t, q, s).m2, Unscaled.x);
  }

  lemma UnscaleEntry4(t: V.Vec3, q: Quat, s: V.Vec3)
    requires s.x != 0.0 && s.y != 0.0 && s.z != 0.0
    ensures Unscale(Compose(t, q, s), s).m4 == Compose(t, q, Unscaled).m4
  {
    DivideOut(q.x * (q.y + q.y) - q.w * (q.z + q.z), s.y, Compose(t, q, s).m4, Unscaled.y);
  }

  lemma UnscaleEntry5(t: V.Vec3, q: Quat, s: V.Vec3)
    requires s.x != 0.0 && s.y != 0.0 && s.z != 0.0
    ensures Unscale(Compose(t, q, s), s).m5 == Compose(t, q, Unscaled).m5
  {
    DivideOut(1.0 - (q.x * (q.x + q.x) + q.z * (q.z + q.z)), s.y, Compose(t, q, s).m5, Unscaled.y);
  }

  lemma UnscaleEntry6(t: V.Vec3, q: Quat, s: V.Vec3)
    requires s.x != 0.0 && s.y != 0.0 && s.z != 0.0
    ensures Unscale(Compose(t, q, s), s).m6 == Compose(t, q, Unscaled).m6
  {
    DivideOut(q.y * (q.z + q.z) + q.w * (q.x + q.x), s.y, Compose(t, q, s).m6, Unscaled.y);
  }

  lemma UnscaleEntry8(t: V.Vec3, q: Quat, s: V.Vec3)
    requires s.x != 0.0 && s.y != 0.0 && s.z != 0.0
    ensures Unscale(Compose(t, q, s), s).m8 == Compose(t, q, Unscaled).m8
  {
    DivideOut(q.x * (q.z + q.z) + q.w * (q.y + q.y), s.z, Compose(t, q, s).m8, Unscaled.z);
  }

  lemma UnscaleEntry9(t: V.Vec3, q: Quat, s: V.Vec3)
    requires s.x != 0.0 && s.y != 0.0 && s.z != 0.0
    ensures Unscale(Compose(t, q, s), s).m9 == Compose(t, q, Unscaled).m9
  {
    DivideOut(q.y * (q.z + q.z) - q.w * (q.x + q.x), s.z, Compose(t, q, s).m9, Unscaled.z);
  }

  lemma UnscaleEntry10(t: V.Vec3, q: Quat, s: V.Vec3)
    requires s.x != 0.0 && s.y != 0.0 && s.z != 0.0
    ensures Unscale(Compose(t, q, s), s).m10 == Compose(t, q, Unscaled).m10
  {
    DivideOut(1.0 - (q.x * (q.x + q.x) + q.y * (q.y + q.y)), s.z, Compose(t, q, s).m10, Unscaled.z);
  }

  /** `(p * k) * (1 / k)` is `p * u` for `u == 1`. */
  lemma DivideOut(p: real, k: real, a: real, u: real)
    requires k != 0.0 && a == p * k && u == 1.0
    ensures a * (1.0 / k) == p * u
  {
  }

}
