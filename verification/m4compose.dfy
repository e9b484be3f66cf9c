/** `m4.compose`, `m4.quatFromRotationMatrix` and `m4.decompose`: a
    transform given as translation, rotation quaternion and scale, and the
    way back from a matrix to those three parts. The square root the
    library takes with `Math.sqrt` is the parameter `sqrt`. */
module M4Compose {
  import opened Wrappers
  import opened Reals
  import opened M4
  import M4Builders
  import V = Vectors

  /** A quaternion `(x, y, z, w)`, stored in that order as in the library. */
  datatype Quat = Quat(x: real, y: real, z: real, w: real)

  /** The quaternion with every component negated; it stands for the same rotation. */
  function Negate(q: Quat): Quat
  {
    Quat(-q.x, -q.y, -q.z, -q.w)
  }

  /** `p` is `q` or its negation: both encode the same rotation. */
  predicate UpToSign(p: Quat, q: Quat)
  {
    p == q || p == Negate(q)
  }

  /** A unit quaternion, the kind that encodes a rotation. */
  predicate IsUnit(q: Quat)
  {
    q.x * q.x + q.y * q.y + q.z * q.z + q.w * q.w == 1.0
  }

  /** `compose(translation, quaternion, scale)`: the rotation matrix of the
      quaternion with column `k` scaled by `scale[k]`, and the translation
      in column 3. */
  function Compose(t: V.Vec3, q: Quat, s: V.Vec3): Matrix4
  {
    var x2, y2, z2 := q.x + q.x, q.y + q.y, q.z + q.z;
    var xx, xy, xz := q.x * x2, q.x * y2, q.x * z2;
    var yy, yz, zz := q.y * y2, q.y * z2, q.z * z2;
    var wx, wy, wz := q.w * x2, q.w * y2, q.w * z2;
    Matrix4((1.0 - (yy + zz)) * s.x, (xy + wz) * s.x, (xz - wy) * s.x, 0.0,
            (xy - wz) * s.y, (1.0 - (xx + zz)) * s.y, (yz + wx) * s.y, 0.0,
            (xz + wy) * s.z, (yz - wx) * s.z, (1.0 - (xx + yy)) * s.z, 0.0,
            t.x, t.y, t.z, 1.0)
  }

  /** The scale that leaves every column as it is. */
  const Unscaled: V.Vec3 := V.Vec3(1.0, 1.0, 1.0)

  /** `compose` always builds an affine matrix that moves the origin to the translation. */
  lemma ComposeIsAffine(t: V.Vec3, q: Quat, s: V.Vec3)
    ensures IsAffine(Compose(t, q, s))
    ensures TransformPoint(Compose(t, q, s), V.Zero) == t
  {
  }

  /** The identity quaternion `(0, 0, 0, 1)` composes to a scaling followed
      by the translation: `scale(translation(t), sx, sy, sz)`. */
  lemma ComposeNoRotation(t: V.Vec3, s: V.Vec3)
    ensures Compose(t, Quat(0.0, 0.0, 0.0, 1.0), s)
         == Matrix4(s.x, 0.0, 0.0, 0.0, 0.0, s.y, 0.0, 0.0, 0.0, 0.0, s.z, 0.0, t.x, t.y, t.z, 1.0)
    ensures Compose(t, Quat(0.0, 0.0, 0.0, 1.0), s)
         == M4Builders.Scale(M4Builders.Translation(t.x, t.y, t.z), s.x, s.y, s.z)
  {
  }

  // quatFromRotationMatrix

  /** Which of the four branches of `quatFromRotationMatrix` runs: the
      trace branch, or the one for the largest diagonal entry. */
  datatype Pivot = TracePivot | XPivot | YPivot | ZPivot

  function PivotOf(m: Matrix4): Pivot
  {
    if m.m0 + m.m5 + m.m10 > 0.0 then TracePivot
    else if m.m0 > m.m5 && m.m0 > m.m10 then XPivot
    else if m.m5 > m.m10 then YPivot
    else ZPivot
  }

  /** The number whose square root the chosen branch takes. */
  function Radicand(m: Matrix4): real
  {
    match PivotOf(m)
    case TracePivot => m.m0 + m.m5 + m.m10 + 1.0
    case XPivot => 1.0 + m.m0 - m.m5 - m.m10
    case YPivot => 1.0 + m.m5 - m.m0 - m.m10
    case ZPivot => 1.0 + m.m10 - m.m0 - m.m5
  }

  /** `quatFromRotationMatrix(m)`, reading the upper 3x3 block with
      `mIJ = m[(J - 1) * 4 + (I - 1)]`. The library divides by the root it
      takes; a zero root gives infinite components, excluded here. */
  function QuatFromRotationMatrix(m: Matrix4, sqrt: real -> real): Quat
    requires sqrt(Radicand(m)) != 0.0
  {
    var m11, m12, m13 := m.m0, m.m4, m.m8;
    var m21, m22, m23 := m.m1, m.m5, m.m9;
    var m31, m32, m33 := m.m2, m.m6, m.m10;
    var root := sqrt(Radicand(m));
    match PivotOf(m)
    case TracePivot =>
      var s := 0.5 / root;
      Quat((m32 - m23) * s, (m13 - m31) * s, (m21 - m12) * s, 0.25 / s)
    case XPivot =>
      var s := 2.0 * root;
      Quat(0.25 * s, (m12 + m21) / s, (m13 + m31) / s, (m32 - m23) / s)
    case YPivot =>
      var s := 2.0 * root;
      Quat((m12 + m21) / s, 0.25 * s, (m23 + m32) / s, (m13 - m31) / s)
    case ZPivot =>
      var s := 2.0 * root;
      Quat((m13 + m31) / s, (m23 + m32) / s, 0.25 * s, (m21 - m12) / s)
  }

  /** The rotation a unit quaternion composes to gives that quaternion back
      from `quatFromRotationMatrix`, or its negation, which encodes the
      same rotation. */
  lemma QuatRecoversRotation(t: V.Vec3, q: Quat, sqrt: real -> real)
    requires IsUnit(q)
    requires IsSqrtAt(sqrt, Radicand(Compose(t, q, Unscaled)))
    ensures sqrt(Radicand(Compose(t, q, Unscaled))) != 0.0
    ensures UpToSign(QuatFromRotationMatrix(Compose(t, q, Unscaled), sqrt), q)
  {
    RotationEntries(t, q);
    RecoverFromEntries(Compose(t, q, Unscaled), q, sqrt);
  }

  /** The upper 3x3 block `compose` builds without scaling. */
  lemma RotationEntries(t: V.Vec3, q: Quat)
    ensures Compose(t, q, Unscaled).m0 == (1.0 - (q.y * (q.y + q.y) + q.z * (q.z + q.z))) * 1.0
    ensures Compose(t, q, Unscaled).m1 == (q.x * (q.y + q.y) + q.w * (q.z + q.z)) * 1.0
    ensures Compose(t, q, Unscaled).m2 == (q.x * (q.z + q.z) - q.w * (q.y + q.y)) * 1.0
    ensures Compose(t, q, Unscaled).m4 == (q.x * (q.y + q.y) - q.w * (q.z + q.z)) * 1.0
    ensures Compose(t, q, Unscaled).m5 == (1.0 - (q.x * (q.x + q.x) + q.z * (q.z + q.z))) * 1.0
    ensures Compose(t, q, Unscaled).m6 == (q.y * (q.z + q.z) + q.w * (q.x + q.x)) * 1.0
    ensures Compose(t, q, Unscaled).m8 == (q.x * (q.z + q.z) + q.w * (q.y + q.y)) * 1.0
    ensures Compose(t, q, Unscaled).m9 == (q.y * (q.z + q.z) - q.w * (q.x + q.x)) * 1.0
    ensures Compose(t, q, Unscaled).m10 == (1.0 - (q.x * (q.x + q.x) + q.y * (q.y + q.y))) * 1.0
  {
  }

  /** Any matrix whose upper 3x3 block is the rotation of `q` gives `q` back. */
  lemma RecoverFromEntries(m: Matrix4, q: Quat, sqrt: real -> real)
    requires m.m0 == (1.0 - (q.y * (q.y + q.y) + q.z * (q.z + q.z))) * 1.0
    requires m.m1 == (q.x * (q.y + q.y) + q.w * (q.z + q.z)) * 1.0
    requires m.m2 == (q.x * (q.z + q.z) - q.w * (q.y + q.y)) * 1.0
    requires m.m4 == (q.x * (q.y + q.y) - q.w * (q.z + q.z)) * 1.0
    requires m.m5 == (1.0 - (q.x * (q.x + q.x) + q.z * (q.z + q.z))) * 1.0
    requires m.m6 == (q.y * (q.z + q.z) + q.w * (q.x + q.x)) * 1.0
    requires m.m8 == (q.x * (q.z + q.z) + q.w * (q.y + q.y)) * 1.0
    requires m.m9 == (q.y * (q.z + q.z) - q.w * (q.x + q.x)) * 1.0
    requires m.m10 == (1.0 - (q.x * (q.x + q.x) + q.y * (q.y + q.y))) * 1.0
    requires IsUnit(q)
    requires IsSqrtAt(sqrt, Radicand(m))
    ensures sqrt(Radicand(m)) != 0.0
    ensures UpToSign(QuatFromRotationMatrix(m, sqrt), q)
  {
    match PivotOf(m)
    case TracePivot => RecoverTracePivot(m, q, sqrt);
    case XPivot => RecoverXPivot(m, q, sqrt);
    case YPivot => RecoverYPivot(m, q, sqrt);
    case ZPivot => RecoverZPivot(m, q, sqrt);
  }

  lemma RecoverTracePivot(m: Matrix4, q: Quat, sqrt: real -> real)
    requires m.m0 == (1.0 - (q.y * (q.y + q.y) + q.z * (q.z + q.z))) * 1.0
    requires m.m1 == (q.x * (q.y + q.y) + q.w * (q.z + q.z)) * 1.0
    requires m.m2 == (q.x * (q.z + q.z) - q.w * (q.y + q.y)) * 1.0
    requires m.m4 == (q.x * (q.y + q.y) - q.w * (q.z + q.z)) * 1.0
    requires m.m5 == (1.0 - (q.x * (q.x + q.x) + q.z * (q.z + q.z))) * 1.0
    requires m.m6 == (q.y * (q.z + q.z) + q.w * (q.x + q.x)) * 1.0
    requires m.m8 == (q.x * (q.z + q.z) + q.w * (q.y + q.y)) * 1.0
    requires m.m9 == (q.y * (q.z + q.z) - q.w * (q.x + q.x)) * 1.0
    requires m.m10 == (1.0 - (q.x * (q.x + q.x) + q.y * (q.y + q.y))) * 1.0
    requires IsUnit(q)
    requires PivotOf(m) == TracePivot
    requires IsSqrtAt(sqrt, Radicand(m))
    ensures sqrt(Radicand(m)) != 0.0
    ensures UpToSign(QuatFromRotationMatrix(m, sqrt), q)
  {
    var root := sqrt(Radicand(m));
    RecoverTrace(q.x, q.y, q.z, q.w, m.m0, m.m1, m.m2, m.m4, m.m5, m.m6, m.m8, m.m9, m.m10, root);
    QuatFromTrace(m, sqrt, root);
  }

  lemma RecoverXPivot(m: Matrix4, q: Quat, sqrt: real -> real)
    requires m.m0 == (1.0 - (q.y * (q.y + q.y) + q.z * (q.z + q.z))) * 1.0
    requires m.m1 == (q.x * (q.y + q.y) + q.w * (q.z + q.z)) * 1.0
    requires m.m2 == (q.x * (q.z + q.z) - q.w * (q.y + q.y)) * 1.0
    requires m.m4 == (q.x * (q.y + q.y) - q.w * (q.z + q.z)) * 1.0
    requires m.m5 == (1.0 - (q.x * (q.x + q.x) + q.z * (q.z + q.z))) * 1.0
    requires m.m6 == (q.y * (q.z + q.z) + q.w * (q.x + q.x)) * 1.0
    requires m.m8 == (q.x * (q.z + q.z) + q.w * (q.y + q.y)) * 1.0
    requires m.m9 == (q.y * (q.z + q.z) - q.w * (q.x + q.x)) * 1.0
    requires m.m10 == (1.0 - (q.x * (q.x + q.x) + q.y * (q.y + q.y))) * 1.0
    requires IsUnit(q)
    requires PivotOf(m) == XPivot
    requires IsSqrtAt(sqrt, Radicand(m))
    ensures sqrt(Radicand(m)) != 0.0
    ensures UpToSign(QuatFromRotationMatrix(m, sqrt), q)
  {
    var root := sqrt(Radicand(m));
    RecoverX(q.x, q.y, q.z, q.w, m.m0, m.m1, m.m2, m.m4, m.m5, m.m6, m.m8, m.m9, m.m10, root);
    QuatFromX(m, sqrt, root);
  }

  lemma RecoverYPivot(m: Matrix4, q: Quat, sqrt: real -> real)
    requires m.m0 == (1.0 - (q.y * (q.y + q.y) + q.z * (q.z + q.z))) * 1.0
    requires m.m1 == (q.x * (q.y + q.y) + q.w * (q.z + q.z)) * 1.0
    requires m.m2 == (q.x * (q.z + q.z) - q.w * (q.y + q.y)) * 1.0
    requires m.m4 == (q.x * (q.y + q.y) - q.w * (q.z + q.z)) * 1.0
    requires m.m5 == (1.0 - (q.x * (q.x + q.x) + q.z * (q.z + q.z))) * 1.0
    requires m.m6 == (q.y * (q.z + q.z) + q.w * (q.x + q.x)) * 1.0
    requires m.m8 == (q.x * (q.z + q.z) + q.w * (q.y + q.y)) * 1.0
    requires m.m9 == (q.y * (q.z + q.z) - q.w * (q.x + q.x)) * 1.0
    requires m.m10 == (1.0 - (q.x * (q.x + q.x) + q.y * (q.y + q.y))) * 1.0
    requires IsUnit(q)
    requires PivotOf(m) == YPivot
    requires IsSqrtAt(sqrt, Radicand(m))
    ensures sqrt(Radicand(m)) != 0.0
    ensures UpToSign(QuatFromRotationMatrix(m, sqrt), q)
  {
    var root := sqrt(Radicand(m));
    RecoverY(q.x, q.y, q.z, q.w, m.m0, m.m1, m.m2, m.m4, m.m5, m.m6, m.m8, m.m9, m.m10, root);
    QuatFromY(m, sqrt, root);
  }

  lemma RecoverZPivot(m: Matrix4, q: Quat, sqrt: real -> real)
    requires m.m0 == (1.0 - (q.y * (q.y + q.y) + q.z * (q.z + q.z))) * 1.0
    requires m.m1 == (q.x * (q.y + q.y) + q.w * (q.z + q.z)) * 1.0
    requires m.m2 == (q.x * (q.z + q.z) - q.w * (q.y + q.y)) * 1.0
    requires m.m4 == (q.x * (q.y + q.y) - q.w * (q.z + q.z)) * 1.0
    requires m.m5 == (1.0 - (q.x * (q.x + q.x) + q.z * (q.z + q.z))) * 1.0
    requires m.m6 == (q.y * (q.z + q.z) + q.w * (q.x + q.x)) * 1.0
    requires m.m8 == (q.x * (q.z + q.z) + q.w * (q.y + q.y)) * 1.0
    requires m.m9 == (q.y * (q.z + q.z) - q.w * (q.x + q.x)) * 1.0
    requires m.m10 == (1.0 - (q.x * (q.x + q.x) + q.y * (q.y + q.y))) * 1.0
    requires IsUnit(q)
    requires PivotOf(m) == ZPivot
    requires IsSqrtAt(sqrt, Radicand(m))
    ensures sqrt(Radicand(m)) != 0.0
    ensures UpToSign(QuatFromRotationMatrix(m, sqrt), q)
  {
    var root := sqrt(Radicand(m));
    RecoverZ(q.x, q.y, q.z, q.w, m.m0, m.m1, m.m2, m.m4, m.m5, m.m6, m.m8, m.m9, m.m10, root);
    QuatFromZ(m, sqrt, root);
  }

  lemma QuatFromTrace(m: Matrix4, sqrt: real -> real, root: real)
    requires PivotOf(m) == TracePivot && root == sqrt(Radicand(m)) && root != 0.0
    ensures QuatFromRotationMatrix(m, sqrt)
         == Quat((m.m6 - m.m9) * (0.5 / root), (m.m8 - m.m2) * (0.5 / root), (m.m1 - m.m4) * (0.5 / root), 0.25 / (0.5 / root))
  {
  }

  lemma QuatFromX(m: Matrix4, sqrt: real -> real, root: real)
    requires PivotOf(m) == XPivot && root == sqrt(Radicand(m)) && root != 0.0
    ensures QuatFromRotationMatrix(m, sqrt)
         == Quat(0.25 * (2.0 * root), (m.m4 + m.m1) / (2.0 * root), (m.m8 + m.m2) / (2.0 * root), (m.m6 - m.m9) / (2.0 * root))
  {
  }

  lemma QuatFromY(m: Matrix4, sqrt: real -> real, root: real)
    requires PivotOf(m) == YPivot && root == sqrt(Radicand(m)) && root != 0.0
    ensures QuatFromRotationMatrix(m, sqrt)
         == Quat((m.m4 + m.m1) / (2.0 * root), 0.25 * (2.0 * root), (m.m9 + m.m6) / (2.0 * root), (m.m8 - m.m2) / (2.0 * root))
  {
  }

  lemma QuatFromZ(m: Matrix4, sqrt: real -> real, root: real)
    requires PivotOf(m) == ZPivot && root == sqrt(Radicand(m)) && root != 0.0
    ensures QuatFromRotationMatrix(m, sqrt)
         == Quat((m.m8 + m.m2) / (2.0 * root), (m.m9 + m.m6) / (2.0 * root), 0.25 * (2.0 * root), (m.m1 - m.m4) / (2.0 * root))
  {
  }

  /** The trace branch: `w` is the pivot. */
  lemma RecoverTrace(x: real, y: real, z: real, w: real, r0: real, r1: real, r2: real, r4: real, r5: real, r6: real, r8: real, r9: real, r10: real, root: real)
    requires r0 == (1.0 - (y * (y + y) + z * (z + z))) * 1.0 && r1 == (x * (y + y) + w * (z + z)) * 1.0
    requires r2 == (x * (z + z) - w * (y + y)) * 1.0 && r4 == (x * (y + y) - w * (z + z)) * 1.0
    requires r5 == (1.0 - (x * (x + x) + z * (z + z))) * 1.0 && r6 == (y * (z + z) + w * (x + x)) * 1.0
    requires r8 == (x * (z + z) + w * (y + y)) * 1.0 && r9 == (y * (z + z) - w * (x + x)) * 1.0
    requires r10 == (1.0 - (x * (x + x) + y * (y + y))) * 1.0
    requires x * x + y * y + z * z + w * w == 1.0
    requires r0 + r5 + r10 > 0.0
    requires root >= 0.0 && root * root == r0 + r5 + r10 + 1.0
    ensures root != 0.0
    ensures UpToSign(Quat((r6 - r9) * (0.5 / root), (r8 - r2) * (0.5 / root), (r1 - r4) * (0.5 / root), 0.25 / (0.5 / root)),
                     Quat(x, y, z, w))
  {
    var e := TraceRoot(x, y, z, w, r0, r1, r2, r4, r5, r6, r8, r9, r10, root);
    TraceValues(x, y, z, w, r1, r2, r4, r6, r8, r9, root, e);
  }

  /** In the trace branch the root is `2 |w|`. */
  lemma TraceRoot(x: real, y: real, z: real, w: real, r0: real, r1: real, r2: real, r4: real, r5: real, r6: real, r8: real, r9: real, r10: real, root: real) returns (e: real)
    requires r0 == (1.0 - (y * (y + y) + z * (z + z))) * 1.0 && r1 == (x * (y + y) + w * (z + z)) * 1.0
    requires r2 == (x * (z + z) - w * (y + y)) * 1.0 && r4 == (x * (y + y) - w * (z + z)) * 1.0
    requires r5 == (1.0 - (x * (x + x) + z * (z + z))) * 1.0 && r6 == (y * (z + z) + w * (x + x)) * 1.0
    requires r8 == (x * (z + z) + w * (y + y)) * 1.0 && r9 == (y * (z + z) - w * (x + x)) * 1.0
    requires r10 == (1.0 - (x * (x + x) + y * (y + y))) * 1.0
    requires x * x + y * y + z * z + w * w == 1.0
    requires r0 + r5 + r10 > 0.0
    requires root >= 0.0 && root * root == r0 + r5 + r10 + 1.0
    ensures (e == 1.0 || e == -1.0) && w != 0.0 && root == 2.0 * e * w
    ensures r6 - r9 == 4.0 * w * x && r8 - r2 == 4.0 * w * y && r1 - r4 == 4.0 * w * z
  {
    FactDiff1(x, y, z, w, r0, r1, r2, r4, r5, r6, r8, r9, r10);
    FactDiff2(x, y, z, w, r0, r1, r2, r4, r5, r6, r8, r9, r10);
    FactDiff3(x, y, z, w, r0, r1, r2, r4, r5, r6, r8, r9, r10);
    FactTrace(x, y, z, w, r0, r1, r2, r4, r5, r6, r8, r9, r10);
    assert root * root == 4.0 * w * w;
    e := RootOfFourSquares(w, root);
  }

  /** The trace branch's four values are `e` times the quaternion. */
  lemma TraceValues(x: real, y: real, z: real, w: real, r1: real, r2: real, r4: real, r6: real, r8: real, r9: real,
                    root: real, e: real)
    requires (e == 1.0 || e == -1.0) && w != 0.0 && root == 2.0 * e * w
    requires r6 - r9 == 4.0 * w * x && r8 - r2 == 4.0 * w * y && r1 - r4 == 4.0 * w * z
    ensures root != 0.0
    ensures UpToSign(Quat((r6 - r9) * (0.5 / root), (r8 - r2) * (0.5 / root), (r1 - r4) * (0.5 / root), 0.25 / (0.5 / root)),
                     Quat(x, y, z, w))
  {
    var s := 0.5 / root;
    TraceValue(w, x, e, root, r6 - r9);
    TraceValue(w, y, e, root, r8 - r2);
    TraceValue(w, z, e, root, r1 - r4);
    TracePivotValue(w, e, root);
    SignedQuat(x, y, z, w, e, (r6 - r9) * s, (r8 - r2) * s, (r1 - r4) * s, 0.25 / s);
  }

  /** `e` times a quaternion, for a sign `e`, is the quaternion or its negation. */
  lemma SignedQuat(x: real, y: real, z: real, w: real, e: real, a: real, b: real, c: real, d: real)
    requires e == 1.0 || e == -1.0
    requires a == e * x && b == e * y && c == e * z && d == e * w
    ensures UpToSign(Quat(a, b, c, d), Quat(x, y, z, w))
  {
  }

  /** The branch for a largest `m11`: `x` is the pivot. */
  lemma RecoverX(x: real, y: real, z: real, w: real, r0: real, r1: real, r2: real, r4: real, r5: real, r6: real, r8: real, r9: real, r10: real, root: real)
    requires r0 == (1.0 - (y * (y + y) + z * (z + z))) * 1.0 && r1 == (x * (y + y) + w * (z + z)) * 1.0
    requires r2 == (x * (z + z) - w * (y + y)) * 1.0 && r4 == (x * (y + y) - w * (z + z)) * 1.0
    requires r5 == (1.0 - (x * (x + x) + z * (z + z))) * 1.0 && r6 == (y * (z + z) + w * (x + x)) * 1.0
    requires r8 == (x * (z + z) + w * (y + y)) * 1.0 && r9 == (y * (z + z) - w * (x + x)) * 1.0
    requires r10 == (1.0 - (x * (x + x) + y * (y + y))) * 1.0
    requires !(r0 + r5 + r10 > 0.0) && r0 > r5 && r0 > r10
    requires root >= 0.0 && root * root == 1.0 + r0 - r5 - r10
    ensures root != 0.0
    ensures UpToSign(Quat(0.25 * (2.0 * root), (r4 + r1) / (2.0 * root), (r8 + r2) / (2.0 * root), (r6 - r9) / (2.0 * root)),
                     Quat(x, y, z, w))
  {
    FactSum12(x, y, z, w, r0, r1, r2, r4, r5, r6, r8, r9, r10);
    FactSum13(x, y, z, w, r0, r1, r2, r4, r5, r6, r8, r9, r10);
    FactDiff1(x, y, z, w, r0, r1, r2, r4, r5, r6, r8, r9, r10);
    FactX(x, y, z, w, r0, r1, r2, r4, r5, r6, r8, r9, r10);
    FactXY(x, y, z, w, r0, r1, r2, r4, r5, r6, r8, r9, r10);
    NonzeroFromSquares(x, y);
    var e := RootOfFourSquares(x, root);
    PivotValue(x, y, e, root, r4 + r1);
    PivotValue(x, z, e, root, r8 + r2);
    PivotValueSwapped(x, w, e, root, r6 - r9);
  }

  /** The branch for a largest `m22`: `y` is the pivot. */
  lemma RecoverY(x: real, y: real, z: real, w: real, r0: real, r1: real, r2: real, r4: real, r5: real, r6: real, r8: real, r9: real, r10: real, root: real)
    requires r0 == (1.0 - (y * (y + y) + z * (z + z))) * 1.0 && r1 == (x * (y + y) + w * (z + z)) * 1.0
    requires r2 == (x * (z + z) - w * (y + y)) * 1.0 && r4 == (x * (y + y) - w * (z + z)) * 1.0
    requires r5 == (1.0 - (x * (x + x) + z * (z + z))) * 1.0 && r6 == (y * (z + z) + w * (x + x)) * 1.0
    requires r8 == (x * (z + z) + w * (y + y)) * 1.0 && r9 == (y * (z + z) - w * (x + x)) * 1.0
    requires r10 == (1.0 - (x * (x + x) + y * (y + y))) * 1.0
    requires !(r0 + r5 + r10 > 0.0) && !(r0 > r5 && r0 > r10) && r5 > r10
    requires root >= 0.0 && root * root == 1.0 + r5 - r0 - r10
    ensures root != 0.0
    ensures UpToSign(Quat((r4 + r1) / (2.0 * root), 0.25 * (2.0 * root), (r9 + r6) / (2.0 * root), (r8 - r2) / (2.0 * root)),
                     Quat(x, y, z, w))
  {
    FactSum12(x, y, z, w, r0, r1, r2, r4, r5, r6, r8, r9, r10);
    FactSum23(x, y, z, w, r0, r1, r2, r4, r5, r6, r8, r9, r10);
    FactDiff2(x, y, z, w, r0, r1, r2, r4, r5, r6, r8, r9, r10);
    FactY(x, y, z, w, r0, r1, r2, r4, r5, r6, r8, r9, r10);
    FactYZ(x, y, z, w, r0, r1, r2, r4, r5, r6, r8, r9, r10);
    NonzeroFromSquares(y, z);
    var e := RootOfFourSquares(y, root);
    PivotValueSwapped(y, x, e, root, r4 + r1);
    PivotValue(y, z, e, root, r9 + r6);
    PivotValueSwapped(y, w, e, root, r8 - r2);
  }

  /** The remaining branch: `z` is the pivot. */
  lemma RecoverZ(x: real, y: real, z: real, w: real, r0: real, r1: real, r2: real, r4: real, r5: real, r6: real, r8: real, r9: real, r10: real, root: real)
    requires r0 == (1.0 - (y * (y + y) + z * (z + z))) * 1.0 && r1 == (x * (y + y) + w * (z + z)) * 1.0
    requires r2 == (x * (z + z) - w * (y + y)) * 1.0 && r4 == (x * (y + y) - w * (z + z)) * 1.0
    requires r5 == (1.0 - (x * (x + x) + z * (z + z))) * 1.0 && r6 == (y * (z + z) + w * (x + x)) * 1.0
    requires r8 == (x * (z + z) + w * (y + y)) * 1.0 && r9 == (y * (z + z) - w * (x + x)) * 1.0
    requires r10 == (1.0 - (x * (x + x) + y * (y + y))) * 1.0
    requires x * x + y * y + z * z + w * w == 1.0
    requires !(r0 + r5 + r10 > 0.0) && !(r0 > r5 && r0 > r10) && !(r5 > r10)
    requires root >= 0.0 && root * root == 1.0 + r10 - r0 - r5
    ensures root != 0.0
    ensures UpToSign(Quat((r8 + r2) / (2.0 * root), (r9 + r6) / (2.0 * root), 0.25 * (2.0 * root), (r1 - r4) / (2.0 * root)),
                     Quat(x, y, z, w))
  {
    FactSum13(x, y, z, w, r0, r1, r2, r4, r5, r6, r8, r9, r10);
    FactSum23(x, y, z, w, r0, r1, r2, r4, r5, r6, r8, r9, r10);
    FactDiff3(x, y, z, w, r0, r1, r2, r4, r5, r6, r8, r9, r10);
    FactZ(x, y, z, w, r0, r1, r2, r4, r5, r6, r8, r9, r10);
    FactTrace(x, y, z, w, r0, r1, r2, r4, r5, r6, r8, r9, r10);
    FactXY(x, y, z, w, r0, r1, r2, r4, r5, r6, r8, r9, r10);
    FactXZ(x, y, z, w, r0, r1, r2, r4, r5, r6, r8, r9, r10);
    FactYZ(x, y, z, w, r0, r1, r2, r4, r5, r6, r8, r9, r10);
    ZPivotNonzero(x, y, z, w);
    var e := RootOfFourSquares(z, root);
    PivotValueSwapped(z, x, e, root, r8 + r2);
    PivotValueSwapped(z, y, e, root, r9 + r6);
    PivotValueSwapped(z, w, e, root, r1 - r4);
  }

  /** `a * a > b * b` makes `a` nonzero. */
  lemma NonzeroFromSquares(a: real, b: real)
    requires 2.0 * (a * a - b * b) > 0.0
    ensures a != 0.0
  {
    Square(b, b * b);
  }

  /** When `z` is the pivot of a unit quaternion, `z` is nonzero: with `z = 0`
      the conditions force `x = y = 0`, and then the trace is positive. */
  lemma ZPivotNonzero(x: real, y: real, z: real, w: real)
    requires x * x + y * y + z * z + w * w == 1.0
    requires !(4.0 - 4.0 * (x * x + y * y + z * z) - 1.0 > 0.0)
    requires !(2.0 * (x * x - y * y) > 0.0 && 2.0 * (x * x - z * z) > 0.0)
    requires !(2.0 * (y * y - z * z) > 0.0)
    ensures z != 0.0
  {
    if z == 0.0 {
      Square(x, x * x);
      Square(y, y * y);
      Square(w, w * w);
    }
  }

  /** The non-negative root of `4 a^2` is `2 e a` for the sign `e` of `a`. */
  lemma RootOfFourSquares(a: real, root: real) returns (e: real)
    requires a != 0.0 && root >= 0.0 && root * root == 4.0 * a * a
    ensures (e == 1.0 || e == -1.0) && root == 2.0 * e * a
  {
    e := if a > 0.0 then 1.0 else -1.0;
    var m := 2.0 * e * a;
    assert m > 0.0;
    assert m * m == 4.0 * a * a;
    assert (root - m) * (root + m) == 0.0;
    MulPos(root + m, 1.0, root + m);
  }

  /** The trace branch's value for a non-pivot component `b`. */
  lemma TraceValue(a: real, b: real, e: real, root: real, d: real)
    requires (e == 1.0 || e == -1.0) && a != 0.0 && root == 2.0 * e * a && d == 4.0 * a * b
    ensures d * (0.5 / root) == e * b
  {
    assert 0.5 / root == 1.0 / (4.0 * e * a);
  }

  /** The trace branch's value for the pivot. */
  lemma TracePivotValue(a: real, e: real, root: real)
    requires (e == 1.0 || e == -1.0) && a != 0.0 && root == 2.0 * e * a
    ensures 0.25 / (0.5 / root) == e * a
  {
  }

  /** A pivot branch's value for a non-pivot component `b`, with the
      product given as `4 a b`. */
  lemma PivotValue(a: real, b: real, e: real, root: real, d: real)
    requires (e == 1.0 || e == -1.0) && a != 0.0 && root == 2.0 * e * a && d == 4.0 * a * b
    ensures d / (2.0 * root) == e * b
    ensures 0.25 * (2.0 * root) == e * a
  {
  }

  /** The same with the product given as `4 b a`. */
  lemma PivotValueSwapped(a: real, b: real, e: real, root: real, d: real)
    requires (e == 1.0 || e == -1.0) && a != 0.0 && root == 2.0 * e * a && d == 4.0 * b * a
    ensures d / (2.0 * root) == e * b
    ensures 0.25 * (2.0 * root) == e * a
  {
    PivotValue(a, b, e, root, 4.0 * a * b);
  }

  lemma FactDiff1(x: real, y: real, z: real, w: real, r0: real, r1: real, r2: real, r4: real, r5: real, r6: real, r8: real, r9: real, r10: real)
    requires r0 == (1.0 - (y * (y + y) + z * (z + z))) * 1.0 && r1 == (x * (y + y) + w * (z + z)) * 1.0
    requires r2 == (x * (z + z) - w * (y + y)) * 1.0 && r4 == (x * (y + y) - w * (z + z)) * 1.0
    requires r5 == (1.0 - (x * (x + x) + z * (z + z))) * 1.0 && r6 == (y * (z + z) + w * (x + x)) * 1.0
    requires r8 == (x * (z + z) + w * (y + y)) * 1.0 && r9 == (y * (z + z) - w * (x + x)) * 1.0
    requires r10 == (1.0 - (x * (x + x) + y * (y + y))) * 1.0
    ensures r6 - r9 == 4.0 * w * x
  {
  }

  lemma FactDiff2(x: real, y: real, z: real, w: real, r0: real, r1: real, r2: real, r4: real, r5: real, r6: real, r8: real, r9: real, r10: real)
    requires r0 == (1.0 - (y * (y + y) + z * (z + z))) * 1.0 && r1 == (x * (y + y) + w * (z + z)) * 1.0
    requires r2 == (x * (z + z) - w * (y + y)) * 1.0 && r4 == (x * (y + y) - w * (z + z)) * 1.0
    requires r5 == (1.0 - (x * (x + x) + z * (z + z))) * 1.0 && r6 == (y * (z + z) + w * (x + x)) * 1.0
    requires r8 == (x * (z + z) + w * (y + y)) * 1.0 && r9 == (y * (z + z) - w * (x + x)) * 1.0
    requires r10 == (1.0 - (x * (x + x) + y * (y + y))) * 1.0
    ensures r8 - r2 == 4.0 * w * y
  {
  }

  lemma FactDiff3(x: real, y: real, z: real, w: real, r0: real, r1: real, r2: real, r4: real, r5: real, r6: real, r8: real, r9: real, r10: real)
    requires r0 == (1.0 - (y * (y + y) + z * (z + z))) * 1.0 && r1 == (x * (y + y) + w * (z + z)) * 1.0
    requires r2 == (x * (z + z) - w * (y + y)) * 1.0 && r4 == (x * (y + y) - w * (z + z)) * 1.0
    requires r5 == (1.0 - (x * (x + x) + z * (z + z))) * 1.0 && r6 == (y * (z + z) + w * (x + x)) * 1.0
    requires r8 == (x * (z + z) + w * (y + y)) * 1.0 && r9 == (y * (z + z) - w * (x + x)) * 1.0
    requires r10 == (1.0 - (x * (x + x) + y * (y + y))) * 1.0
    ensures r1 - r4 == 4.0 * w * z
  {
  }

  lemma FactSum12(x: real, y: real, z: real, w: real, r0: real, r1: real, r2: real, r4: real, r5: real, r6: real, r8: real, r9: real, r10: real)
    requires r0 == (1.0 - (y * (y + y) + z * (z + z))) * 1.0 && r1 == (x * (y + y) + w * (z + z)) * 1.0
    requires r2 == (x * (z + z) - w * (y + y)) * 1.0 && r4 == (x * (y + y) - w * (z + z)) * 1.0
    requires r5 == (1.0 - (x * (x + x) + z * (z + z))) * 1.0 && r6 == (y * (z + z) + w * (x + x)) * 1.0
    requires r8 == (x * (z + z) + w * (y + y)) * 1.0 && r9 == (y * (z + z) - w * (x + x)) * 1.0
    requires r10 == (1.0 - (x * (x + x) + y * (y + y))) * 1.0
    ensures r4 + r1 == 4.0 * x * y
  {
  }

  lemma FactSum13(x: real, y: real, z: real, w: real, r0: real, r1: real, r2: real, r4: real, r5: real, r6: real, r8: real, r9: real, r10: real)
    requires r0 == (1.0 - (y * (y + y) + z * (z + z))) * 1.0 && r1 == (x * (y + y) + w * (z + z)) * 1.0
    requires r2 == (x * (z + z) - w * (y + y)) * 1.0 && r4 == (x * (y + y) - w * (z + z)) * 1.0
    requires r5 == (1.0 - (x * (x + x) + z * (z + z))) * 1.0 && r6 == (y * (z + z) + w * (x + x)) * 1.0
    requires r8 == (x * (z + z) + w * (y + y)) * 1.0 && r9 == (y * (z + z) - w * (x + x)) * 1.0
    requires r10 == (1.0 - (x * (x + x) + y * (y + y))) * 1.0
    ensures r8 + r2 == 4.0 * x * z
  {
  }

  lemma FactSum23(x: real, y: real, z: real, w: real, r0: real, r1: real, r2: real, r4: real, r5: real, r6: real, r8: real, r9: real, r10: real)
    requires r0 == (1.0 - (y * (y + y) + z * (z + z))) * 1.0 && r1 == (x * (y + y) + w * (z + z)) * 1.0
    requires r2 == (x * (z + z) - w * (y + y)) * 1.0 && r4 == (x * (y + y) - w * (z + z)) * 1.0
    requires r5 == (1.0 - (x * (x + x) + z * (z + z))) * 1.0 && r6 == (y * (z + z) + w * (x + x)) * 1.0
    requires r8 == (x * (z + z) + w * (y + y)) * 1.0 && r9 == (y * (z + z) - w * (x + x)) * 1.0
    requires r10 == (1.0 - (x * (x + x) + y * (y + y))) * 1.0
    ensures r9 + r6 == 4.0 * y * z
  {
  }

  lemma FactTrace(x: real, y: real, z: real, w: real, r0: real, r1: real, r2: real, r4: real, r5: real, r6: real, r8: real, r9: real, r10: real)
    requires r0 == (1.0 - (y * (y + y) + z * (z + z))) * 1.0 && r1 == (x * (y + y) + w * (z + z)) * 1.0
    requires r2 == (x * (z + z) - w * (y + y)) * 1.0 && r4 == (x * (y + y) - w * (z + z)) * 1.0
    requires r5 == (1.0 - (x * (x + x) + z * (z + z))) * 1.0 && r6 == (y * (z + z) + w * (x + x)) * 1.0
    requires r8 == (x * (z + z) + w * (y + y)) * 1.0 && r9 == (y * (z + z) - w * (x + x)) * 1.0
    requires r10 == (1.0 - (x * (x + x) + y * (y + y))) * 1.0
    ensures r0 + r5 + r10 + 1.0 == 4.0 - 4.0 * (x * x + y * y + z * z)
  {
  }

  lemma FactX(x: real, y: real, z: real, w: real, r0: real, r1: real, r2: real, r4: real, r5: real, r6: real, r8: real, r9: real, r10: real)
    requires r0 == (1.0 - (y * (y + y) + z * (z + z))) * 1.0 && r1 == (x * (y + y) + w * (z + z)) * 1.0
    requires r2 == (x * (z + z) - w * (y + y)) * 1.0 && r4 == (x * (y + y) - w * (z + z)) * 1.0
    requires r5 == (1.0 - (x * (x + x) + z * (z + z))) * 1.0 && r6 == (y * (z + z) + w * (x + x)) * 1.0
    requires r8 == (x * (z + z) + w * (y + y)) * 1.0 && r9 == (y * (z + z) - w * (x + x)) * 1.0
    requires r10 == (1.0 - (x * (x + x) + y * (y + y))) * 1.0
    ensures 1.0 + r0 - r5 - r10 == 4.0 * x * x
  {
  }

  lemma FactY(x: real, y: real, z: real, w: real, r0: real, r1: real, r2: real, r4: real, r5: real, r6: real, r8: real, r9: real, r10: real)
    requires r0 == (1.0 - (y * (y + y) + z * (z + z))) * 1.0 && r1 == (x * (y + y) + w * (z + z)) * 1.0
    requires r2 == (x * (z + z) - w * (y + y)) * 1.0 && r4 == (x * (y + y) - w * (z + z)) * 1.0
    requires r5 == (1.0 - (x * (x + x) + z * (z + z))) * 1.0 && r6 == (y * (z + z) + w * (x + x)) * 1.0
    requires r8 == (x * (z + z) + w * (y + y)) * 1.0 && r9 == (y * (z + z) - w * (x + x)) * 1.0
    requires r10 == (1.0 - (x * (x + x) + y * (y + y))) * 1.0
    ensures 1.0 + r5 - r0 - r10 == 4.0 * y * y
  {
  }

  lemma FactZ(x: real, y: real, z: real, w: real, r0: real, r1: real, r2: real, r4: real, r5: real, r6: real, r8: real, r9: real, r10: real)
    requires r0 == (1.0 - (y * (y + y) + z * (z + z))) * 1.0 && r1 == (x * (y + y) + w * (z + z)) * 1.0
    requires r2 == (x * (z + z) - w * (y + y)) * 1.0 && r4 == (x * (y + y) - w * (z + z)) * 1.0
    requires r5 == (1.0 - (x * (x + x) + z * (z + z))) * 1.0 && r6 == (y * (z + z) + w * (x + x)) * 1.0
    requires r8 == (x * (z + z) + w * (y + y)) * 1.0 && r9 == (y * (z + z) - w * (x + x)) * 1.0
    requires r10 == (1.0 - (x * (x + x) + y * (y + y))) * 1.0
    ensures 1.0 + r10 - r0 - r5 == 4.0 * z * z
  {
  }

  lemma FactXY(x: real, y: real, z: real, w: real, r0: real, r1: real, r2: real, r4: real, r5: real, r6: real, r8: real, r9: real, r10: real)
    requires r0 == (1.0 - (y * (y + y) + z * (z + z))) * 1.0 && r1 == (x * (y + y) + w * (z + z)) * 1.0
    requires r2 == (x * (z + z) - w * (y + y)) * 1.0 && r4 == (x * (y + y) - w * (z + z)) * 1.0
    requires r5 == (1.0 - (x * (x + x) + z * (z + z))) * 1.0 && r6 == (y * (z + z) + w * (x + x)) * 1.0
    requires r8 == (x * (z + z) + w * (y + y)) * 1.0 && r9 == (y * (z + z) - w * (x + x)) * 1.0
    requires r10 == (1.0 - (x * (x + x) + y * (y + y))) * 1.0
    ensures r0 - r5 == 2.0 * (x * x - y * y)
  {
  }

  lemma FactXZ(x: real, y: real, z: real, w: real, r0: real, r1: real, r2: real, r4: real, r5: real, r6: real, r8: real, r9: real, r10: real)
    requires r0 == (1.0 - (y * (y + y) + z * (z + z))) * 1.0 && r1 == (x * (y + y) + w * (z + z)) * 1.0
    requires r2 == (x * (z + z) - w * (y + y)) * 1.0 && r4 == (x * (y + y) - w * (z + z)) * 1.0
    requires r5 == (1.0 - (x * (x + x) + z * (z + z))) * 1.0 && r6 == (y * (z + z) + w * (x + x)) * 1.0
    requires r8 == (x * (z + z) + w * (y + y)) * 1.0 && r9 == (y * (z + z) - w * (x + x)) * 1.0
    requires r10 == (1.0 - (x * (x + x) + y * (y + y))) * 1.0
    ensures r0 - r10 == 2.0 * (x * x - z * z)
  {
  }

  lemma FactYZ(x: real, y: real, z: real, w: real, r0: real, r1: real, r2: real, r4: real, r5: real, r6: real, r8: real, r9: real, r10: real)
    requires r0 == (1.0 - (y * (y + y) + z * (z + z))) * 1.0 && r1 == (x * (y + y) + w * (z + z)) * 1.0
    requires r2 == (x * (z + z) - w * (y + y)) * 1.0 && r4 == (x * (y + y) - w * (z + z)) * 1.0
    requires r5 == (1.0 - (x * (x + x) + z * (z + z))) * 1.0 && r6 == (y * (z + z) + w * (x + x)) * 1.0
    requires r8 == (x * (z + z) + w * (y + y)) * 1.0 && r9 == (y * (z + z) - w * (x + x)) * 1.0
    requires r10 == (1.0 - (x * (x + x) + y * (y + y))) * 1.0
    ensures r5 - r10 == 2.0 * (y * y - z * z)
  {
  }

}
