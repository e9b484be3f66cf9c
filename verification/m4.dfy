/** The 4x4 matrix core of `m4`: identity, copy, multiply, transpose and the
    vector, point and direction transforms. A matrix is the datatype
    `Matrix4`; its fields `m0` .. `m15` are the 16 entries of the library's
    column-major array, so entry `i * 4 + j` sits in column `i`, row `j`. A
    homogeneous vector is `Vec4`. Every operation returns a fresh value: the
    optional `dst` buffer is not modelled. */
module M4 {
  import V = Vectors

  datatype Vec4 = Vec4(x: real, y: real, z: real, w: real)

  datatype Matrix4 = Matrix4(m0: real, m1: real, m2: real, m3: real,
                             m4: real, m5: real, m6: real, m7: real,
                             m8: real, m9: real, m10: real, m11: real,
                             m12: real, m13: real, m14: real, m15: real)

  /** Array entry `i`. */
  function Get(m: Matrix4, i: int): real
    requires 0 <= i < 16
  {
    if i == 0 then m.m0
    else if i == 1 then m.m1
    else if i == 2 then m.m2
    else if i == 3 then m.m3
    else if i == 4 then m.m4
    else if i == 5 then m.m5
    else if i == 6 then m.m6
    else if i == 7 then m.m7
    else if i == 8 then m.m8
    else if i == 9 then m.m9
    else if i == 10 then m.m10
    else if i == 11 then m.m11
    else if i == 12 then m.m12
    else if i == 13 then m.m13
    else if i == 14 then m.m14
    else m.m15
  }

  /** The 16-element array holding `m`. */
  function ToSeq(m: Matrix4): (s: seq<real>)
    ensures |s| == 16
    ensures forall i | 0 <= i < 16 :: s[i] == Get(m, i)
  {
    [m.m0, m.m1, m.m2, m.m3, m.m4, m.m5, m.m6, m.m7, m.m8, m.m9, m.m10, m.m11, m.m12, m.m13, m.m14, m.m15]
  }

  /** The matrix held by a 16-element array. */
  function FromSeq(s: seq<real>): (m: Matrix4)
    requires |s| == 16
    ensures forall i | 0 <= i < 16 :: Get(m, i) == s[i]
  {
    Matrix4(s[0], s[1], s[2], s[3], s[4], s[5], s[6], s[7], s[8], s[9], s[10], s[11], s[12], s[13], s[14], s[15])
  }

  /** Arrays of 16 entries and matrices are the same thing. */
  lemma SeqRoundTrip(m: Matrix4, s: seq<real>)
    ensures FromSeq(ToSeq(m)) == m
    ensures |s| == 16 ==> ToSeq(FromSeq(s)) == s
  {
  }

  /** `identity`: the zero-filled array with 1 on the diagonal. */
  const Identity: Matrix4 := Matrix4(1.0, 0.0, 0.0, 0.0, 0.0, 1.0, 0.0, 0.0, 0.0, 0.0, 1.0, 0.0, 0.0, 0.0, 0.0, 1.0)

  /** `copy`: the loop copies all 16 entries. */
  method Copy(src: Matrix4) returns (dst: Matrix4)
    ensures dst == src
  {
    var s := ToSeq(src);
    var d := seq(16, _ => 0.0);
    for i := 0 to 16
      invariant |d| == 16
      invariant forall n | 0 <= n < i :: d[n] == s[n]
    {
      d := d[i := s[i]];
    }
    assert d == s;
    dst := FromSeq(d);
    SeqRoundTrip(src, d);
  }

  /** `transformVector`: entry `i` of the result is the sum over `j` of
      `v[j] * m[j * 4 + i]`, that is the matrix times the column vector `v`. */
  function TransformVector(m: Matrix4, v: Vec4): Vec4
  {
    Vec4(v.x * m.m0 + v.y * m.m4 + v.z * m.m8 + v.w * m.m12, v.x * m.m1 + v.y * m.m5 + v.z * m.m9 + v.w * m.m13, v.x * m.m2 + v.y * m.m6 + v.z * m.m10 + v.w * m.m14, v.x * m.m3 + v.y * m.m7 + v.z * m.m11 + v.w * m.m15)
  }

  /** The component `i` of a vector. */
  function Component(v: Vec4, i: int): real
    requires 0 <= i < 4
  {
    if i == 0 then v.x else if i == 1 then v.y else if i == 2 then v.z else v.w
  }

  /** The running sum of the inner `transformVector` loop for entry `i` after `j` steps. */
  function PartialTransform(m: Matrix4, v: Vec4, i: int, j: int): real
    requires 0 <= i < 4 && 0 <= j <= 4
  {
    (if j > 0 then v.x * Get(m, i) else 0.0) + (if j > 1 then v.y * Get(m, 4 + i) else 0.0)
    + (if j > 2 then v.z * Get(m, 8 + i) else 0.0) + (if j > 3 then v.w * Get(m, 12 + i) else 0.0)
  }

  /** The loops of `transformVector` compute `TransformVector`. */
  method TransformVectorLoop(m: Matrix4, v: Vec4) returns (dst: Vec4)
    ensures dst == TransformVector(m, v)
  {
    var d := [0.0, 0.0, 0.0, 0.0];
    for i := 0 to 4
      invariant |d| == 4
      invariant forall n | 0 <= n < i :: d[n] == PartialTransform(m, v, n, 4)
    {
      d := d[i := 0.0];
      for j := 0 to 4
        invariant |d| == 4
        invariant d[i] == PartialTransform(m, v, i, j)
        invariant forall n | 0 <= n < i :: d[n] == PartialTransform(m, v, n, 4)
      {
        d := d[i := d[i] + Component(v, j) * Get(m, j * 4 + i)];
      }
    }
    dst := Vec4(d[0], d[1], d[2], d[3]);
    TransformVectorSums(m, v);
  }

  /** The sums the loops accumulate are the components of `TransformVector`. */
  lemma TransformVectorSums(m: Matrix4, v: Vec4)
    ensures TransformVector(m, v) == Vec4(PartialTransform(m, v, 0, 4), PartialTransform(m, v, 1, 4),
                                          PartialTransform(m, v, 2, 4), PartialTransform(m, v, 3, 4))
  {
  }

  /** `multiply`: entry `i * 4 + j` of the product is the sum over `k` of
      `a[k * 4 + j] * b[i * 4 + k]`. */
  function Multiply(a: Matrix4, b: Matrix4): Matrix4
  {
    Matrix4(a.m0 * b.m0 + a.m4 * b.m1 + a.m8 * b.m2 + a.m12 * b.m3, a.m1 * b.m0 + a.m5 * b.m1 + a.m9 * b.m2 + a.m13 * b.m3, a.m2 * b.m0 + a.m6 * b.m1 + a.m10 * b.m2 + a.m14 * b.m3, a.m3 * b.m0 + a.m7 * b.m1 + a.m11 * b.m2 + a.m15 * b.m3, a.m0 * b.m4 + a.m4 * b.m5 + a.m8 * b.m6 + a.m12 * b.m7, a.m1 * b.m4 + a.m5 * b.m5 + a.m9 * b.m6 + a.m13 * b.m7, a.m2 * b.m4 + a.m6 * b.m5 + a.m10 * b.m6 + a.m14 * b.m7, a.m3 * b.m4 + a.m7 * b.m5 + a.m11 * b.m6 + a.m15 * b.m7, a.m0 * b.m8 + a.m4 * b.m9 + a.m8 * b.m10 + a.m12 * b.m11, a.m1 * b.m8 + a.m5 * b.m9 + a.m9 * b.m10 + a.m13 * b.m11, a.m2 * b.m8 + a.m6 * b.m9 + a.m10 * b.m10 + a.m14 * b.m11, a.m3 * b.m8 + a.m7 * b.m9 + a.m11 * b.m10 + a.m15 * b.m11, a.m0 * b.m12 + a.m4 * b.m13 + a.m8 * b.m14 + a.m12 * b.m15, a.m1 * b.m12 + a.m5 * b.m13 + a.m9 * b.m14 + a.m13 * b.m15, a.m2 * b.m12 + a.m6 * b.m13 + a.m10 * b.m14 + a.m14 * b.m15, a.m3 * b.m12 + a.m7 * b.m13 + a.m11 * b.m14 + a.m15 * b.m15)
  }

  /** The running sum of the innermost `multiply` loop for entry `i * 4 + j`
      after `k` steps, over the arrays `sa` and `sb` of the two factors. */
  function PartialEntry(sa: seq<real>, sb: seq<real>, i: int, j: int, k: int): real
    requires |sa| == 16 && |sb| == 16
    requires 0 <= i < 4 && 0 <= j < 4 && 0 <= k <= 4
  {
    if k == 0 then 0.0 else PartialEntry(sa, sb, i, j, k - 1) + sa[(k - 1) * 4 + j] * sb[i * 4 + (k - 1)]
  }

  /** One step of the innermost loop adds one product to the running sum. */
  lemma PartialEntryNext(sa: seq<real>, sb: seq<real>, i: int, j: int, k: int)
    requires |sa| == 16 && |sb| == 16 && 0 <= i < 4 && 0 <= j < 4 && 0 <= k < 4
    ensures PartialEntry(sa, sb, i, j, k + 1) == PartialEntry(sa, sb, i, j, k) + sa[k * 4 + j] * sb[i * 4 + k]
  {
  }

  /** The full sum of the innermost loop, written out. */
  lemma PartialEntryFull(sa: seq<real>, sb: seq<real>, i: int, j: int)
    requires |sa| == 16 && |sb| == 16 && 0 <= i < 4 && 0 <= j < 4
    ensures PartialEntry(sa, sb, i, j, 4)
            == sa[j] * sb[i * 4] + sa[4 + j] * sb[i * 4 + 1] + sa[8 + j] * sb[i * 4 + 2] + sa[12 + j] * sb[i * 4 + 3]
  {
    PartialEntryFirst(sa, sb, i, j);
    PartialEntrySecond(sa, sb, i, j);
    assert PartialEntry(sa, sb, i, j, 3) == PartialEntry(sa, sb, i, j, 2) + sa[8 + j] * sb[i * 4 + 2];
  }

  lemma PartialEntryFirst(sa: seq<real>, sb: seq<real>, i: int, j: int)
    requires |sa| == 16 && |sb| == 16 && 0 <= i < 4 && 0 <= j < 4
    ensures PartialEntry(sa, sb, i, j, 1) == sa[j] * sb[i * 4]
  {
  }

  lemma PartialEntrySecond(sa: seq<real>, sb: seq<real>, i: int, j: int)
    requires |sa| == 16 && |sb| == 16 && 0 <= i < 4 && 0 <= j < 4
    ensures PartialEntry(sa, sb, i, j, 2) == PartialEntry(sa, sb, i, j, 1) + sa[4 + j] * sb[i * 4 + 1]
  {
  }

  /** The first `n` entries `multiply` writes, in writing order: entry
      `i * 4 + j` is written after all entries with smaller index. */
  function Products(sa: seq<real>, sb: seq<real>, n: int): (r: seq<real>)
    requires |sa| == 16 && |sb| == 16 && 0 <= n <= 16
    ensures |r| == n
  {
    if n == 0 then [] else Products(sa, sb, n - 1) + [PartialEntry(sa, sb, (n - 1) / 4, (n - 1) % 4, 4)]
  }

  /** Entry `k` of the written prefix is the full sum for row `k / 4`, column `k % 4`. */
  lemma {:induction false} ProductsAt(sa: seq<real>, sb: seq<real>, n: int, k: int)
    requires |sa| == 16 && |sb| == 16 && 0 <= k < n <= 16
    ensures Products(sa, sb, n)[k] == PartialEntry(sa, sb, k / 4, k % 4, 4)
  {
    if k < n - 1 {
      ProductsAt(sa, sb, n - 1, k);
    }
  }

  /** Writing entry `i * 4 + j` extends the written prefix by one. */
  lemma ProductsNext(sa: seq<real>, sb: seq<real>, i: int, j: int)
    requires |sa| == 16 && |sb| == 16 && 0 <= i < 4 && 0 <= j < 4
    ensures Products(sa, sb, i * 4 + j + 1) == Products(sa, sb, i * 4 + j) + [PartialEntry(sa, sb, i, j, 4)]
  {
    assert (i * 4 + j) / 4 == i && (i * 4 + j) % 4 == j;
  }

  /** All sixteen written entries make up the product. */
  lemma ProductsAreEntries(a: Matrix4, b: Matrix4)
    ensures FromSeq(Products(ToSeq(a), ToSeq(b), 16)) == Multiply(a, b)
  {
    var p, t := Products(ToSeq(a), ToSeq(b), 16), ToSeq(Multiply(a, b));
    forall n | 0 <= n < 16
      ensures p[n] == t[n]
    {
      ProductsAt(ToSeq(a), ToSeq(b), 16, n);
      MultiplyEntry(a, b, n / 4, n % 4);
    }
    assert p == t;
    SeqRoundTrip(Multiply(a, b), p);
  }

  /** The three nested loops of `multiply` compute `Multiply`. */
  method MultiplyLoop(a: Matrix4, b: Matrix4) returns (dst: Matrix4)
    ensures dst == Multiply(a, b)
  {
    var d := MultiplyArrays(ToSeq(a), ToSeq(b));
    ProductsAreEntries(a, b);
    dst := FromSeq(d);
  }

  /** The loops of `multiply` over the arrays `sa` and `sb` of the factors:
      they write the sixteen full sums in index order. */
  method MultiplyArrays(sa: seq<real>, sb: seq<real>) returns (d: seq<real>)
    requires |sa| == 16 && |sb| == 16
    ensures d == Products(sa, sb, 16)
  {
    d := [];
    for i := 0 to 4
      invariant d == Products(sa, sb, i * 4)
    {
      for j := 0 to 4
        invariant d == Products(sa, sb, i * 4 + j)
      {
        var sum := 0.0;
        for k := 0 to 4
          invariant sum == PartialEntry(sa, sb, i, j, k)
        {
          PartialEntryNext(sa, sb, i, j, k);
          sum := sum + sa[k * 4 + j] * sb[i * 4 + k];
        }
        ProductsNext(sa, sb, i, j);
        d := d + [sum];
      }
    }
  }

  /** Entry `i * 4 + j` of the product is the full sum of the innermost loop. */
  lemma MultiplyEntry(a: Matrix4, b: Matrix4, i: int, j: int)
    requires 0 <= i < 4 && 0 <= j < 4
    ensures Get(Multiply(a, b), i * 4 + j) == PartialEntry(ToSeq(a), ToSeq(b), i, j, 4)
  {
    PartialEntryFull(ToSeq(a), ToSeq(b), i, j);
    if i == 0 {
      MultiplyColumnSums0(a, b, i, j);
    } else if i == 1 {
      MultiplyColumnSums1(a, b, i, j);
    } else if i == 2 {
      MultiplyColumnSums2(a, b, i, j);
    } else {
      MultiplyColumnSums3(a, b, i, j);
    }
  }

  lemma MultiplyColumnSums0(a: Matrix4, b: Matrix4, i: int, j: int)
    requires i == 0 && 0 <= j < 4
    ensures var sa, sb := ToSeq(a), ToSeq(b);
      Get(Multiply(a, b), i * 4 + j) == sa[j] * sb[i * 4] + sa[4 + j] * sb[i * 4 + 1] + sa[8 + j] * sb[i * 4 + 2] + sa[12 + j] * sb[i * 4 + 3]
  {
  }

  lemma MultiplyColumnSums1(a: Matrix4, b: Matrix4, i: int, j: int)
    requires i == 1 && 0 <= j < 4
    ensures var sa, sb := ToSeq(a), ToSeq(b);
      Get(Multiply(a, b), i * 4 + j) == sa[j] * sb[i * 4] + sa[4 + j] * sb[i * 4 + 1] + sa[8 + j] * sb[i * 4 + 2] + sa[12 + j] * sb[i * 4 + 3]
  {
  }

  lemma MultiplyColumnSums2(a: Matrix4, b: Matrix4, i: int, j: int)
    requires i == 2 && 0 <= j < 4
    ensures var sa, sb := ToSeq(a), ToSeq(b);
      Get(Multiply(a, b), i * 4 + j) == sa[j] * sb[i * 4] + sa[4 + j] * sb[i * 4 + 1] + sa[8 + j] * sb[i * 4 + 2] + sa[12 + j] * sb[i * 4 + 3]
  {
  }

  lemma MultiplyColumnSums3(a: Matrix4, b: Matrix4, i: int, j: int)
    requires i == 3 && 0 <= j < 4
    ensures var sa, sb := ToSeq(a), ToSeq(b);
      Get(Multiply(a, b), i * 4 + j) == sa[j] * sb[i * 4] + sa[4 + j] * sb[i * 4 + 1] + sa[8 + j] * sb[i * 4 + 2] + sa[12 + j] * sb[i * 4 + 3]
  {
  }

  /** `transpose`: entry `i * 4 + j` of the result is entry `j * 4 + i` of `m`. */
  function Transpose(m: Matrix4): Matrix4
  {
    Matrix4(m.m0, m.m4, m.m8, m.m12, m.m1, m.m5, m.m9, m.m13, m.m2, m.m6, m.m10, m.m14, m.m3, m.m7, m.m11, m.m15)
  }

  /** The nested loops of `transpose` compute `Transpose`. */
  method TransposeLoop(m: Matrix4) returns (dst: Matrix4)
    ensures dst == Transpose(m)
  {
    var target := ToSeq(Transpose(m));
    var d := seq(16, _ => 0.0);
    for i := 0 to 4
      invariant |d| == 16
      invariant forall n | 0 <= n < i * 4 :: d[n] == target[n]
    {
      for j := 0 to 4
        invariant |d| == 16
        invariant forall n | 0 <= n < i * 4 + j :: d[n] == target[n]
      {
        TransposeEntry(m, i, j);
        d := d[i * 4 + j := Get(m, j * 4 + i)];
      }
    }
    assert d == target;
    dst := FromSeq(d);
    SeqRoundTrip(Transpose(m), d);
  }

  /** Entry `i * 4 + j` of the transpose is entry `j * 4 + i` of `m`. */
  lemma TransposeEntry(m: Matrix4, i: int, j: int)
    requires 0 <= i < 4 && 0 <= j < 4
    ensures Get(Transpose(m), i * 4 + j) == Get(m, j * 4 + i)
  {
  }

  /** Transposing twice gives back the matrix; the identity is symmetric. */
  lemma TransposeInvolution(m: Matrix4)
    ensures Transpose(Transpose(m)) == m
    ensures Transpose(Identity) == Identity
  {
  }

  /** The unit vector along axis `c`. */
  function Unit(c: int): Vec4
    requires 0 <= c < 4
  {
    if c == 0 then Vec4(1.0, 0.0, 0.0, 0.0)
    else if c == 1 then Vec4(0.0, 1.0, 0.0, 0.0)
    else if c == 2 then Vec4(0.0, 0.0, 1.0, 0.0)
    else Vec4(0.0, 0.0, 0.0, 1.0)
  }

  /** Column `c`: the entries `c * 4` .. `c * 4 + 3`. */
  function Column(m: Matrix4, c: int): Vec4
    requires 0 <= c < 4
  {
    Vec4(Get(m, c * 4), Get(m, c * 4 + 1), Get(m, c * 4 + 2), Get(m, c * 4 + 3))
  }

  /** Transforming a unit vector picks out a column. */
  lemma TransformVectorUnit(m: Matrix4, c: int)
    requires 0 <= c < 4
    ensures TransformVector(m, Unit(c)) == Column(m, c)
  {
  }

  /** A matrix is determined by how it transforms the four unit vectors. */
  lemma TransformVectorDeterminesMatrix(a: Matrix4, b: Matrix4)
    requires forall c | 0 <= c < 4 :: TransformVector(a, Unit(c)) == TransformVector(b, Unit(c))
    ensures a == b
  {
    forall c | 0 <= c < 4
      ensures Column(a, c) == Column(b, c)
    {
      TransformVectorUnit(a, c);
      TransformVectorUnit(b, c);
    }
    assert Column(a, 0) == Column(b, 0) && Column(a, 1) == Column(b, 1);
    assert Column(a, 2) == Column(b, 2) && Column(a, 3) == Column(b, 3);
  }

  /** The identity transforms every vector to itself. */
  lemma TransformVectorIdentity(v: Vec4)
    ensures TransformVector(Identity, v) == v
  {
  }

  /** `multiply(a, b)` means "apply `b`, then `a`". */
  lemma MultiplyTransformVector(a: Matrix4, b: Matrix4, v: Vec4)
    ensures TransformVector(Multiply(a, b), v) == TransformVector(a, TransformVector(b, v))
  {
    MultiplyTransformVectorX(a, b, v);
    MultiplyTransformVectorY(a, b, v);
    MultiplyTransformVectorZ(a, b, v);
    MultiplyTransformVectorW(a, b, v);
  }

  /** Column `c` of a product is the left factor applied to column `c` of the right factor. */
  lemma MultiplyColumn(a: Matrix4, b: Matrix4, c: int)
    requires 0 <= c < 4
    ensures Column(Multiply(a, b), c) == TransformVector(a, Column(b, c))
  {
    TransformVectorUnit(Multiply(a, b), c);
    TransformVectorUnit(b, c);
    MultiplyTransformVector(a, b, Unit(c));
  }

  /** The identity is a unit on both sides of `multiply`. */
  lemma MultiplyIdentity(m: Matrix4)
    ensures Multiply(m, Identity) == m
    ensures Multiply(Identity, m) == m
  {
    forall c | 0 <= c < 4
      ensures TransformVector(Multiply(m, Identity), Unit(c)) == TransformVector(m, Unit(c))
      ensures TransformVector(Multiply(Identity, m), Unit(c)) == TransformVector(m, Unit(c))
    {
      MultiplyTransformVector(m, Identity, Unit(c));
      MultiplyTransformVector(Identity, m, Unit(c));
      TransformVectorIdentity(Unit(c));
      TransformVectorIdentity(TransformVector(m, Unit(c)));
    }
    TransformVectorDeterminesMatrix(Multiply(m, Identity), m);
    TransformVectorDeterminesMatrix(Multiply(Identity, m), m);
  }

  /** `multiply` is associative. */
  lemma MultiplyAssociative(a: Matrix4, b: Matrix4, c: Matrix4)
    ensures Multiply(Multiply(a, b), c) == Multiply(a, Multiply(b, c))
  {
    forall k | 0 <= k < 4
      ensures TransformVector(Multiply(Multiply(a, b), c), Unit(k)) == TransformVector(Multiply(a, Multiply(b, c)), Unit(k))
    {
      var u := Unit(k);
      MultiplyTransformVector(Multiply(a, b), c, u);
      MultiplyTransformVector(a, b, TransformVector(c, u));
      MultiplyTransformVector(a, Multiply(b, c), u);
      MultiplyTransformVector(b, c, u);
    }
    TransformVectorDeterminesMatrix(Multiply(Multiply(a, b), c), Multiply(a, Multiply(b, c)));
  }

  /** The homogeneous point `(v, 1)`. */
  function Point(v: V.Vec3): Vec4
  {
    Vec4(v.x, v.y, v.z, 1.0)
  }

  /** The homogeneous direction `(v, 0)`. */
  function Direction(v: V.Vec3): Vec4
  {
    Vec4(v.x, v.y, v.z, 0.0)
  }

  /** The first three components. */
  function Xyz(h: Vec4): V.Vec3
  {
    V.Vec3(h.x, h.y, h.z)
  }

  /** The divisor `d` of `transformPoint`: row 3 of `m` applied to `(v, 1)`. */
  function Weight(m: Matrix4, v: V.Vec3): (d: real)
    ensures d == TransformVector(m, Point(v)).w
  {
    v.x * m.m3 + v.y * m.m7 + v.z * m.m11 + m.m15
  }

  /** `transformPoint`: transforms `(v, 1)` and divides by the resulting
      weight. The library divides unconditionally; a zero weight yields
      Infinity or NaN, which `real` cannot express, so it is excluded. */
  function TransformPoint(m: Matrix4, v: V.Vec3): V.Vec3
    requires Weight(m, v) != 0.0
  {
    var d := v.x * m.m3 + v.y * m.m7 + v.z * m.m11 + m.m15;
    V.Vec3((v.x * m.m0 + v.y * m.m4 + v.z * m.m8 + m.m12) / d,
           (v.x * m.m1 + v.y * m.m5 + v.z * m.m9 + m.m13) / d,
           (v.x * m.m2 + v.y * m.m6 + v.z * m.m10 + m.m14) / d)
  }

  /** `transformPoint` is the perspective divide of `transformVector` applied to `(v, 1)`. */
  lemma TransformPointDivides(m: Matrix4, v: V.Vec3)
    requires Weight(m, v) != 0.0
    ensures var h := TransformVector(m, Point(v));
      TransformPoint(m, v) == V.Vec3(h.x / h.w, h.y / h.w, h.z / h.w)
  {
  }

  /** `transformDirection`: transforms `(v, 0)`, so the translation column
      and row 3 play no part. */
  function TransformDirection(m: Matrix4, v: V.Vec3): (r: V.Vec3)
    ensures r == Xyz(TransformVector(m, Direction(v)))
  {
    V.Vec3(v.x * m.m0 + v.y * m.m4 + v.z * m.m8,
           v.x * m.m1 + v.y * m.m5 + v.z * m.m9,
           v.x * m.m2 + v.y * m.m6 + v.z * m.m10)
  }

  /** An affine matrix: row 3 is `(0, 0, 0, 1)`. */
  predicate IsAffine(m: Matrix4)
  {
    m.m3 == 0.0 && m.m7 == 0.0 && m.m11 == 0.0 && m.m15 == 1.0
  }

  /** An affine matrix has weight 1 everywhere, so `transformPoint` is a
      plain `transformVector` of `(v, 1)`. */
  lemma AffineTransformPoint(m: Matrix4, v: V.Vec3)
    requires IsAffine(m)
    ensures Weight(m, v) == 1.0
    ensures Point(TransformPoint(m, v)) == TransformVector(m, Point(v))
  {
    TransformPointDivides(m, v);
  }

  /** Points: transforming by `multiply(a, b)` is transforming by `b`, then
      by `a`, when `b` is affine (a camera or model matrix) and `a` may be a
      projection. */
  lemma TransformPointMultiply(a: Matrix4, b: Matrix4, v: V.Vec3)
    requires IsAffine(b)
    requires Weight(a, TransformPoint(b, v)) != 0.0
    ensures Weight(Multiply(a, b), v) == Weight(a, TransformPoint(b, v))
    ensures TransformPoint(Multiply(a, b), v) == TransformPoint(a, TransformPoint(b, v))
  {
    AffineTransformPoint(b, v);
    MultiplyTransformVector(a, b, Point(v));
    TransformPointDivides(Multiply(a, b), v);
    TransformPointDivides(a, TransformPoint(b, v));
  }

  /** Directions: transforming by `multiply(a, b)` is transforming by `b`,
      then by `a`, when `b` is affine. */
  lemma TransformDirectionMultiply(a: Matrix4, b: Matrix4, v: V.Vec3)
    requires IsAffine(b)
    ensures TransformDirection(Multiply(a, b), v) == TransformDirection(a, TransformDirection(b, v))
  {
    MultiplyTransformVector(a, b, Direction(v));
    assert Direction(TransformDirection(b, v)) == TransformVector(b, Direction(v));
  }

  /* Shape lemmas unfold a matrix expression into its explicit entries;
     polynomial lemmas prove the matching identity on plain reals. */

  lemma MultiplyTransformVectorX(a: Matrix4, b: Matrix4, v: Vec4)
    ensures TransformVector(Multiply(a, b), v).x == TransformVector(a, TransformVector(b, v)).x
  {
    var w := TransformVector(b, v);
    MultiplyTransformVectorShape0(a, b, v);
    MultiplyTransformVectorPolynomial(a.m0, a.m1, a.m2, a.m3, a.m4, a.m5, a.m6, a.m7, a.m8, a.m9, a.m10, a.m11, a.m12, a.m13, a.m14, a.m15, b.m0, b.m1, b.m2, b.m3, b.m4, b.m5, b.m6, b.m7, b.m8, b.m9, b.m10, b.m11, b.m12, b.m13, b.m14, b.m15, v.x, v.y, v.z, v.w, w.x, w.y, w.z, w.w);
  }

  lemma MultiplyTransformVectorY(a: Matrix4, b: Matrix4, v: Vec4)
    ensures TransformVector(Multiply(a, b), v).y == TransformVector(a, TransformVector(b, v)).y
  {
    var w := TransformVector(b, v);
    MultiplyTransformVectorShape1(a, b, v);
    MultiplyTransformVectorPolynomial(a.m0, a.m1, a.m2, a.m3, a.m4, a.m5, a.m6, a.m7, a.m8, a.m9, a.m10, a.m11, a.m12, a.m13, a.m14, a.m15, b.m0, b.m1, b.m2, b.m3, b.m4, b.m5, b.m6, b.m7, b.m8, b.m9, b.m10, b.m11, b.m12, b.m13, b.m14, b.m15, v.x, v.y, v.z, v.w, w.x, w.y, w.z, w.w);
  }

  lemma MultiplyTransformVectorZ(a: Matrix4, b: Matrix4, v: Vec4)
    ensures TransformVector(Multiply(a, b), v).z == TransformVector(a, TransformVector(b, v)).z
  {
    var w := TransformVector(b, v);
    MultiplyTransformVectorShape2(a, b, v);
    MultiplyTransformVectorPolynomial(a.m0, a.m1, a.m2, a.m3, a.m4, a.m5, a.m6, a.m7, a.m8, a.m9, a.m10, a.m11, a.m12, a.m13, a.m14, a.m15, b.m0, b.m1, b.m2, b.m3, b.m4, b.m5, b.m6, b.m7, b.m8, b.m9, b.m10, b.m11, b.m12, b.m13, b.m14, b.m15, v.x, v.y, v.z, v.w, w.x, w.y, w.z, w.w);
  }

  lemma MultiplyTransformVectorW(a: Matrix4, b: Matrix4, v: Vec4)
    ensures TransformVector(Multiply(a, b), v).w == TransformVector(a, TransformVector(b, v)).w
  {
    var w := TransformVector(b, v);
    MultiplyTransformVectorShape3(a, b, v);
    MultiplyTransformVectorPolynomial(a.m0, a.m1, a.m2, a.m3, a.m4, a.m5, a.m6, a.m7, a.m8, a.m9, a.m10, a.m11, a.m12, a.m13, a.m14, a.m15, b.m0, b.m1, b.m2, b.m3, b.m4, b.m5, b.m6, b.m7, b.m8, b.m9, b.m10, b.m11, b.m12, b.m13, b.m14, b.m15, v.x, v.y, v.z, v.w, w.x, w.y, w.z, w.w);
  }

  lemma MultiplyTransformVectorShape0(a: Matrix4, b: Matrix4, v: Vec4)
    ensures TransformVector(Multiply(a, b), v).x == v.x * (a.m0 * b.m0 + a.m4 * b.m1 + a.m8 * b.m2 + a.m12 * b.m3) + v.y * (a.m0 * b.m4 + a.m4 * b.m5 + a.m8 * b.m6 + a.m12 * b.m7) + v.z * (a.m0 * b.m8 + a.m4 * b.m9 + a.m8 * b.m10 + a.m12 * b.m11) + v.w * (a.m0 * b.m12 + a.m4 * b.m13 + a.m8 * b.m14 + a.m12 * b.m15)
  {
  }

  lemma MultiplyTransformVectorShape1(a: Matrix4, b: Matrix4, v: Vec4)
    ensures TransformVector(Multiply(a, b), v).y == v.x * (a.m1 * b.m0 + a.m5 * b.m1 + a.m9 * b.m2 + a.m13 * b.m3) + v.y * (a.m1 * b.m4 + a.m5 * b.m5 + a.m9 * b.m6 + a.m13 * b.m7) + v.z * (a.m1 * b.m8 + a.m5 * b.m9 + a.m9 * b.m10 + a.m13 * b.m11) + v.w * (a.m1 * b.m12 + a.m5 * b.m13 + a.m9 * b.m14 + a.m13 * b.m15)
  {
  }

  lemma MultiplyTransformVectorShape2(a: Matrix4, b: Matrix4, v: Vec4)
    ensures TransformVector(Multiply(a, b), v).z == v.x * (a.m2 * b.m0 + a.m6 * b.m1 + a.m10 * b.m2 + a.m14 * b.m3) + v.y * (a.m2 * b.m4 + a.m6 * b.m5 + a.m10 * b.m6 + a.m14 * b.m7) + v.z * (a.m2 * b.m8 + a.m6 * b.m9 + a.m10 * b.m10 + a.m14 * b.m11) + v.w * (a.m2 * b.m12 + a.m6 * b.m13 + a.m10 * b.m14 + a.m14 * b.m15)
  {
  }

  lemma MultiplyTransformVectorShape3(a: Matrix4, b: Matrix4, v: Vec4)
    ensures TransformVector(Multiply(a, b), v).w == v.x * (a.m3 * b.m0 + a.m7 * b.m1 + a.m11 * b.m2 + a.m15 * b.m3) + v.y * (a.m3 * b.m4 + a.m7 * b.m5 + a.m11 * b.m6 + a.m15 * b.m7) + v.z * (a.m3 * b.m8 + a.m7 * b.m9 + a.m11 * b.m10 + a.m15 * b.m11) + v.w * (a.m3 * b.m12 + a.m7 * b.m13 + a.m11 * b.m14 + a.m15 * b.m15)
  {
  }

  lemma MultiplyTransformVectorPolynomial(a0: real, a1: real, a2: real, a3: real, a4: real, a5: real, a6: real, a7: real, a8: real, a9: real, a10: real, a11: real, a12: real, a13: real, a14: real, a15: real, b0: real, b1: real, b2: real, b3: real, b4: real, b5: real, b6: real, b7: real, b8: real, b9: real, b10: real, b11: real, b12: real, b13: real, b14: real, b15: real, v0: real, v1: real, v2: real, v3: real,
                                          w0: real, w1: real, w2: real, w3: real)
    requires w0 == v0 * b0 + v1 * b4 + v2 * b8 + v3 * b12
    requires w1 == v0 * b1 + v1 * b5 + v2 * b9 + v3 * b13
    requires w2 == v0 * b2 + v1 * b6 + v2 * b10 + v3 * b14
    requires w3 == v0 * b3 + v1 * b7 + v2 * b11 + v3 * b15
    ensures v0 * (a0 * b0 + a4 * b1 + a8 * b2 + a12 * b3) + v1 * (a0 * b4 + a4 * b5 + a8 * b6 + a12 * b7) + v2 * (a0 * b8 + a4 * b9 + a8 * b10 + a12 * b11) + v3 * (a0 * b12 + a4 * b13 + a8 * b14 + a12 * b15)
      == w0 * a0 + w1 * a4 + w2 * a8 + w3 * a12
    ensures v0 * (a1 * b0 + a5 * b1 + a9 * b2 + a13 * b3) + v1 * (a1 * b4 + a5 * b5 + a9 * b6 + a13 * b7) + v2 * (a1 * b8 + a5 * b9 + a9 * b10 + a13 * b11) + v3 * (a1 * b12 + a5 * b13 + a9 * b14 + a13 * b15)
      == w0 * a1 + w1 * a5 + w2 * a9 + w3 * a13
    ensures v0 * (a2 * b0 + a6 * b1 + a10 * b2 + a14 * b3) + v1 * (a2 * b4 + a6 * b5 + a10 * b6 + a14 * b7) + v2 * (a2 * b8 + a6 * b9 + a10 * b10 + a14 * b11) + v3 * (a2 * b12 + a6 * b13 + a10 * b14 + a14 * b15)
      == w0 * a2 + w1 * a6 + w2 * a10 + w3 * a14
    ensures v0 * (a3 * b0 + a7 * b1 + a11 * b2 + a15 * b3) + v1 * (a3 * b4 + a7 * b5 + a11 * b6 + a15 * b7) + v2 * (a3 * b8 + a7 * b9 + a11 * b10 + a15 * b11) + v3 * (a3 * b12 + a7 * b13 + a11 * b14 + a15 * b15)
      == w0 * a3 + w1 * a7 + w2 * a11 + w3 * a15
  {
    MultiplyTransformVectorExpanded(a0, a1, a2, a3, a4, a5, a6, a7, a8, a9, a10, a11, a12, a13, a14, a15, b0, b1, b2, b3, b4, b5, b6, b7, b8, b9, b10, b11, b12, b13, b14, b15, v0, v1, v2, v3);
  }

  lemma MultiplyTransformVectorExpanded(a0: real, a1: real, a2: real, a3: real, a4: real, a5: real, a6: real, a7: real, a8: real, a9: real, a10: real, a11: real, a12: real, a13: real, a14: real, a15: real, b0: real, b1: real, b2: real, b3: real, b4: real, b5: real, b6: real, b7: real, b8: real, b9: real, b10: real, b11: real, b12: real, b13: real, b14: real, b15: real, v0: real, v1: real, v2: real, v3: real)
    ensures v0 * (a0 * b0 + a4 * b1 + a8 * b2 + a12 * b3) + v1 * (a0 * b4 + a4 * b5 + a8 * b6 + a12 * b7) + v2 * (a0 * b8 + a4 * b9 + a8 * b10 + a12 * b11) + v3 * (a0 * b12 + a4 * b13 + a8 * b14 + a12 * b15)
      == (v0 * b0 + v1 * b4 + v2 * b8 + v3 * b12) * a0 + (v0 * b1 + v1 * b5 + v2 * b9 + v3 * b13) * a4 + (v0 * b2 + v1 * b6 + v2 * b10 + v3 * b14) * a8 + (v0 * b3 + v1 * b7 + v2 * b11 + v3 * b15) * a12
    ensures v0 * (a1 * b0 + a5 * b1 + a9 * b2 + a13 * b3) + v1 * (a1 * b4 + a5 * b5 + a9 * b6 + a13 * b7) + v2 * (a1 * b8 + a5 * b9 + a9 * b10 + a13 * b11) + v3 * (a1 * b12 + a5 * b13 + a9 * b14 + a13 * b15)
      == (v0 * b0 + v1 * b4 + v2 * b8 + v3 * b12) * a1 + (v0 * b1 + v1 * b5 + v2 * b9 + v3 * b13) * a5 + (v0 * b2 + v1 * b6 + v2 * b10 + v3 * b14) * a9 + (v0 * b3 + v1 * b7 + v2 * b11 + v3 * b15) * a13
    ensures v0 * (a2 * b0 + a6 * b1 + a10 * b2 + a14 * b3) + v1 * (a2 * b4 + a6 * b5 + a10 * b6 + a14 * b7) + v2 * (a2 * b8 + a6 * b9 + a10 * b10 + a14 * b11) + v3 * (a2 * b12 + a6 * b13 + a10 * b14 + a14 * b15)
      == (v0 * b0 + v1 * b4 + v2 * b8 + v3 * b12) * a2 + (v0 * b1 + v1 * b5 + v2 * b9 + v3 * b13) * a6 + (v0 * b2 + v1 * b6 + v2 * b10 + v3 * b14) * a10 + (v0 * b3 + v1 * b7 + v2 * b11 + v3 * b15) * a14
    ensures v0 * (a3 * b0 + a7 * b1 + a11 * b2 + a15 * b3) + v1 * (a3 * b4 + a7 * b5 + a11 * b6 + a15 * b7) + v2 * (a3 * b8 + a7 * b9 + a11 * b10 + a15 * b11) + v3 * (a3 * b12 + a7 * b13 + a11 * b14 + a15 * b15)
      == (v0 * b0 + v1 * b4 + v2 * b8 + v3 * b12) * a3 + (v0 * b1 + v1 * b5 + v2 * b9 + v3 * b13) * a7 + (v0 * b2 + v1 * b6 + v2 * b10 + v3 * b14) * a11 + (v0 * b3 + v1 * b7 + v2 * b11 + v3 * b15) * a15
  {
  }
}
