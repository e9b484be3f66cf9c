/** `determinate`, `cofactor`, `inverse` and `transformNormal` of `m4`.

    `inverse` divides the adjugate (the transposed matrix of cofactors) by
    the determinant, and returns `null` when the determinant is below
    1e-6 in magnitude; `null` is `None` here. `transformNormal` indexes the
    result of `inverse` without a check, so a singular matrix makes it throw;
    the throw is a `Failure` here. */
module M4Inverse {
  import opened Reals
  import opened Wrappers
  import opened M4
  import V = Vectors

  /** `inverse` returns `null` when `Math.abs(det)` is below this bound. */
  const InverseEpsilon: real := 0.000001

  /** `determinate`: the 24-term expansion of the determinant, with
      `mIJ = m[I * 4 + J]` as in the library. */
  function Determinate(m: Matrix4): real
  {
    m.m3 * m.m6 * m.m9 * m.m12 - m.m2 * m.m7 * m.m9 * m.m12 - m.m3 * m.m5 * m.m10 * m.m12 + m.m1 * m.m7 * m.m10 * m.m12 +
      m.m2 * m.m5 * m.m11 * m.m12 - m.m1 * m.m6 * m.m11 * m.m12 - m.m3 * m.m6 * m.m8 * m.m13 + m.m2 * m.m7 * m.m8 * m.m13 +
      m.m3 * m.m4 * m.m10 * m.m13 - m.m0 * m.m7 * m.m10 * m.m13 - m.m2 * m.m4 * m.m11 * m.m13 + m.m0 * m.m6 * m.m11 * m.m13 +
      m.m3 * m.m5 * m.m8 * m.m14 - m.m1 * m.m7 * m.m8 * m.m14 - m.m3 * m.m4 * m.m9 * m.m14 + m.m0 * m.m7 * m.m9 * m.m14 +
      m.m1 * m.m4 * m.m11 * m.m14 - m.m0 * m.m5 * m.m11 * m.m14 - m.m2 * m.m5 * m.m8 * m.m15 + m.m1 * m.m6 * m.m8 * m.m15 +
      m.m2 * m.m4 * m.m9 * m.m15 - m.m0 * m.m6 * m.m9 * m.m15 - m.m1 * m.m4 * m.m10 * m.m15 + m.m0 * m.m5 * m.m10 * m.m15
  }

  /** Index `k` of the 0..2 range after skipping `skip` in the 0..3 range. */
  function SkipIndex(k: int, skip: int): int
  {
    if k >= skip then k + 1 else k
  }

  /** The array index of the `k`-th entry that `cofactor` gathers: the
      gathering loop runs over `i` (outer) and `j` (inner) and keeps
      `m[i * 4 + j]` when `i != row` and `j != col`. */
  function MinorIndex(row: int, col: int, k: int): (n: int)
    requires 0 <= row < 4 && 0 <= col < 4 && 0 <= k < 9
    ensures 0 <= n < 16
  {
    SkipIndex(k / 3, row) * 4 + SkipIndex(k % 3, col)
  }

  /** The nine gathered entries `temp[0..8]`, named `a` .. `i` as in the library. */
  datatype Minor = Minor(a: real, b: real, c: real, d: real, e: real, f: real, g: real, h: real, i: real)

  /** The entries `cofactor` gathers for `row` and `col`, in gathering
      order: rows of blocks other than `row`, entries other than `col`. */
  function MinorOf(m: Matrix4, row: int, col: int): Minor
    requires 0 <= row < 4 && 0 <= col < 4
  {
    Minor(Get(m, SkipIndex(0, row) * 4 + SkipIndex(0, col)), Get(m, SkipIndex(0, row) * 4 + SkipIndex(1, col)), Get(m, SkipIndex(0, row) * 4 + SkipIndex(2, col)),
          Get(m, SkipIndex(1, row) * 4 + SkipIndex(0, col)), Get(m, SkipIndex(1, row) * 4 + SkipIndex(1, col)), Get(m, SkipIndex(1, row) * 4 + SkipIndex(2, col)),
          Get(m, SkipIndex(2, row) * 4 + SkipIndex(0, col)), Get(m, SkipIndex(2, row) * 4 + SkipIndex(1, col)), Get(m, SkipIndex(2, row) * 4 + SkipIndex(2, col)))
  }

  /** How many of the 0..3 indices below `i` differ from `skip`. */
  function KeptBelow(i: int, skip: int): int
  {
    if i > skip then i - 1 else i
  }

  /** The entry gathered at `i, j` lands at position
      `KeptBelow(i, row) * 3 + KeptBelow(j, col)`. */
  lemma MinorIndexAt(row: int, col: int, i: int, j: int)
    requires 0 <= row < 4 && 0 <= col < 4 && 0 <= i < 4 && 0 <= j < 4 && i != row && j != col
    ensures MinorIndex(row, col, KeptBelow(i, row) * 3 + KeptBelow(j, col)) == i * 4 + j
  {
    var q, r := KeptBelow(i, row), KeptBelow(j, col);
    assert (q * 3 + r) / 3 == q && (q * 3 + r) % 3 == r;
  }

  /** The first `n` entries `cofactor` gathers, in gathering order. */
  function Gathered(s: seq<real>, row: int, col: int, n: int): (r: seq<real>)
    requires |s| == 16 && 0 <= row < 4 && 0 <= col < 4 && 0 <= n <= 9
    ensures |r| == n
  {
    if n == 0 then [] else Gathered(s, row, col, n - 1) + [s[MinorIndex(row, col, n - 1)]]
  }

  /** Entry `k` of the gathered prefix is the `k`-th gathered matrix entry. */
  lemma {:induction false} GatheredAt(s: seq<real>, row: int, col: int, n: int, k: int)
    requires |s| == 16 && 0 <= row < 4 && 0 <= col < 4 && 0 <= k < n <= 9
    ensures Gathered(s, row, col, n)[k] == s[MinorIndex(row, col, k)]
  {
    if k < n - 1 {
      GatheredAt(s, row, col, n - 1, k);
    }
  }

  /** Gathering the entry at `i, j` appends it at position `n`. */
  lemma GatherNext(s: seq<real>, row: int, col: int, i: int, j: int, n: int)
    requires |s| == 16 && 0 <= row < 4 && 0 <= col < 4 && 0 <= i < 4 && 0 <= j < 4 && i != row && j != col
    requires n == KeptBelow(i, row) * 3 + KeptBelow(j, col)
    ensures 0 <= n < 9
    ensures Gathered(s, row, col, n + 1) == Gathered(s, row, col, n) + [s[i * 4 + j]]
  {
    MinorIndexAt(row, col, i, j);
  }

  /** Gathered entry `p * 3 + q` is entry `q` of the `p`-th kept block. */
  lemma GatheredEntry(m: Matrix4, row: int, col: int, p: int, q: int)
    requires 0 <= row < 4 && 0 <= col < 4 && 0 <= p < 3 && 0 <= q < 3
    ensures Gathered(ToSeq(m), row, col, 9)[p * 3 + q] == Get(m, SkipIndex(p, row) * 4 + SkipIndex(q, col))
  {
    GatheredAt(ToSeq(m), row, col, 9, p * 3 + q);
    assert (p * 3 + q) / 3 == p && (p * 3 + q) % 3 == q;
  }

  /** All nine gathered entries are the entries of `MinorOf`. */
  lemma GatheredIsMinor(m: Matrix4, row: int, col: int)
    requires 0 <= row < 4 && 0 <= col < 4
    ensures var g := Gathered(ToSeq(m), row, col, 9);
      Minor(g[0], g[1], g[2], g[3], g[4], g[5], g[6], g[7], g[8]) == MinorOf(m, row, col)
  {
    GatheredEntry(m, row, col, 0, 0);
    GatheredEntry(m, row, col, 0, 1);
    GatheredEntry(m, row, col, 0, 2);
    GatheredEntry(m, row, col, 1, 0);
    GatheredEntry(m, row, col, 1, 1);
    GatheredEntry(m, row, col, 1, 2);
    GatheredEntry(m, row, col, 2, 0);
    GatheredEntry(m, row, col, 2, 1);
    GatheredEntry(m, row, col, 2, 2);
  }

  /** The gathering loop of `cofactor`: it appends `m[i * 4 + j]` for every
      `i != row`, `j != col`, and ends with the nine entries of `MinorOf`. */
  method CollectMinor(m: Matrix4, row: int, col: int) returns (t: Minor)
    requires 0 <= row < 4 && 0 <= col < 4
    ensures t == MinorOf(m, row, col)
  {
    var s := ToSeq(m);
    var temp: seq<real> := [];
    for i := 0 to 4
      invariant |temp| == KeptBelow(i, row) * 3
      invariant temp == Gathered(s, row, col, |temp|)
    {
      for j := 0 to 4
        invariant |temp| == KeptBelow(i, row) * 3 + (if i == row then 0 else KeptBelow(j, col))
        invariant temp == Gathered(s, row, col, |temp|)
      {
        if i != row && j != col {
          GatherNext(s, row, col, i, j, |temp|);
          temp := temp + [s[i * 4 + j]];
        }
      }
    }
    GatheredIsMinor(m, row, col);
    t := Minor(temp[0], temp[1], temp[2], temp[3], temp[4], temp[5], temp[6], temp[7], temp[8]);
  }

  /** `cofactor`: the signed determinant of the gathered minor, with the
      library's formula `a(ei - fh) - b(di - fg) + c(dh - eg)` and sign `+`
      exactly when `row + col` is even. */
  function Cofactor(m: Matrix4, row: int, col: int): real
    requires 0 <= row < 4 && 0 <= col < 4
  {
    var t := MinorOf(m, row, col);
    (if (row + col) % 2 == 0 then 1.0 else -1.0) * (t.a * (t.e * t.i - t.f * t.h) - t.b * (t.d * t.i - t.f * t.g) + t.c * (t.d * t.h - t.e * t.g))
  }

  /** The matrix `inverse` fills before dividing: entry `j * 4 + i` is
      `cofactor(m, i, j)`. */
  function Adjugate(m: Matrix4): Matrix4
  {
    Matrix4(Cofactor(m, 0, 0), Cofactor(m, 1, 0), Cofactor(m, 2, 0), Cofactor(m, 3, 0), Cofactor(m, 0, 1), Cofactor(m, 1, 1), Cofactor(m, 2, 1), Cofactor(m, 3, 1), Cofactor(m, 0, 2), Cofactor(m, 1, 2), Cofactor(m, 2, 2), Cofactor(m, 3, 2), Cofactor(m, 0, 3), Cofactor(m, 1, 3), Cofactor(m, 2, 3), Cofactor(m, 3, 3))
  }

  /** Every entry divided by `d`. */
  function DivideEntries(m: Matrix4, d: real): Matrix4
    requires d != 0.0
  {
    Matrix4(m.m0 / d, m.m1 / d, m.m2 / d, m.m3 / d, m.m4 / d, m.m5 / d, m.m6 / d, m.m7 / d, m.m8 / d, m.m9 / d, m.m10 / d, m.m11 / d, m.m12 / d, m.m13 / d, m.m14 / d, m.m15 / d)
  }

  /** `inverse`: `null` when `|det| < 1e-6`, otherwise the adjugate divided
      by the determinant. */
  function Inverse(m: Matrix4): (r: Option<Matrix4>)
    ensures r.None? <==> Abs(Determinate(m)) < InverseEpsilon
  {
    var det := Determinate(m);
    if Abs(det) < InverseEpsilon then None else Some(DivideEntries(Adjugate(m), det))
  }

  /** `k` times every component. */
  function Scale4(k: real, v: Vec4): Vec4
  {
    Vec4(k * v.x, k * v.y, k * v.z, k * v.w)
  }

  /** Dividing the matrix by `d` divides its image by `d`. */
  lemma TransformVectorDivided(m: Matrix4, d: real, v: Vec4)
    requires d != 0.0
    ensures TransformVector(DivideEntries(m, d), v) == Scale4(1.0 / d, TransformVector(m, v))
  {
    var s := DivideEntries(m, d);
    DividedComponentX(m, d, v, s);
    DividedComponentY(m, d, v, s);
    DividedComponentZ(m, d, v, s);
    DividedComponentW(m, d, v, s);
    Vec4Equal(TransformVector(s, v), Scale4(1.0 / d, TransformVector(m, v)));
  }

  /** Two vectors with equal components are equal. */
  lemma Vec4Equal(a: Vec4, b: Vec4)
    requires a.x == b.x && a.y == b.y && a.z == b.z && a.w == b.w
    ensures a == b
  {
  }

  /** Column `c` of the divided matrix is column `c` divided by `d`. */
  lemma ColumnDivided(m: Matrix4, d: real, c: int)
    requires d != 0.0 && 0 <= c < 4
    ensures Column(DivideEntries(m, d), c) == Scale4(1.0 / d, Column(m, c))
  {
    var s := DivideEntries(m, d);
    if c == 0 {
      DividedColumn0(m, d, s);
    } else if c == 1 {
      DividedColumn1(m, d, s);
    } else if c == 2 {
      DividedColumn2(m, d, s);
    } else {
      DividedColumn3(m, d, s);
    }
  }

  /** Scaling the vector scales its image. */
  lemma TransformVectorScale4(m: Matrix4, k: real, v: Vec4)
    ensures TransformVector(m, Scale4(k, v)) == Scale4(k, TransformVector(m, v))
  {
    Scale4ComponentX(m, k, v);
    Scale4ComponentY(m, k, v);
    Scale4ComponentZ(m, k, v);
    Scale4ComponentW(m, k, v);
  }

  /** Undoing a scale by `d` with a scale by `1 / d`. */
  lemma ScaleBack(d: real, v: Vec4)
    requires d != 0.0
    ensures Scale4(1.0 / d, Scale4(d, v)) == v
  {
    assert (1.0 / d) * d == 1.0;
  }

  // Dividing the adjugate by the determinant, one component at a time.
  // For each component X, Y, Z, W of `transformVector`: `TransformVectorShape`
  // unfolds it into its four products, `DividedComponent` shows that dividing
  // every entry by `d` divides the component by `d`, and `Scale4Component` /
  // `ScaledComponent` do the same for a vector scaled by `k`.

  lemma TransformVectorShapeX(a: Matrix4, v: Vec4)
    ensures TransformVector(a, v).x == v.x * a.m0 + v.y * a.m4 + v.z * a.m8 + v.w * a.m12
  {
  }

  lemma DividedComponentX(m: Matrix4, d: real, v: Vec4, s: Matrix4)
    requires d != 0.0
    requires s.m0 == m.m0 / d && s.m4 == m.m4 / d && s.m8 == m.m8 / d && s.m12 == m.m12 / d
    ensures TransformVector(s, v).x == Scale4(1.0 / d, TransformVector(m, v)).x
  {
    TransformVectorShapeX(s, v);
    TransformVectorShapeX(m, v);
    DividedSum(v.x, v.y, v.z, v.w, m.m0, m.m4, m.m8, m.m12, s.m0, s.m4, s.m8, s.m12, TransformVector(m, v).x, d);
  }

  lemma Scale4ComponentX(m: Matrix4, k: real, v: Vec4)
    ensures TransformVector(m, Scale4(k, v)).x == Scale4(k, TransformVector(m, v)).x
  {
    ScaledComponentX(m, k, v, Scale4(k, v));
  }

  lemma ScaledComponentX(m: Matrix4, k: real, v: Vec4, u: Vec4)
    requires u.x == k * v.x && u.y == k * v.y && u.z == k * v.z && u.w == k * v.w
    ensures TransformVector(m, u).x == Scale4(k, TransformVector(m, v)).x
  {
    TransformVectorShapeX(m, u);
    TransformVectorShapeX(m, v);
    FactorLeftAt(v.x, v.y, v.z, v.w, u.x, u.y, u.z, u.w, m.m0, m.m4, m.m8, m.m12, TransformVector(m, v).x, k);
  }

  lemma TransformVectorShapeY(a: Matrix4, v: Vec4)
    ensures TransformVector(a, v).y == v.x * a.m1 + v.y * a.m5 + v.z * a.m9 + v.w * a.m13
  {
  }

  lemma DividedComponentY(m: Matrix4, d: real, v: Vec4, s: Matrix4)
    requires d != 0.0
    requires s.m1 == m.m1 / d && s.m5 == m.m5 / d && s.m9 == m.m9 / d && s.m13 == m.m13 / d
    ensures TransformVector(s, v).y == Scale4(1.0 / d, TransformVector(m, v)).y
  {
    TransformVectorShapeY(s, v);
    TransformVectorShapeY(m, v);
    DividedSum(v.x, v.y, v.z, v.w, m.m1, m.m5, m.m9, m.m13, s.m1, s.m5, s.m9, s.m13, TransformVector(m, v).y, d);
  }

  lemma Scale4ComponentY(m: Matrix4, k: real, v: Vec4)
    ensures TransformVector(m, Scale4(k, v)).y == Scale4(k, TransformVector(m, v)).y
  {
    ScaledComponentY(m, k, v, Scale4(k, v));
  }

  lemma ScaledComponentY(m: Matrix4, k: real, v: Vec4, u: Vec4)
    requires u.x == k * v.x && u.y == k * v.y && u.z == k * v.z && u.w == k * v.w
    ensures TransformVector(m, u).y == Scale4(k, TransformVector(m, v)).y
  {
    TransformVectorShapeY(m, u);
    TransformVectorShapeY(m, v);
    FactorLeftAt(v.x, v.y, v.z, v.w, u.x, u.y, u.z, u.w, m.m1, m.m5, m.m9, m.m13, TransformVector(m, v).y, k);
  }

  lemma TransformVectorShapeZ(a: Matrix4, v: Vec4)
    ensures TransformVector(a, v).z == v.x * a.m2 + v.y * a.m6 + v.z * a.m10 + v.w * a.m14
  {
  }

  lemma DividedComponentZ(m: Matrix4, d: real, v: Vec4, s: Matrix4)
    requires d != 0.0
    requires s.m2 == m.m2 / d && s.m6 == m.m6 / d && s.m10 == m.m10 / d && s.m14 == m.m14 / d
    ensures TransformVector(s, v).z == Scale4(1.0 / d, TransformVector(m, v)).z
  {
    TransformVectorShapeZ(s, v);
    TransformVectorShapeZ(m, v);
    DividedSum(v.x, v.y, v.z, v.w, m.m2, m.m6, m.m10, m.m14, s.m2, s.m6, s.m10, s.m14, TransformVector(m, v).z, d);
  }

  lemma Scale4ComponentZ(m: Matrix4, k: real, v: Vec4)
    ensures TransformVector(m, Scale4(k, v)).z == Scale4(k, TransformVector(m, v)).z
  {
    ScaledComponentZ(m, k, v, Scale4(k, v));
  }

  lemma ScaledComponentZ(m: Matrix4, k: real, v: Vec4, u: Vec4)
    requires u.x == k * v.x && u.y == k * v.y && u.z == k * v.z && u.w == k * v.w
    ensures TransformVector(m, u).z == Scale4(k, TransformVector(m, v)).z
  {
    TransformVectorShapeZ(m, u);
    TransformVectorShapeZ(m, v);
    FactorLeftAt(v.x, v.y, v.z, v.w, u.x, u.y, u.z, u.w, m.m2, m.m6, m.m10, m.m14, TransformVector(m, v).z, k);
  }

  lemma TransformVectorShapeW(a: Matrix4, v: Vec4)
    ensures TransformVector(a, v).w == v.x * a.m3 + v.y * a.m7 + v.z * a.m11 + v.w * a.m15
  {
  }

  lemma DividedComponentW(m: Matrix4, d: real, v: Vec4, s: Matrix4)
    requires d != 0.0
    requires s.m3 == m.m3 / d && s.m7 == m.m7 / d && s.m11 == m.m11 / d && s.m15 == m.m15 / d
    ensures TransformVector(s, v).w == Scale4(1.0 / d, TransformVector(m, v)).w
  {
    TransformVectorShapeW(s, v);
    TransformVectorShapeW(m, v);
    DividedSum(v.x, v.y, v.z, v.w, m.m3, m.m7, m.m11, m.m15, s.m3, s.m7, s.m11, s.m15, TransformVector(m, v).w, d);
  }

  lemma Scale4ComponentW(m: Matrix4, k: real, v: Vec4)
    ensures TransformVector(m, Scale4(k, v)).w == Scale4(k, TransformVector(m, v)).w
  {
    ScaledComponentW(m, k, v, Scale4(k, v));
  }

  lemma ScaledComponentW(m: Matrix4, k: real, v: Vec4, u: Vec4)
    requires u.x == k * v.x && u.y == k * v.y && u.z == k * v.z && u.w == k * v.w
    ensures TransformVector(m, u).w == Scale4(k, TransformVector(m, v)).w
  {
    TransformVectorShapeW(m, u);
    TransformVectorShapeW(m, v);
    FactorLeftAt(v.x, v.y, v.z, v.w, u.x, u.y, u.z, u.w, m.m3, m.m7, m.m11, m.m15, TransformVector(m, v).w, k);
  }

  /** A matrix `s` whose column `c` holds the entries of `m` divided by `d`
      has that column equal to `m`'s scaled by `1 / d` (one lemma per column). */
  lemma DividedColumn0(m: Matrix4, d: real, s: Matrix4)
    requires d != 0.0
    requires s.m0 == m.m0 / d && s.m1 == m.m1 / d && s.m2 == m.m2 / d && s.m3 == m.m3 / d
    ensures Column(s, 0) == Scale4(1.0 / d, Column(m, 0))
  {
    QuotientIsProduct(m.m0, d);
    QuotientIsProduct(m.m1, d);
    QuotientIsProduct(m.m2, d);
    QuotientIsProduct(m.m3, d);
  }

  lemma DividedColumn1(m: Matrix4, d: real, s: Matrix4)
    requires d != 0.0
    requires s.m4 == m.m4 / d && s.m5 == m.m5 / d && s.m6 == m.m6 / d && s.m7 == m.m7 / d
    ensures Column(s, 1) == Scale4(1.0 / d, Column(m, 1))
  {
    QuotientIsProduct(m.m4, d);
    QuotientIsProduct(m.m5, d);
    QuotientIsProduct(m.m6, d);
    QuotientIsProduct(m.m7, d);
  }

  lemma DividedColumn2(m: Matrix4, d: real, s: Matrix4)
    requires d != 0.0
    requires s.m8 == m.m8 / d && s.m9 == m.m9 / d && s.m10 == m.m10 / d && s.m11 == m.m11 / d
    ensures Column(s, 2) == Scale4(1.0 / d, Column(m, 2))
  {
    QuotientIsProduct(m.m8, d);
    QuotientIsProduct(m.m9, d);
    QuotientIsProduct(m.m10, d);
    QuotientIsProduct(m.m11, d);
  }

  lemma DividedColumn3(m: Matrix4, d: real, s: Matrix4)
    requires d != 0.0
    requires s.m12 == m.m12 / d && s.m13 == m.m13 / d && s.m14 == m.m14 / d && s.m15 == m.m15 / d
    ensures Column(s, 3) == Scale4(1.0 / d, Column(m, 3))
  {
    QuotientIsProduct(m.m12, d);
    QuotientIsProduct(m.m13, d);
    QuotientIsProduct(m.m14, d);
    QuotientIsProduct(m.m15, d);
  }

  /** Dividing the right operands by `d` divides a sum of four products by `d`. */
  lemma DividedSum(a0: real, a1: real, a2: real, a3: real, b0: real, b1: real, b2: real, b3: real,
                   w0: real, w1: real, w2: real, w3: real, t: real, d: real)
    requires d != 0.0
    requires w0 == b0 / d && w1 == b1 / d && w2 == b2 / d && w3 == b3 / d
    requires t == a0 * b0 + a1 * b1 + a2 * b2 + a3 * b3
    ensures a0 * w0 + a1 * w1 + a2 * w2 + a3 * w3 == (1.0 / d) * t
  {
    QuotientIsProduct(b0, d);
    QuotientIsProduct(b1, d);
    QuotientIsProduct(b2, d);
    QuotientIsProduct(b3, d);
    FactorRightAt(a0, a1, a2, a3, b0, b1, b2, b3, w0, w1, w2, w3, t, 1.0 / d);
  }

  /** Scaling the right operands by `k` scales a sum of four products by `k`. */
  lemma FactorRightAt(a0: real, a1: real, a2: real, a3: real, b0: real, b1: real, b2: real, b3: real,
                      w0: real, w1: real, w2: real, w3: real, t: real, k: real)
    requires w0 == b0 * k
    requires w1 == b1 * k
    requires w2 == b2 * k
    requires w3 == b3 * k
    requires t == a0 * b0 + a1 * b1 + a2 * b2 + a3 * b3
    ensures a0 * w0 + a1 * w1 + a2 * w2 + a3 * w3 == k * t
  {
    FactorRight(a0, a1, a2, a3, b0, b1, b2, b3, k);
  }

  /** A common factor of the right operands comes out of a sum of four products. */
  lemma FactorRight(a0: real, a1: real, a2: real, a3: real, b0: real, b1: real, b2: real, b3: real, k: real)
    ensures a0 * (b0 * k) + a1 * (b1 * k) + a2 * (b2 * k) + a3 * (b3 * k) == k * (a0 * b0 + a1 * b1 + a2 * b2 + a3 * b3)
  {
  }

  /** Scaling the left operands by `k` scales a sum of four products by `k`. */
  lemma FactorLeftAt(a0: real, a1: real, a2: real, a3: real, u0: real, u1: real, u2: real, u3: real,
                     b0: real, b1: real, b2: real, b3: real, t: real, k: real)
    requires u0 == k * a0 && u1 == k * a1 && u2 == k * a2 && u3 == k * a3
    requires t == a0 * b0 + a1 * b1 + a2 * b2 + a3 * b3
    ensures u0 * b0 + u1 * b1 + u2 * b2 + u3 * b3 == k * t
  {
    FactorLeft(a0, a1, a2, a3, b0, b1, b2, b3, k);
  }

  /** A common factor of the left operands comes out of a sum of four products. */
  lemma FactorLeft(a0: real, a1: real, a2: real, a3: real, b0: real, b1: real, b2: real, b3: real, k: real)
    ensures (k * a0) * b0 + (k * a1) * b1 + (k * a2) * b2 + (k * a3) * b3 == k * (a0 * b0 + a1 * b1 + a2 * b2 + a3 * b3)
  {
  }

  /** The right Laplace expansion: `m` times column `c` of the adjugate is
      the determinant times the unit vector `c`. */
  lemma AdjugateRight(m: Matrix4, c: int)
    requires 0 <= c < 4
    ensures TransformVector(m, Column(Adjugate(m), c)) == Scale4(Determinate(m), Unit(c))
  {
    if c == 0 {
      AdjugateRightColumn0(m);
    } else if c == 1 {
      AdjugateRightColumn1(m);
    } else if c == 2 {
      AdjugateRightColumn2(m);
    } else {
      AdjugateRightColumn3(m);
    }
  }

  /** The left Laplace expansion: the adjugate times column `c` of `m` is
      the determinant times the unit vector `c`. */
  lemma AdjugateLeft(m: Matrix4, c: int)
    requires 0 <= c < 4
    ensures TransformVector(Adjugate(m), Column(m, c)) == Scale4(Determinate(m), Unit(c))
  {
    AdjugateLeftRow0(m);
    AdjugateLeftRow1(m);
    AdjugateLeftRow2(m);
    AdjugateLeftRow3(m);
  }

  /** Whatever `inverse` returns is a two-sided inverse of `m`. */
  lemma InverseIsTwoSided(m: Matrix4)
    requires Inverse(m).Some?
    ensures Multiply(m, Inverse(m).value) == Identity
    ensures Multiply(Inverse(m).value, m) == Identity
  {
    var d := Determinate(m);
    var a := Adjugate(m);
    var inv := Inverse(m).value;
    forall c | 0 <= c < 4
      ensures TransformVector(Multiply(m, inv), Unit(c)) == TransformVector(Identity, Unit(c))
      ensures TransformVector(Multiply(inv, m), Unit(c)) == TransformVector(Identity, Unit(c))
    {
      InverseColumns(m, a, d, inv, c);
    }
    TransformVectorDeterminesMatrix(Multiply(m, inv), Identity);
    TransformVectorDeterminesMatrix(Multiply(inv, m), Identity);
  }

  /** Column `c` of both products with the divided adjugate is the unit vector `c`. */
  lemma InverseColumns(m: Matrix4, a: Matrix4, d: real, inv: Matrix4, c: int)
    requires 0 <= c < 4 && d != 0.0
    requires a == Adjugate(m) && d == Determinate(m) && inv == DivideEntries(a, d)
    ensures TransformVector(Multiply(m, inv), Unit(c)) == TransformVector(Identity, Unit(c))
    ensures TransformVector(Multiply(inv, m), Unit(c)) == TransformVector(Identity, Unit(c))
  {
    var u := Unit(c);
    TransformVectorIdentity(u);
    MultiplyTransformVector(m, inv, u);
    MultiplyTransformVector(inv, m, u);
    TransformVectorUnit(m, c);
    TransformVectorUnit(inv, c);
    ColumnDivided(a, d, c);
    TransformVectorScale4(m, 1.0 / d, Column(a, c));
    TransformVectorDivided(a, d, Column(m, c));
    AdjugateRight(m, c);
    AdjugateLeft(m, c);
    ScaleBack(d, u);
  }


  /** A matrix that is a right or a left inverse of `m` is what `inverse` returns. */
  lemma InverseUnique(m: Matrix4, b: Matrix4)
    requires Inverse(m).Some?
    requires Multiply(m, b) == Identity || Multiply(b, m) == Identity
    ensures b == Inverse(m).value
  {
    var inv := Inverse(m).value;
    InverseIsTwoSided(m);
    MultiplyIdentity(inv);
    MultiplyIdentity(b);
    if Multiply(m, b) == Identity {
      MultiplyAssociative(inv, m, b);
    } else {
      MultiplyAssociative(b, m, inv);
    }
  }

  /** Inverting twice gives back `m` whenever both inversions succeed. */
  lemma InverseInverse(m: Matrix4)
    requires Inverse(m).Some? && Inverse(Inverse(m).value).Some?
    ensures Inverse(Inverse(m).value).value == m
  {
    InverseIsTwoSided(m);
    InverseUnique(Inverse(m).value, m);
  }

  /** The direction `transformNormal` computes from the inverse `mi`:
      component `j` is `v0 * mi[4j] + v1 * mi[4j + 1] + v2 * mi[4j + 2]`. */
  function NormalDirection(mi: Matrix4, v: V.Vec3): V.Vec3
  {
    V.Vec3(v.x * mi.m0 + v.y * mi.m1 + v.z * mi.m2,
           v.x * mi.m4 + v.y * mi.m5 + v.z * mi.m6,
           v.x * mi.m8 + v.y * mi.m9 + v.z * mi.m10)
  }

  /** `transformNormal`: `inverse` is indexed without a check, so a matrix
      whose inverse is `null` makes it throw. */
  function TransformNormal(m: Matrix4, v: V.Vec3): (r: Result<V.Vec3, Thrown>)
    ensures r.Failure? <==> Abs(Determinate(m)) < InverseEpsilon
  {
    match Inverse(m)
    case None => Failure(TypeError("cannot read an index of null"))
    case Some(mi) => Success(NormalDirection(mi, v))
  }

  /** `transformNormal` transforms `v` as a direction by the transposed inverse. */
  lemma TransformNormalTransposed(m: Matrix4, v: V.Vec3)
    requires TransformNormal(m, v).Success?
    ensures TransformNormal(m, v).value == TransformDirection(Transpose(Inverse(m).value), v)
  {
    var mi := Inverse(m).value;
    NormalDirectionTransposed(mi, Transpose(mi), v);
  }

  /** `NormalDirection` reads the upper 3x3 block of `mi` by rows, which is
      `transformDirection` by any matrix `t` holding that block transposed. */
  lemma NormalDirectionTransposed(mi: Matrix4, t: Matrix4, v: V.Vec3)
    requires t.m0 == mi.m0 && t.m4 == mi.m1 && t.m8 == mi.m2
    requires t.m1 == mi.m4 && t.m5 == mi.m5 && t.m9 == mi.m6
    requires t.m2 == mi.m8 && t.m6 == mi.m9 && t.m10 == mi.m10
    ensures NormalDirection(mi, v) == TransformDirection(t, v)
  {
  }

  /** For an affine `m`, the transformed normal meets a transformed direction
      at the same dot product as before; in particular normals stay
      perpendicular to the surface directions they were perpendicular to. */
  lemma TransformNormalDot(m: Matrix4, n: V.Vec3, t: V.Vec3)
    requires IsAffine(m) && TransformNormal(m, n).Success?
    ensures V.Dot(TransformNormal(m, n).value, TransformDirection(m, t)) == V.Dot(n, t)
  {
    var mi := Inverse(m).value;
    InverseIsTwoSided(m);
    LeftInverseEntries(m, mi);
    NormalDirectionDot(m, mi, n, t);
  }

  /** Nine entries of `mi * m == I`, written out. */
  lemma LeftInverseEntries(m: Matrix4, mi: Matrix4)
    requires Multiply(mi, m) == Identity
    ensures mi.m0 * m.m0 + mi.m4 * m.m1 + mi.m8 * m.m2 + mi.m12 * m.m3 == 1.0
    ensures mi.m1 * m.m0 + mi.m5 * m.m1 + mi.m9 * m.m2 + mi.m13 * m.m3 == 0.0
    ensures mi.m2 * m.m0 + mi.m6 * m.m1 + mi.m10 * m.m2 + mi.m14 * m.m3 == 0.0
    ensures mi.m0 * m.m4 + mi.m4 * m.m5 + mi.m8 * m.m6 + mi.m12 * m.m7 == 0.0
    ensures mi.m1 * m.m4 + mi.m5 * m.m5 + mi.m9 * m.m6 + mi.m13 * m.m7 == 1.0
    ensures mi.m2 * m.m4 + mi.m6 * m.m5 + mi.m10 * m.m6 + mi.m14 * m.m7 == 0.0
    ensures mi.m0 * m.m8 + mi.m4 * m.m9 + mi.m8 * m.m10 + mi.m12 * m.m11 == 0.0
    ensures mi.m1 * m.m8 + mi.m5 * m.m9 + mi.m9 * m.m10 + mi.m13 * m.m11 == 0.0
    ensures mi.m2 * m.m8 + mi.m6 * m.m9 + mi.m10 * m.m10 + mi.m14 * m.m11 == 1.0
  {
  }

  /** The dot product identity for a left inverse `mi` of an affine `m`. */
  lemma NormalDirectionDot(m: Matrix4, mi: Matrix4, n: V.Vec3, t: V.Vec3)
    requires IsAffine(m)
    requires mi.m0 * m.m0 + mi.m4 * m.m1 + mi.m8 * m.m2 + mi.m12 * m.m3 == 1.0
    requires mi.m1 * m.m0 + mi.m5 * m.m1 + mi.m9 * m.m2 + mi.m13 * m.m3 == 0.0
    requires mi.m2 * m.m0 + mi.m6 * m.m1 + mi.m10 * m.m2 + mi.m14 * m.m3 == 0.0
    requires mi.m0 * m.m4 + mi.m4 * m.m5 + mi.m8 * m.m6 + mi.m12 * m.m7 == 0.0
    requires mi.m1 * m.m4 + mi.m5 * m.m5 + mi.m9 * m.m6 + mi.m13 * m.m7 == 1.0
    requires mi.m2 * m.m4 + mi.m6 * m.m5 + mi.m10 * m.m6 + mi.m14 * m.m7 == 0.0
    requires mi.m0 * m.m8 + mi.m4 * m.m9 + mi.m8 * m.m10 + mi.m12 * m.m11 == 0.0
    requires mi.m1 * m.m8 + mi.m5 * m.m9 + mi.m9 * m.m10 + mi.m13 * m.m11 == 0.0
    requires mi.m2 * m.m8 + mi.m6 * m.m9 + mi.m10 * m.m10 + mi.m14 * m.m11 == 1.0
    ensures V.Dot(NormalDirection(mi, n), TransformDirection(m, t)) == V.Dot(n, t)
  {
    var a, b := NormalDirection(mi, n), TransformDirection(m, t);
    NormalDotPolynomial(n.x, n.y, n.z, t.x, t.y, t.z, mi.m0, mi.m1, mi.m2, mi.m3, mi.m4, mi.m5, mi.m6, mi.m7, mi.m8, mi.m9, mi.m10, mi.m11, mi.m12, mi.m13, mi.m14, mi.m15, m.m0, m.m1, m.m2, m.m3, m.m4, m.m5, m.m6, m.m7, m.m8, m.m9, m.m10, m.m11, m.m12, m.m13, m.m14, m.m15, a.x, a.y, a.z, b.x, b.y, b.z);
  }

  // The algebra behind `TransformNormalDot`, on plain reals. With `a` the
  // normal's image (rows of the inverse `p`) and `b` the direction's image
  // (columns of `q`), `a . b` expands into nine terms `n_i * t_j * e_ij`
  // (`NormalTerm*`, `NormalRegroup`), where `e_ij` is an entry of `p * q`;
  // the left-inverse entries make `e` the 3x3 identity (`NormalCollapse`,
  // `NormalDiagonal`), leaving `n . t`.

  lemma NormalDotPolynomial(n0: real, n1: real, n2: real, t0: real, t1: real, t2: real, p0: real, p1: real, p2: real, p3: real, p4: real, p5: real, p6: real, p7: real, p8: real, p9: real, p10: real, p11: real, p12: real, p13: real, p14: real, p15: real, q0: real, q1: real, q2: real, q3: real, q4: real, q5: real, q6: real, q7: real, q8: real, q9: real, q10: real, q11: real, q12: real, q13: real, q14: real, q15: real, a0: real, a1: real, a2: real, b0: real, b1: real, b2: real)
    requires a0 == n0 * p0 + n1 * p1 + n2 * p2
    requires b0 == t0 * q0 + t1 * q4 + t2 * q8
    requires a1 == n0 * p4 + n1 * p5 + n2 * p6
    requires b1 == t0 * q1 + t1 * q5 + t2 * q9
    requires a2 == n0 * p8 + n1 * p9 + n2 * p10
    requires b2 == t0 * q2 + t1 * q6 + t2 * q10
    requires q3 == 0.0 && q7 == 0.0 && q11 == 0.0
    requires p0 * q0 + p4 * q1 + p8 * q2 + p12 * q3 == 1.0
    requires p1 * q0 + p5 * q1 + p9 * q2 + p13 * q3 == 0.0
    requires p2 * q0 + p6 * q1 + p10 * q2 + p14 * q3 == 0.0
    requires p0 * q4 + p4 * q5 + p8 * q6 + p12 * q7 == 0.0
    requires p1 * q4 + p5 * q5 + p9 * q6 + p13 * q7 == 1.0
    requires p2 * q4 + p6 * q5 + p10 * q6 + p14 * q7 == 0.0
    requires p0 * q8 + p4 * q9 + p8 * q10 + p12 * q11 == 0.0
    requires p1 * q8 + p5 * q9 + p9 * q10 + p13 * q11 == 0.0
    requires p2 * q8 + p6 * q9 + p10 * q10 + p14 * q11 == 1.0
    ensures a0 * b0 + a1 * b1 + a2 * b2 == n0 * t0 + n1 * t1 + n2 * t2
  {
    NormalTerm0(n0, n1, n2, t0, t1, t2, p0, p1, p2, p3, p4, p5, p6, p7, p8, p9, p10, p11, p12, p13, p14, p15, q0, q1, q2, q3, q4, q5, q6, q7, q8, q9, q10, q11, q12, q13, q14, q15, a0, b0);
    NormalTerm1(n0, n1, n2, t0, t1, t2, p0, p1, p2, p3, p4, p5, p6, p7, p8, p9, p10, p11, p12, p13, p14, p15, q0, q1, q2, q3, q4, q5, q6, q7, q8, q9, q10, q11, q12, q13, q14, q15, a1, b1);
    NormalTerm2(n0, n1, n2, t0, t1, t2, p0, p1, p2, p3, p4, p5, p6, p7, p8, p9, p10, p11, p12, p13, p14, p15, q0, q1, q2, q3, q4, q5, q6, q7, q8, q9, q10, q11, q12, q13, q14, q15, a2, b2);
    NormalRegroup(n0, n1, n2, t0, t1, t2, p0, p1, p2, p3, p4, p5, p6, p7, p8, p9, p10, p11, p12, p13, p14, p15, q0, q1, q2, q3, q4, q5, q6, q7, q8, q9, q10, q11, q12, q13, q14, q15);
    NormalCollapse(n0, n1, n2, t0, t1, t2, p0, p1, p2, p3, p4, p5, p6, p7, p8, p9, p10, p11, p12, p13, p14, p15, q0, q1, q2, q3, q4, q5, q6, q7, q8, q9, q10, q11, q12, q13, q14, q15);
  }

  lemma NormalTerm0(n0: real, n1: real, n2: real, t0: real, t1: real, t2: real, p0: real, p1: real, p2: real, p3: real, p4: real, p5: real, p6: real, p7: real, p8: real, p9: real, p10: real, p11: real, p12: real, p13: real, p14: real, p15: real, q0: real, q1: real, q2: real, q3: real, q4: real, q5: real, q6: real, q7: real, q8: real, q9: real, q10: real, q11: real, q12: real, q13: real, q14: real, q15: real, a: real, b: real)
    requires a == n0 * p0 + n1 * p1 + n2 * p2
    requires b == t0 * q0 + t1 * q4 + t2 * q8
    ensures a * b == n0 * t0 * (p0 * q0) + n0 * t1 * (p0 * q4) + n0 * t2 * (p0 * q8) + n1 * t0 * (p1 * q0) + n1 * t1 * (p1 * q4) + n1 * t2 * (p1 * q8) + n2 * t0 * (p2 * q0) + n2 * t1 * (p2 * q4) + n2 * t2 * (p2 * q8)
  {
    NormalTermExpanded0(n0, n1, n2, t0, t1, t2, p0, p1, p2, p3, p4, p5, p6, p7, p8, p9, p10, p11, p12, p13, p14, p15, q0, q1, q2, q3, q4, q5, q6, q7, q8, q9, q10, q11, q12, q13, q14, q15);
  }

  lemma NormalTermExpanded0(n0: real, n1: real, n2: real, t0: real, t1: real, t2: real, p0: real, p1: real, p2: real, p3: real, p4: real, p5: real, p6: real, p7: real, p8: real, p9: real, p10: real, p11: real, p12: real, p13: real, p14: real, p15: real, q0: real, q1: real, q2: real, q3: real, q4: real, q5: real, q6: real, q7: real, q8: real, q9: real, q10: real, q11: real, q12: real, q13: real, q14: real, q15: real)
    ensures (n0 * p0 + n1 * p1 + n2 * p2) * (t0 * q0 + t1 * q4 + t2 * q8) == n0 * t0 * (p0 * q0) + n0 * t1 * (p0 * q4) + n0 * t2 * (p0 * q8) + n1 * t0 * (p1 * q0) + n1 * t1 * (p1 * q4) + n1 * t2 * (p1 * q8) + n2 * t0 * (p2 * q0) + n2 * t1 * (p2 * q4) + n2 * t2 * (p2 * q8)
  {
  }

  lemma NormalTerm1(n0: real, n1: real, n2: real, t0: real, t1: real, t2: real, p0: real, p1: real, p2: real, p3: real, p4: real, p5: real, p6: real, p7: real, p8: real, p9: real, p10: real, p11: real, p12: real, p13: real, p14: real, p15: real, q0: real, q1: real, q2: real, q3: real, q4: real, q5: real, q6: real, q7: real, q8: real, q9: real, q10: real, q11: real, q12: real, q13: real, q14: real, q15: real, a: real, b: real)
    requires a == n0 * p4 + n1 * p5 + n2 * p6
    requires b == t0 * q1 + t1 * q5 + t2 * q9
    ensures a * b == n0 * t0 * (p4 * q1) + n0 * t1 * (p4 * q5) + n0 * t2 * (p4 * q9) + n1 * t0 * (p5 * q1) + n1 * t1 * (p5 * q5) + n1 * t2 * (p5 * q9) + n2 * t0 * (p6 * q1) + n2 * t1 * (p6 * q5) + n2 * t2 * (p6 * q9)
  {
    NormalTermExpanded1(n0, n1, n2, t0, t1, t2, p0, p1, p2, p3, p4, p5, p6, p7, p8, p9, p10, p11, p12, p13, p14, p15, q0, q1, q2, q3, q4, q5, q6, q7, q8, q9, q10, q11, q12, q13, q14, q15);
  }

  lemma NormalTermExpanded1(n0: real, n1: real, n2: real, t0: real, t1: real, t2: real, p0: real, p1: real, p2: real, p3: real, p4: real, p5: real, p6: real, p7: real, p8: real, p9: real, p10: real, p11: real, p12: real, p13: real, p14: real, p15: real, q0: real, q1: real, q2: real, q3: real, q4: real, q5: real, q6: real, q7: real, q8: real, q9: real, q10: real, q11: real, q12: real, q13: real, q14: real, q15: real)
    ensures (n0 * p4 + n1 * p5 + n2 * p6) * (t0 * q1 + t1 * q5 + t2 * q9) == n0 * t0 * (p4 * q1) + n0 * t1 * (p4 * q5) + n0 * t2 * (p4 * q9) + n1 * t0 * (p5 * q1) + n1 * t1 * (p5 * q5) + n1 * t2 * (p5 * q9) + n2 * t0 * (p6 * q1) + n2 * t1 * (p6 * q5) + n2 * t2 * (p6 * q9)
  {
  }

  lemma NormalTerm2(n0: real, n1: real, n2: real, t0: real, t1: real, t2: real, p0: real, p1: real, p2: real, p3: real, p4: real, p5: real, p6: real, p7: real, p8: real, p9: real, p10: real, p11: real, p12: real, p13: real, p14: real, p15: real, q0: real, q1: real, q2: real, q3: real, q4: real, q5: real, q6: real, q7: real, q8: real, q9: real, q10: real, q11: real, q12: real, q13: real, q14: real, q15: real, a: real, b: real)
    requires a == n0 * p8 + n1 * p9 + n2 * p10
    requires b == t0 * q2 + t1 * q6 + t2 * q10
    ensures a * b == n0 * t0 * (p8 * q2) + n0 * t1 * (p8 * q6) + n0 * t2 * (p8 * q10) + n1 * t0 * (p9 * q2) + n1 * t1 * (p9 * q6) + n1 * t2 * (p9 * q10) + n2 * t0 * (p10 * q2) + n2 * t1 * (p10 * q6) + n2 * t2 * (p10 * q10)
  {
    NormalTermExpanded2(n0, n1, n2, t0, t1, t2, p0, p1, p2, p3, p4, p5, p6, p7, p8, p9, p10, p11, p12, p13, p14, p15, q0, q1, q2, q3, q4, q5, q6, q7, q8, q9, q10, q11, q12, q13, q14, q15);
  }

  lemma NormalTermExpanded2(n0: real, n1: real, n2: real, t0: real, t1: real, t2: real, p0: real, p1: real, p2: real, p3: real, p4: real, p5: real, p6: real, p7: real, p8: real, p9: real, p10: real, p11: real, p12: real, p13: real, p14: real, p15: real, q0: real, q1: real, q2: real, q3: real, q4: real, q5: real, q6: real, q7: real, q8: real, q9: real, q10: real, q11: real, q12: real, q13: real, q14: real, q15: real)
    ensures (n0 * p8 + n1 * p9 + n2 * p10) * (t0 * q2 + t1 * q6 + t2 * q10) == n0 * t0 * (p8 * q2) + n0 * t1 * (p8 * q6) + n0 * t2 * (p8 * q10) + n1 * t0 * (p9 * q2) + n1 * t1 * (p9 * q6) + n1 * t2 * (p9 * q10) + n2 * t0 * (p10 * q2) + n2 * t1 * (p10 * q6) + n2 * t2 * (p10 * q10)
  {
  }

  lemma NormalRegroup(n0: real, n1: real, n2: real, t0: real, t1: real, t2: real, p0: real, p1: real, p2: real, p3: real, p4: real, p5: real, p6: real, p7: real, p8: real, p9: real, p10: real, p11: real, p12: real, p13: real, p14: real, p15: real, q0: real, q1: real, q2: real, q3: real, q4: real, q5: real, q6: real, q7: real, q8: real, q9: real, q10: real, q11: real, q12: real, q13: real, q14: real, q15: real)
    ensures n0 * t0 * (p0 * q0) + n0 * t1 * (p0 * q4) + n0 * t2 * (p0 * q8) + n1 * t0 * (p1 * q0) + n1 * t1 * (p1 * q4) + n1 * t2 * (p1 * q8) + n2 * t0 * (p2 * q0) + n2 * t1 * (p2 * q4) + n2 * t2 * (p2 * q8) + n0 * t0 * (p4 * q1) + n0 * t1 * (p4 * q5) + n0 * t2 * (p4 * q9) + n1 * t0 * (p5 * q1) + n1 * t1 * (p5 * q5) + n1 * t2 * (p5 * q9) + n2 * t0 * (p6 * q1) + n2 * t1 * (p6 * q5) + n2 * t2 * (p6 * q9) + n0 * t0 * (p8 * q2) + n0 * t1 * (p8 * q6) + n0 * t2 * (p8 * q10) + n1 * t0 * (p9 * q2) + n1 * t1 * (p9 * q6) + n1 * t2 * (p9 * q10) + n2 * t0 * (p10 * q2) + n2 * t1 * (p10 * q6) + n2 * t2 * (p10 * q10)
         == n0 * t0 * (p0 * q0 + p4 * q1 + p8 * q2) + n0 * t1 * (p0 * q4 + p4 * q5 + p8 * q6) + n0 * t2 * (p0 * q8 + p4 * q9 + p8 * q10) + n1 * t0 * (p1 * q0 + p5 * q1 + p9 * q2) + n1 * t1 * (p1 * q4 + p5 * q5 + p9 * q6) + n1 * t2 * (p1 * q8 + p5 * q9 + p9 * q10) + n2 * t0 * (p2 * q0 + p6 * q1 + p10 * q2) + n2 * t1 * (p2 * q4 + p6 * q5 + p10 * q6) + n2 * t2 * (p2 * q8 + p6 * q9 + p10 * q10)
  {
  }

  lemma NormalCollapse(n0: real, n1: real, n2: real, t0: real, t1: real, t2: real, p0: real, p1: real, p2: real, p3: real, p4: real, p5: real, p6: real, p7: real, p8: real, p9: real, p10: real, p11: real, p12: real, p13: real, p14: real, p15: real, q0: real, q1: real, q2: real, q3: real, q4: real, q5: real, q6: real, q7: real, q8: real, q9: real, q10: real, q11: real, q12: real, q13: real, q14: real, q15: real)
    requires q3 == 0.0 && q7 == 0.0 && q11 == 0.0
    requires p0 * q0 + p4 * q1 + p8 * q2 + p12 * q3 == 1.0
    requires p1 * q0 + p5 * q1 + p9 * q2 + p13 * q3 == 0.0
    requires p2 * q0 + p6 * q1 + p10 * q2 + p14 * q3 == 0.0
    requires p0 * q4 + p4 * q5 + p8 * q6 + p12 * q7 == 0.0
    requires p1 * q4 + p5 * q5 + p9 * q6 + p13 * q7 == 1.0
    requires p2 * q4 + p6 * q5 + p10 * q6 + p14 * q7 == 0.0
    requires p0 * q8 + p4 * q9 + p8 * q10 + p12 * q11 == 0.0
    requires p1 * q8 + p5 * q9 + p9 * q10 + p13 * q11 == 0.0
    requires p2 * q8 + p6 * q9 + p10 * q10 + p14 * q11 == 1.0
    ensures n0 * t0 * (p0 * q0 + p4 * q1 + p8 * q2) + n0 * t1 * (p0 * q4 + p4 * q5 + p8 * q6) + n0 * t2 * (p0 * q8 + p4 * q9 + p8 * q10) + n1 * t0 * (p1 * q0 + p5 * q1 + p9 * q2) + n1 * t1 * (p1 * q4 + p5 * q5 + p9 * q6) + n1 * t2 * (p1 * q8 + p5 * q9 + p9 * q10) + n2 * t0 * (p2 * q0 + p6 * q1 + p10 * q2) + n2 * t1 * (p2 * q4 + p6 * q5 + p10 * q6) + n2 * t2 * (p2 * q8 + p6 * q9 + p10 * q10) == n0 * t0 + n1 * t1 + n2 * t2
  {
    NormalDiagonal(n0, n1, n2, t0, t1, t2, p0 * q0 + p4 * q1 + p8 * q2, p0 * q4 + p4 * q5 + p8 * q6, p0 * q8 + p4 * q9 + p8 * q10, p1 * q0 + p5 * q1 + p9 * q2, p1 * q4 + p5 * q5 + p9 * q6, p1 * q8 + p5 * q9 + p9 * q10, p2 * q0 + p6 * q1 + p10 * q2, p2 * q4 + p6 * q5 + p10 * q6, p2 * q8 + p6 * q9 + p10 * q10);
  }

  lemma NormalDiagonal(n0: real, n1: real, n2: real, t0: real, t1: real, t2: real, e00: real, e01: real, e02: real, e10: real, e11: real, e12: real, e20: real, e21: real, e22: real)
    requires e00 == 1.0
    requires e01 == 0.0
    requires e02 == 0.0
    requires e10 == 0.0
    requires e11 == 1.0
    requires e12 == 0.0
    requires e20 == 0.0
    requires e21 == 0.0
    requires e22 == 1.0
    ensures n0 * t0 * e00 + n0 * t1 * e01 + n0 * t2 * e02 + n1 * t0 * e10 + n1 * t1 * e11 + n1 * t2 * e12 + n2 * t0 * e20 + n2 * t1 * e21 + n2 * t2 * e22 == n0 * t0 + n1 * t1 + n2 * t2
  {
  }

  /* Shape lemmas unfold an entry of the adjugate or the determinant into
     its explicit polynomial; the polynomial lemmas prove the Laplace
     expansions on plain reals. */

  lemma DeterminateShape(m: Matrix4)
    ensures Determinate(m) == m.m3 * m.m6 * m.m9 * m.m12 - m.m2 * m.m7 * m.m9 * m.m12 - m.m3 * m.m5 * m.m10 * m.m12 + m.m1 * m.m7 * m.m10 * m.m12 + m.m2 * m.m5 * m.m11 * m.m12 - m.m1 * m.m6 * m.m11 * m.m12 - m.m3 * m.m6 * m.m8 * m.m13 + m.m2 * m.m7 * m.m8 * m.m13 + m.m3 * m.m4 * m.m10 * m.m13 - m.m0 * m.m7 * m.m10 * m.m13 - m.m2 * m.m4 * m.m11 * m.m13 + m.m0 * m.m6 * m.m11 * m.m13 + m.m3 * m.m5 * m.m8 * m.m14 - m.m1 * m.m7 * m.m8 * m.m14 - m.m3 * m.m4 * m.m9 * m.m14 + m.m0 * m.m7 * m.m9 * m.m14 + m.m1 * m.m4 * m.m11 * m.m14 - m.m0 * m.m5 * m.m11 * m.m14 - m.m2 * m.m5 * m.m8 * m.m15 + m.m1 * m.m6 * m.m8 * m.m15 + m.m2 * m.m4 * m.m9 * m.m15 - m.m0 * m.m6 * m.m9 * m.m15 - m.m1 * m.m4 * m.m10 * m.m15 + m.m0 * m.m5 * m.m10 * m.m15
  {
  }

  /** `MinorShapeRC` names the 3x3 minor with row `R` and column `C` struck
      out, and `CofactorShapeRC` its signed determinant, as explicit
      polynomials in the entries (one pair per position). */
  lemma MinorShape00(m: Matrix4)
    ensures MinorOf(m, 0, 0) == Minor(m.m5, m.m6, m.m7, m.m9, m.m10, m.m11, m.m13, m.m14, m.m15)
  {
  }

  lemma CofactorShape00(m: Matrix4)
    ensures Cofactor(m, 0, 0) == 1.0 * (m.m5 * (m.m10 * m.m15 - m.m11 * m.m14) - m.m6 * (m.m9 * m.m15 - m.m11 * m.m13) + m.m7 * (m.m9 * m.m14 - m.m10 * m.m13))
  {
    MinorShape00(m);
  }

  lemma MinorShape01(m: Matrix4)
    ensures MinorOf(m, 0, 1) == Minor(m.m4, m.m6, m.m7, m.m8, m.m10, m.m11, m.m12, m.m14, m.m15)
  {
  }

  lemma CofactorShape01(m: Matrix4)
    ensures Cofactor(m, 0, 1) == -1.0 * (m.m4 * (m.m10 * m.m15 - m.m11 * m.m14) - m.m6 * (m.m8 * m.m15 - m.m11 * m.m12) + m.m7 * (m.m8 * m.m14 - m.m10 * m.m12))
  {
    MinorShape01(m);
  }

  lemma MinorShape02(m: Matrix4)
    ensures MinorOf(m, 0, 2) == Minor(m.m4, m.m5, m.m7, m.m8, m.m9, m.m11, m.m12, m.m13, m.m15)
  {
  }

  lemma CofactorShape02(m: Matrix4)
    ensures Cofactor(m, 0, 2) == 1.0 * (m.m4 * (m.m9 * m.m15 - m.m11 * m.m13) - m.m5 * (m.m8 * m.m15 - m.m11 * m.m12) + m.m7 * (m.m8 * m.m13 - m.m9 * m.m12))
  {
    MinorShape02(m);
  }

  lemma MinorShape03(m: Matrix4)
    ensures MinorOf(m, 0, 3) == Minor(m.m4, m.m5, m.m6, m.m8, m.m9, m.m10, m.m12, m.m13, m.m14)
  {
  }

  lemma CofactorShape03(m: Matrix4)
    ensures Cofactor(m, 0, 3) == -1.0 * (m.m4 * (m.m9 * m.m14 - m.m10 * m.m13) - m.m5 * (m.m8 * m.m14 - m.m10 * m.m12) + m.m6 * (m.m8 * m.m13 - m.m9 * m.m12))
  {
    MinorShape03(m);
  }

  lemma MinorShape10(m: Matrix4)
    ensures MinorOf(m, 1, 0) == Minor(m.m1, m.m2, m.m3, m.m9, m.m10, m.m11, m.m13, m.m14, m.m15)
  {
  }

  lemma CofactorShape10(m: Matrix4)
    ensures Cofactor(m, 1, 0) == -1.0 * (m.m1 * (m.m10 * m.m15 - m.m11 * m.m14) - m.m2 * (m.m9 * m.m15 - m.m11 * m.m13) + m.m3 * (m.m9 * m.m14 - m.m10 * m.m13))
  {
    MinorShape10(m);
  }

  lemma MinorShape11(m: Matrix4)
    ensures MinorOf(m, 1, 1) == Minor(m.m0, m.m2, m.m3, m.m8, m.m10, m.m11, m.m12, m.m14, m.m15)
  {
  }

  lemma CofactorShape11(m: Matrix4)
    ensures Cofactor(m, 1, 1) == 1.0 * (m.m0 * (m.m10 * m.m15 - m.m11 * m.m14) - m.m2 * (m.m8 * m.m15 - m.m11 * m.m12) + m.m3 * (m.m8 * m.m14 - m.m10 * m.m12))
  {
    MinorShape11(m);
  }

  lemma MinorShape12(m: Matrix4)
    ensures MinorOf(m, 1, 2) == Minor(m.m0, m.m1, m.m3, m.m8, m.m9, m.m11, m.m12, m.m13, m.m15)
  {
  }

  lemma CofactorShape12(m: Matrix4)
    ensures Cofactor(m, 1, 2) == -1.0 * (m.m0 * (m.m9 * m.m15 - m.m11 * m.m13) - m.m1 * (m.m8 * m.m15 - m.m11 * m.m12) + m.m3 * (m.m8 * m.m13 - m.m9 * m.m12))
  {
    MinorShape12(m);
  }

  lemma MinorShape13(m: Matrix4)
    ensures MinorOf(m, 1, 3) == Minor(m.m0, m.m1, m.m2, m.m8, m.m9, m.m10, m.m12, m.m13, m.m14)
  {
  }

  lemma CofactorShape13(m: Matrix4)
    ensures Cofactor(m, 1, 3) == 1.0 * (m.m0 * (m.m9 * m.m14 - m.m10 * m.m13) - m.m1 * (m.m8 * m.m14 - m.m10 * m.m12) + m.m2 * (m.m8 * m.m13 - m.m9 * m.m12))
  {
    MinorShape13(m);
  }

  lemma MinorShape20(m: Matrix4)
    ensures MinorOf(m, 2, 0) == Minor(m.m1, m.m2, m.m3, m.m5, m.m6, m.m7, m.m13, m.m14, m.m15)
  {
  }

  lemma CofactorShape20(m: Matrix4)
    ensures Cofactor(m, 2, 0) == 1.0 * (m.m1 * (m.m6 * m.m15 - m.m7 * m.m14) - m.m2 * (m.m5 * m.m15 - m.m7 * m.m13) + m.m3 * (m.m5 * m.m14 - m.m6 * m.m13))
  {
    MinorShape20(m);
  }

  lemma MinorShape21(m: Matrix4)
    ensures MinorOf(m, 2, 1) == Minor(m.m0, m.m2, m.m3, m.m4, m.m6, m.m7, m.m12, m.m14, m.m15)
  {
  }

  lemma CofactorShape21(m: Matrix4)
    ensures Cofactor(m, 2, 1) == -1.0 * (m.m0 * (m.m6 * m.m15 - m.m7 * m.m14) - m.m2 * (m.m4 * m.m15 - m.m7 * m.m12) + m.m3 * (m.m4 * m.m14 - m.m6 * m.m12))
  {
    MinorShape21(m);
  }

  lemma MinorShape22(m: Matrix4)
    ensures MinorOf(m, 2, 2) == Minor(m.m0, m.m1, m.m3, m.m4, m.m5, m.m7, m.m12, m.m13, m.m15)
  {
  }

  lemma CofactorShape22(m: Matrix4)
    ensures Cofactor(m, 2, 2) == 1.0 * (m.m0 * (m.m5 * m.m15 - m.m7 * m.m13) - m.m1 * (m.m4 * m.m15 - m.m7 * m.m12) + m.m3 * (m.m4 * m.m13 - m.m5 * m.m12))
  {
    MinorShape22(m);
  }

  lemma MinorShape23(m: Matrix4)
    ensures MinorOf(m, 2, 3) == Minor(m.m0, m.m1, m.m2, m.m4, m.m5, m.m6, m.m12, m.m13, m.m14)
  {
  }

  lemma CofactorShape23(m: Matrix4)
    ensures Cofactor(m, 2, 3) == -1.0 * (m.m0 * (m.m5 * m.m14 - m.m6 * m.m13) - m.m1 * (m.m4 * m.m14 - m.m6 * m.m12) + m.m2 * (m.m4 * m.m13 - m.m5 * m.m12))
  {
    MinorShape23(m);
  }

  lemma MinorShape30(m: Matrix4)
    ensures MinorOf(m, 3, 0) == Minor(m.m1, m.m2, m.m3, m.m5, m.m6, m.m7, m.m9, m.m10, m.m11)
  {
  }

  lemma CofactorShape30(m: Matrix4)
    ensures Cofactor(m, 3, 0) == -1.0 * (m.m1 * (m.m6 * m.m11 - m.m7 * m.m10) - m.m2 * (m.m5 * m.m11 - m.m7 * m.m9) + m.m3 * (m.m5 * m.m10 - m.m6 * m.m9))
  {
    MinorShape30(m);
  }

  lemma MinorShape31(m: Matrix4)
    ensures MinorOf(m, 3, 1) == Minor(m.m0, m.m2, m.m3, m.m4, m.m6, m.m7, m.m8, m.m10, m.m11)
  {
  }

  lemma CofactorShape31(m: Matrix4)
    ensures Cofactor(m, 3, 1) == 1.0 * (m.m0 * (m.m6 * m.m11 - m.m7 * m.m10) - m.m2 * (m.m4 * m.m11 - m.m7 * m.m8) + m.m3 * (m.m4 * m.m10 - m.m6 * m.m8))
  {
    MinorShape31(m);
  }

  lemma MinorShape32(m: Matrix4)
    ensures MinorOf(m, 3, 2) == Minor(m.m0, m.m1, m.m3, m.m4, m.m5, m.m7, m.m8, m.m9, m.m11)
  {
  }

  lemma CofactorShape32(m: Matrix4)
    ensures Cofactor(m, 3, 2) == -1.0 * (m.m0 * (m.m5 * m.m11 - m.m7 * m.m9) - m.m1 * (m.m4 * m.m11 - m.m7 * m.m8) + m.m3 * (m.m4 * m.m9 - m.m5 * m.m8))
  {
    MinorShape32(m);
  }

  lemma MinorShape33(m: Matrix4)
    ensures MinorOf(m, 3, 3) == Minor(m.m0, m.m1, m.m2, m.m4, m.m5, m.m6, m.m8, m.m9, m.m10)
  {
  }

  lemma CofactorShape33(m: Matrix4)
    ensures Cofactor(m, 3, 3) == 1.0 * (m.m0 * (m.m5 * m.m10 - m.m6 * m.m9) - m.m1 * (m.m4 * m.m10 - m.m6 * m.m8) + m.m2 * (m.m4 * m.m9 - m.m5 * m.m8))
  {
    MinorShape33(m);
  }

  /** `AdjugateShapeK`: entry `K` of the adjugate as an explicit polynomial,
      read off the cofactor that `inverse` stores there (transposed). */
  lemma AdjugateShape0(m: Matrix4)
    ensures Adjugate(m).m0 == 1.0 * (m.m5 * (m.m10 * m.m15 - m.m11 * m.m14) - m.m6 * (m.m9 * m.m15 - m.m11 * m.m13) + m.m7 * (m.m9 * m.m14 - m.m10 * m.m13))
  {
    CofactorShape00(m);
  }

  lemma AdjugateShape1(m: Matrix4)
    ensures Adjugate(m).m1 == -1.0 * (m.m1 * (m.m10 * m.m15 - m.m11 * m.m14) - m.m2 * (m.m9 * m.m15 - m.m11 * m.m13) + m.m3 * (m.m9 * m.m14 - m.m10 * m.m13))
  {
    CofactorShape10(m);
  }

  lemma AdjugateShape2(m: Matrix4)
    ensures Adjugate(m).m2 == 1.0 * (m.m1 * (m.m6 * m.m15 - m.m7 * m.m14) - m.m2 * (m.m5 * m.m15 - m.m7 * m.m13) + m.m3 * (m.m5 * m.m14 - m.m6 * m.m13))
  {
    CofactorShape20(m);
  }

  lemma AdjugateShape3(m: Matrix4)
    ensures Adjugate(m).m3 == -1.0 * (m.m1 * (m.m6 * m.m11 - m.m7 * m.m10) - m.m2 * (m.m5 * m.m11 - m.m7 * m.m9) + m.m3 * (m.m5 * m.m10 - m.m6 * m.m9))
  {
    CofactorShape30(m);
  }

  lemma AdjugateShape4(m: Matrix4)
    ensures Adjugate(m).m4 == -1.0 * (m.m4 * (m.m10 * m.m15 - m.m11 * m.m14) - m.m6 * (m.m8 * m.m15 - m.m11 * m.m12) + m.m7 * (m.m8 * m.m14 - m.m10 * m.m12))
  {
    CofactorShape01(m);
  }

  lemma AdjugateShape5(m: Matrix4)
    ensures Adjugate(m).m5 == 1.0 * (m.m0 * (m.m10 * m.m15 - m.m11 * m.m14) - m.m2 * (m.m8 * m.m15 - m.m11 * m.m12) + m.m3 * (m.m8 * m.m14 - m.m10 * m.m12))
  {
    CofactorShape11(m);
  }

  lemma AdjugateShape6(m: Matrix4)
    ensures Adjugate(m).m6 == -1.0 * (m.m0 * (m.m6 * m.m15 - m.m7 * m.m14) - m.m2 * (m.m4 * m.m15 - m.m7 * m.m12) + m.m3 * (m.m4 * m.m14 - m.m6 * m.m12))
  {
    CofactorShape21(m);
  }

  lemma AdjugateShape7(m: Matrix4)
    ensures Adjugate(m).m7 == 1.0 * (m.m0 * (m.m6 * m.m11 - m.m7 * m.m10) - m.m2 * (m.m4 * m.m11 - m.m7 * m.m8) + m.m3 * (m.m4 * m.m10 - m.m6 * m.m8))
  {
    CofactorShape31(m);
  }

  lemma AdjugateShape8(m: Matrix4)
    ensures Adjugate(m).m8 == 1.0 * (m.m4 * (m.m9 * m.m15 - m.m11 * m.m13) - m.m5 * (m.m8 * m.m15 - m.m11 * m.m12) + m.m7 * (m.m8 * m.m13 - m.m9 * m.m12))
  {
    CofactorShape02(m);
  }

  lemma AdjugateShape9(m: Matrix4)
    ensures Adjugate(m).m9 == -1.0 * (m.m0 * (m.m9 * m.m15 - m.m11 * m.m13) - m.m1 * (m.m8 * m.m15 - m.m11 * m.m12) + m.m3 * (m.m8 * m.m13 - m.m9 * m.m12))
  {
    CofactorShape12(m);
  }

  lemma AdjugateShape10(m: Matrix4)
    ensures Adjugate(m).m10 == 1.0 * (m.m0 * (m.m5 * m.m15 - m.m7 * m.m13) - m.m1 * (m.m4 * m.m15 - m.m7 * m.m12) + m.m3 * (m.m4 * m.m13 - m.m5 * m.m12))
  {
    CofactorShape22(m);
  }

  lemma AdjugateShape11(m: Matrix4)
    ensures Adjugate(m).m11 == -1.0 * (m.m0 * (m.m5 * m.m11 - m.m7 * m.m9) - m.m1 * (m.m4 * m.m11 - m.m7 * m.m8) + m.m3 * (m.m4 * m.m9 - m.m5 * m.m8))
  {
    CofactorShape32(m);
  }

  lemma AdjugateShape12(m: Matrix4)
    ensures Adjugate(m).m12 == -1.0 * (m.m4 * (m.m9 * m.m14 - m.m10 * m.m13) - m.m5 * (m.m8 * m.m14 - m.m10 * m.m12) + m.m6 * (m.m8 * m.m13 - m.m9 * m.m12))
  {
    CofactorShape03(m);
  }

  lemma AdjugateShape13(m: Matrix4)
    ensures Adjugate(m).m13 == 1.0 * (m.m0 * (m.m9 * m.m14 - m.m10 * m.m13) - m.m1 * (m.m8 * m.m14 - m.m10 * m.m12) + m.m2 * (m.m8 * m.m13 - m.m9 * m.m12))
  {
    CofactorShape13(m);
  }

  lemma AdjugateShape14(m: Matrix4)
    ensures Adjugate(m).m14 == -1.0 * (m.m0 * (m.m5 * m.m14 - m.m6 * m.m13) - m.m1 * (m.m4 * m.m14 - m.m6 * m.m12) + m.m2 * (m.m4 * m.m13 - m.m5 * m.m12))
  {
    CofactorShape23(m);
  }

  lemma AdjugateShape15(m: Matrix4)
    ensures Adjugate(m).m15 == 1.0 * (m.m0 * (m.m5 * m.m10 - m.m6 * m.m9) - m.m1 * (m.m4 * m.m10 - m.m6 * m.m8) + m.m2 * (m.m4 * m.m9 - m.m5 * m.m8))
  {
    CofactorShape33(m);
  }

  /** `ColumnEntryShapeCI`: component `I` (x, y, z, w) of `a` applied to
      column `C` of `b`, as four products of entries. */
  lemma ColumnEntryShape00(a: Matrix4, b: Matrix4)
    ensures TransformVector(a, Column(b, 0)).x == b.m0 * a.m0 + b.m1 * a.m4 + b.m2 * a.m8 + b.m3 * a.m12
  {
  }

  lemma ColumnEntryShape01(a: Matrix4, b: Matrix4)
    ensures TransformVector(a, Column(b, 0)).y == b.m0 * a.m1 + b.m1 * a.m5 + b.m2 * a.m9 + b.m3 * a.m13
  {
  }

  lemma ColumnEntryShape02(a: Matrix4, b: Matrix4)
    ensures TransformVector(a, Column(b, 0)).z == b.m0 * a.m2 + b.m1 * a.m6 + b.m2 * a.m10 + b.m3 * a.m14
  {
  }

  lemma ColumnEntryShape03(a: Matrix4, b: Matrix4)
    ensures TransformVector(a, Column(b, 0)).w == b.m0 * a.m3 + b.m1 * a.m7 + b.m2 * a.m11 + b.m3 * a.m15
  {
  }

  lemma ColumnEntryShape10(a: Matrix4, b: Matrix4)
    ensures TransformVector(a, Column(b, 1)).x == b.m4 * a.m0 + b.m5 * a.m4 + b.m6 * a.m8 + b.m7 * a.m12
  {
  }

  lemma ColumnEntryShape11(a: Matrix4, b: Matrix4)
    ensures TransformVector(a, Column(b, 1)).y == b.m4 * a.m1 + b.m5 * a.m5 + b.m6 * a.m9 + b.m7 * a.m13
  {
  }

  lemma ColumnEntryShape12(a: Matrix4, b: Matrix4)
    ensures TransformVector(a, Column(b, 1)).z == b.m4 * a.m2 + b.m5 * a.m6 + b.m6 * a.m10 + b.m7 * a.m14
  {
  }

  lemma ColumnEntryShape13(a: Matrix4, b: Matrix4)
    ensures TransformVector(a, Column(b, 1)).w == b.m4 * a.m3 + b.m5 * a.m7 + b.m6 * a.m11 + b.m7 * a.m15
  {
  }

  lemma ColumnEntryShape20(a: Matrix4, b: Matrix4)
    ensures TransformVector(a, Column(b, 2)).x == b.m8 * a.m0 + b.m9 * a.m4 + b.m10 * a.m8 + b.m11 * a.m12
  {
  }

  lemma ColumnEntryShape21(a: Matrix4, b: Matrix4)
    ensures TransformVector(a, Column(b, 2)).y == b.m8 * a.m1 + b.m9 * a.m5 + b.m10 * a.m9 + b.m11 * a.m13
  {
  }

  lemma ColumnEntryShape22(a: Matrix4, b: Matrix4)
    ensures TransformVector(a, Column(b, 2)).z == b.m8 * a.m2 + b.m9 * a.m6 + b.m10 * a.m10 + b.m11 * a.m14
  {
  }

  lemma ColumnEntryShape23(a: Matrix4, b: Matrix4)
    ensures TransformVector(a, Column(b, 2)).w == b.m8 * a.m3 + b.m9 * a.m7 + b.m10 * a.m11 + b.m11 * a.m15
  {
  }

  lemma ColumnEntryShape30(a: Matrix4, b: Matrix4)
    ensures TransformVector(a, Column(b, 3)).x == b.m12 * a.m0 + b.m13 * a.m4 + b.m14 * a.m8 + b.m15 * a.m12
  {
  }

  lemma ColumnEntryShape31(a: Matrix4, b: Matrix4)
    ensures TransformVector(a, Column(b, 3)).y == b.m12 * a.m1 + b.m13 * a.m5 + b.m14 * a.m9 + b.m15 * a.m13
  {
  }

  lemma ColumnEntryShape32(a: Matrix4, b: Matrix4)
    ensures TransformVector(a, Column(b, 3)).z == b.m12 * a.m2 + b.m13 * a.m6 + b.m14 * a.m10 + b.m15 * a.m14
  {
  }

  lemma ColumnEntryShape33(a: Matrix4, b: Matrix4)
    ensures TransformVector(a, Column(b, 3)).w == b.m12 * a.m3 + b.m13 * a.m7 + b.m14 * a.m11 + b.m15 * a.m15
  {
  }

  // The Laplace expansion `m * adj(m) == det(m) * I`, one column `C` at a
  // time: `AdjugateRightColumnC` unfolds the adjugate and determinant
  // (shape lemmas) and hands the entries as atoms to `AdjugateRightApplyC`,
  // which reduces the four components to `AdjugateRightPolynomialC`, an
  // identity on plain reals proved by `AdjugateRightExpandedC`.

  lemma AdjugateRightColumn0(m: Matrix4)
    ensures TransformVector(m, Column(Adjugate(m), 0)) == Vec4(Determinate(m), 0.0, 0.0, 0.0)
  {
    AdjugateShape0(m);
    AdjugateShape1(m);
    AdjugateShape2(m);
    AdjugateShape3(m);
    DeterminateShape(m);
    AdjugateRightApply0(m, Adjugate(m), Determinate(m));
  }

  lemma AdjugateRightApply0(m: Matrix4, a: Matrix4, d: real)
    requires a.m0 == 1.0 * (m.m5 * (m.m10 * m.m15 - m.m11 * m.m14) - m.m6 * (m.m9 * m.m15 - m.m11 * m.m13) + m.m7 * (m.m9 * m.m14 - m.m10 * m.m13))
    requires a.m1 == -1.0 * (m.m1 * (m.m10 * m.m15 - m.m11 * m.m14) - m.m2 * (m.m9 * m.m15 - m.m11 * m.m13) + m.m3 * (m.m9 * m.m14 - m.m10 * m.m13))
    requires a.m2 == 1.0 * (m.m1 * (m.m6 * m.m15 - m.m7 * m.m14) - m.m2 * (m.m5 * m.m15 - m.m7 * m.m13) + m.m3 * (m.m5 * m.m14 - m.m6 * m.m13))
    requires a.m3 == -1.0 * (m.m1 * (m.m6 * m.m11 - m.m7 * m.m10) - m.m2 * (m.m5 * m.m11 - m.m7 * m.m9) + m.m3 * (m.m5 * m.m10 - m.m6 * m.m9))
    requires d == m.m3 * m.m6 * m.m9 * m.m12 - m.m2 * m.m7 * m.m9 * m.m12 - m.m3 * m.m5 * m.m10 * m.m12 + m.m1 * m.m7 * m.m10 * m.m12 + m.m2 * m.m5 * m.m11 * m.m12 - m.m1 * m.m6 * m.m11 * m.m12 - m.m3 * m.m6 * m.m8 * m.m13 + m.m2 * m.m7 * m.m8 * m.m13 + m.m3 * m.m4 * m.m10 * m.m13 - m.m0 * m.m7 * m.m10 * m.m13 - m.m2 * m.m4 * m.m11 * m.m13 + m.m0 * m.m6 * m.m11 * m.m13 + m.m3 * m.m5 * m.m8 * m.m14 - m.m1 * m.m7 * m.m8 * m.m14 - m.m3 * m.m4 * m.m9 * m.m14 + m.m0 * m.m7 * m.m9 * m.m14 + m.m1 * m.m4 * m.m11 * m.m14 - m.m0 * m.m5 * m.m11 * m.m14 - m.m2 * m.m5 * m.m8 * m.m15 + m.m1 * m.m6 * m.m8 * m.m15 + m.m2 * m.m4 * m.m9 * m.m15 - m.m0 * m.m6 * m.m9 * m.m15 - m.m1 * m.m4 * m.m10 * m.m15 + m.m0 * m.m5 * m.m10 * m.m15
    ensures TransformVector(m, Column(a, 0)) == Vec4(d, 0.0, 0.0, 0.0)
  {
    ColumnEntryShape00(m, a);
    ColumnEntryShape01(m, a);
    ColumnEntryShape02(m, a);
    ColumnEntryShape03(m, a);
    AdjugateRightPolynomial0(m.m0, m.m1, m.m2, m.m3, m.m4, m.m5, m.m6, m.m7, m.m8, m.m9, m.m10, m.m11, m.m12, m.m13, m.m14, m.m15, a.m0, a.m1, a.m2, a.m3, d);
  }

  lemma AdjugateRightPolynomial0(m0: real, m1: real, m2: real, m3: real, m4: real, m5: real, m6: real, m7: real, m8: real, m9: real, m10: real, m11: real, m12: real, m13: real, m14: real, m15: real, w0: real, w1: real, w2: real, w3: real, d: real)
    requires w0 == 1.0 * (m5 * (m10 * m15 - m11 * m14) - m6 * (m9 * m15 - m11 * m13) + m7 * (m9 * m14 - m10 * m13))
    requires w1 == -1.0 * (m1 * (m10 * m15 - m11 * m14) - m2 * (m9 * m15 - m11 * m13) + m3 * (m9 * m14 - m10 * m13))
    requires w2 == 1.0 * (m1 * (m6 * m15 - m7 * m14) - m2 * (m5 * m15 - m7 * m13) + m3 * (m5 * m14 - m6 * m13))
    requires w3 == -1.0 * (m1 * (m6 * m11 - m7 * m10) - m2 * (m5 * m11 - m7 * m9) + m3 * (m5 * m10 - m6 * m9))
    requires d == m3 * m6 * m9 * m12 - m2 * m7 * m9 * m12 - m3 * m5 * m10 * m12 + m1 * m7 * m10 * m12 + m2 * m5 * m11 * m12 - m1 * m6 * m11 * m12 - m3 * m6 * m8 * m13 + m2 * m7 * m8 * m13 + m3 * m4 * m10 * m13 - m0 * m7 * m10 * m13 - m2 * m4 * m11 * m13 + m0 * m6 * m11 * m13 + m3 * m5 * m8 * m14 - m1 * m7 * m8 * m14 - m3 * m4 * m9 * m14 + m0 * m7 * m9 * m14 + m1 * m4 * m11 * m14 - m0 * m5 * m11 * m14 - m2 * m5 * m8 * m15 + m1 * m6 * m8 * m15 + m2 * m4 * m9 * m15 - m0 * m6 * m9 * m15 - m1 * m4 * m10 * m15 + m0 * m5 * m10 * m15
    ensures w0 * m0 + w1 * m4 + w2 * m8 + w3 * m12 == d
    ensures w0 * m1 + w1 * m5 + w2 * m9 + w3 * m13 == 0.0
    ensures w0 * m2 + w1 * m6 + w2 * m10 + w3 * m14 == 0.0
    ensures w0 * m3 + w1 * m7 + w2 * m11 + w3 * m15 == 0.0
  {
    AdjugateRightExpanded0(m0, m1, m2, m3, m4, m5, m6, m7, m8, m9, m10, m11, m12, m13, m14, m15);
  }

  lemma AdjugateRightExpanded0(m0: real, m1: real, m2: real, m3: real, m4: real, m5: real, m6: real, m7: real, m8: real, m9: real, m10: real, m11: real, m12: real, m13: real, m14: real, m15: real)
    ensures (1.0 * (m5 * (m10 * m15 - m11 * m14) - m6 * (m9 * m15 - m11 * m13) + m7 * (m9 * m14 - m10 * m13))) * m0 + (-1.0 * (m1 * (m10 * m15 - m11 * m14) - m2 * (m9 * m15 - m11 * m13) + m3 * (m9 * m14 - m10 * m13))) * m4 + (1.0 * (m1 * (m6 * m15 - m7 * m14) - m2 * (m5 * m15 - m7 * m13) + m3 * (m5 * m14 - m6 * m13))) * m8 + (-1.0 * (m1 * (m6 * m11 - m7 * m10) - m2 * (m5 * m11 - m7 * m9) + m3 * (m5 * m10 - m6 * m9))) * m12 == m3 * m6 * m9 * m12 - m2 * m7 * m9 * m12 - m3 * m5 * m10 * m12 + m1 * m7 * m10 * m12 + m2 * m5 * m11 * m12 - m1 * m6 * m11 * m12 - m3 * m6 * m8 * m13 + m2 * m7 * m8 * m13 + m3 * m4 * m10 * m13 - m0 * m7 * m10 * m13 - m2 * m4 * m11 * m13 + m0 * m6 * m11 * m13 + m3 * m5 * m8 * m14 - m1 * m7 * m8 * m14 - m3 * m4 * m9 * m14 + m0 * m7 * m9 * m14 + m1 * m4 * m11 * m14 - m0 * m5 * m11 * m14 - m2 * m5 * m8 * m15 + m1 * m6 * m8 * m15 + m2 * m4 * m9 * m15 - m0 * m6 * m9 * m15 - m1 * m4 * m10 * m15 + m0 * m5 * m10 * m15
    ensures (1.0 * (m5 * (m10 * m15 - m11 * m14) - m6 * (m9 * m15 - m11 * m13) + m7 * (m9 * m14 - m10 * m13))) * m1 + (-1.0 * (m1 * (m10 * m15 - m11 * m14) - m2 * (m9 * m15 - m11 * m13) + m3 * (m9 * m14 - m10 * m13))) * m5 + (1.0 * (m1 * (m6 * m15 - m7 * m14) - m2 * (m5 * m15 - m7 * m13) + m3 * (m5 * m14 - m6 * m13))) * m9 + (-1.0 * (m1 * (m6 * m11 - m7 * m10) - m2 * (m5 * m11 - m7 * m9) + m3 * (m5 * m10 - m6 * m9))) * m13 == 0.0
    ensures (1.0 * (m5 * (m10 * m15 - m11 * m14) - m6 * (m9 * m15 - m11 * m13) + m7 * (m9 * m14 - m10 * m13))) * m2 + (-1.0 * (m1 * (m10 * m15 - m11 * m14) - m2 * (m9 * m15 - m11 * m13) + m3 * (m9 * m14 - m10 * m13))) * m6 + (1.0 * (m1 * (m6 * m15 - m7 * m14) - m2 * (m5 * m15 - m7 * m13) + m3 * (m5 * m14 - m6 * m13))) * m10 + (-1.0 * (m1 * (m6 * m11 - m7 * m10) - m2 * (m5 * m11 - m7 * m9) + m3 * (m5 * m10 - m6 * m9))) * m14 == 0.0
    ensures (1.0 * (m5 * (m10 * m15 - m11 * m14) - m6 * (m9 * m15 - m11 * m13) + m7 * (m9 * m14 - m10 * m13))) * m3 + (-1.0 * (m1 * (m10 * m15 - m11 * m14) - m2 * (m9 * m15 - m11 * m13) + m3 * (m9 * m14 - m10 * m13))) * m7 + (1.0 * (m1 * (m6 * m15 - m7 * m14) - m2 * (m5 * m15 - m7 * m13) + m3 * (m5 * m14 - m6 * m13))) * m11 + (-1.0 * (m1 * (m6 * m11 - m7 * m10) - m2 * (m5 * m11 - m7 * m9) + m3 * (m5 * m10 - m6 * m9))) * m15 == 0.0
  {
  }

  lemma AdjugateRightColumn1(m: Matrix4)
    ensures TransformVector(m, Column(Adjugate(m), 1)) == Vec4(0.0, Determinate(m), 0.0, 0.0)
  {
    AdjugateShape4(m);
    AdjugateShape5(m);
    AdjugateShape6(m);
    AdjugateShape7(m);
    DeterminateShape(m);
    AdjugateRightApply1(m, Adjugate(m), Determinate(m));
  }

  lemma AdjugateRightApply1(m: Matrix4, a: Matrix4, d: real)
    requires a.m4 == -1.0 * (m.m4 * (m.m10 * m.m15 - m.m11 * m.m14) - m.m6 * (m.m8 * m.m15 - m.m11 * m.m12) + m.m7 * (m.m8 * m.m14 - m.m10 * m.m12))
    requires a.m5 == 1.0 * (m.m0 * (m.m10 * m.m15 - m.m11 * m.m14) - m.m2 * (m.m8 * m.m15 - m.m11 * m.m12) + m.m3 * (m.m8 * m.m14 - m.m10 * m.m12))
    requires a.m6 == -1.0 * (m.m0 * (m.m6 * m.m15 - m.m7 * m.m14) - m.m2 * (m.m4 * m.m15 - m.m7 * m.m12) + m.m3 * (m.m4 * m.m14 - m.m6 * m.m12))
    requires a.m7 == 1.0 * (m.m0 * (m.m6 * m.m11 - m.m7 * m.m10) - m.m2 * (m.m4 * m.m11 - m.m7 * m.m8) + m.m3 * (m.m4 * m.m10 - m.m6 * m.m8))
    requires d == m.m3 * m.m6 * m.m9 * m.m12 - m.m2 * m.m7 * m.m9 * m.m12 - m.m3 * m.m5 * m.m10 * m.m12 + m.m1 * m.m7 * m.m10 * m.m12 + m.m2 * m.m5 * m.m11 * m.m12 - m.m1 * m.m6 * m.m11 * m.m12 - m.m3 * m.m6 * m.m8 * m.m13 + m.m2 * m.m7 * m.m8 * m.m13 + m.m3 * m.m4 * m.m10 * m.m13 - m.m0 * m.m7 * m.m10 * m.m13 - m.m2 * m.m4 * m.m11 * m.m13 + m.m0 * m.m6 * m.m11 * m.m13 + m.m3 * m.m5 * m.m8 * m.m14 - m.m1 * m.m7 * m.m8 * m.m14 - m.m3 * m.m4 * m.m9 * m.m14 + m.m0 * m.m7 * m.m9 * m.m14 + m.m1 * m.m4 * m.m11 * m.m14 - m.m0 * m.m5 * m.m11 * m.m14 - m.m2 * m.m5 * m.m8 * m.m15 + m.m1 * m.m6 * m.m8 * m.m15 + m.m2 * m.m4 * m.m9 * m.m15 - m.m0 * m.m6 * m.m9 * m.m15 - m.m1 * m.m4 * m.m10 * m.m15 + m.m0 * m.m5 * m.m10 * m.m15
    ensures TransformVector(m, Column(a, 1)) == Vec4(0.0, d, 0.0, 0.0)
  {
    ColumnEntryShape10(m, a);
    ColumnEntryShape11(m, a);
    ColumnEntryShape12(m, a);
    ColumnEntryShape13(m, a);
    AdjugateRightPolynomial1(m.m0, m.m1, m.m2, m.m3, m.m4, m.m5, m.m6, m.m7, m.m8, m.m9, m.m10, m.m11, m.m12, m.m13, m.m14, m.m15, a.m4, a.m5, a.m6, a.m7, d);
  }

  lemma AdjugateRightPolynomial1(m0: real, m1: real, m2: real, m3: real, m4: real, m5: real, m6: real, m7: real, m8: real, m9: real, m10: real, m11: real, m12: real, m13: real, m14: real, m15: real, w0: real, w1: real, w2: real, w3: real, d: real)
    requires w0 == -1.0 * (m4 * (m10 * m15 - m11 * m14) - m6 * (m8 * m15 - m11 * m12) + m7 * (m8 * m14 - m10 * m12))
    requires w1 == 1.0 * (m0 * (m10 * m15 - m11 * m14) - m2 * (m8 * m15 - m11 * m12) + m3 * (m8 * m14 - m10 * m12))
    requires w2 == -1.0 * (m0 * (m6 * m15 - m7 * m14) - m2 * (m4 * m15 - m7 * m12) + m3 * (m4 * m14 - m6 * m12))
    requires w3 == 1.0 * (m0 * (m6 * m11 - m7 * m10) - m2 * (m4 * m11 - m7 * m8) + m3 * (m4 * m10 - m6 * m8))
    requires d == m3 * m6 * m9 * m12 - m2 * m7 * m9 * m12 - m3 * m5 * m10 * m12 + m1 * m7 * m10 * m12 + m2 * m5 * m11 * m12 - m1 * m6 * m11 * m12 - m3 * m6 * m8 * m13 + m2 * m7 * m8 * m13 + m3 * m4 * m10 * m13 - m0 * m7 * m10 * m13 - m2 * m4 * m11 * m13 + m0 * m6 * m11 * m13 + m3 * m5 * m8 * m14 - m1 * m7 * m8 * m14 - m3 * m4 * m9 * m14 + m0 * m7 * m9 * m14 + m1 * m4 * m11 * m14 - m0 * m5 * m11 * m14 - m2 * m5 * m8 * m15 + m1 * m6 * m8 * m15 + m2 * m4 * m9 * m15 - m0 * m6 * m9 * m15 - m1 * m4 * m10 * m15 + m0 * m5 * m10 * m15
    ensures w0 * m0 + w1 * m4 + w2 * m8 + w3 * m12 == 0.0
    ensures w0 * m1 + w1 * m5 + w2 * m9 + w3 * m13 == d
    ensures w0 * m2 + w1 * m6 + w2 * m10 + w3 * m14 == 0.0
    ensures w0 * m3 + w1 * m7 + w2 * m11 + w3 * m15 == 0.0
  {
    AdjugateRightExpanded1(m0, m1, m2, m3, m4, m5, m6, m7, m8, m9, m10, m11, m12, m13, m14, m15);
  }

  lemma AdjugateRightExpanded1(m0: real, m1: real, m2: real, m3: real, m4: real, m5: real, m6: real, m7: real, m8: real, m9: real, m10: real, m11: real, m12: real, m13: real, m14: real, m15: real)
    ensures (-1.0 * (m4 * (m10 * m15 - m11 * m14) - m6 * (m8 * m15 - m11 * m12) + m7 * (m8 * m14 - m10 * m12))) * m0 + (1.0 * (m0 * (m10 * m15 - m11 * m14) - m2 * (m8 * m15 - m11 * m12) + m3 * (m8 * m14 - m10 * m12))) * m4 + (-1.0 * (m0 * (m6 * m15 - m7 * m14) - m2 * (m4 * m15 - m7 * m12) + m3 * (m4 * m14 - m6 * m12))) * m8 + (1.0 * (m0 * (m6 * m11 - m7 * m10) - m2 * (m4 * m11 - m7 * m8) + m3 * (m4 * m10 - m6 * m8))) * m12 == 0.0
    ensures (-1.0 * (m4 * (m10 * m15 - m11 * m14) - m6 * (m8 * m15 - m11 * m12) + m7 * (m8 * m14 - m10 * m12))) * m1 + (1.0 * (m0 * (m10 * m15 - m11 * m14) - m2 * (m8 * m15 - m11 * m12) + m3 * (m8 * m14 - m10 * m12))) * m5 + (-1.0 * (m0 * (m6 * m15 - m7 * m14) - m2 * (m4 * m15 - m7 * m12) + m3 * (m4 * m14 - m6 * m12))) * m9 + (1.0 * (m0 * (m6 * m11 - m7 * m10) - m2 * (m4 * m11 - m7 * m8) + m3 * (m4 * m10 - m6 * m8))) * m13 == m3 * m6 * m9 * m12 - m2 * m7 * m9 * m12 - m3 * m5 * m10 * m12 + m1 * m7 * m10 * m12 + m2 * m5 * m11 * m12 - m1 * m6 * m11 * m12 - m3 * m6 * m8 * m13 + m2 * m7 * m8 * m13 + m3 * m4 * m10 * m13 - m0 * m7 * m10 * m13 - m2 * m4 * m11 * m13 + m0 * m6 * m11 * m13 + m3 * m5 * m8 * m14 - m1 * m7 * m8 * m14 - m3 * m4 * m9 * m14 + m0 * m7 * m9 * m14 + m1 * m4 * m11 * m14 - m0 * m5 * m11 * m14 - m2 * m5 * m8 * m15 + m1 * m6 * m8 * m15 + m2 * m4 * m9 * m15 - m0 * m6 * m9 * m15 - m1 * m4 * m10 * m15 + m0 * m5 * m10 * m15
    ensures (-1.0 * (m4 * (m10 * m15 - m11 * m14) - m6 * (m8 * m15 - m11 * m12) + m7 * (m8 * m14 - m10 * m12))) * m2 + (1.0 * (m0 * (m10 * m15 - m11 * m14) - m2 * (m8 * m15 - m11 * m12) + m3 * (m8 * m14 - m10 * m12))) * m6 + (-1.0 * (m0 * (m6 * m15 - m7 * m14) - m2 * (m4 * m15 - m7 * m12) + m3 * (m4 * m14 - m6 * m12))) * m10 + (1.0 * (m0 * (m6 * m11 - m7 * m10) - m2 * (m4 * m11 - m7 * m8) + m3 * (m4 * m10 - m6 * m8))) * m14 == 0.0
    ensures (-1.0 * (m4 * (m10 * m15 - m11 * m14) - m6 * (m8 * m15 - m11 * m12) + m7 * (m8 * m14 - m10 * m12))) * m3 + (1.0 * (m0 * (m10 * m15 - m11 * m14) - m2 * (m8 * m15 - m11 * m12) + m3 * (m8 * m14 - m10 * m12))) * m7 + (-1.0 * (m0 * (m6 * m15 - m7 * m14) - m2 * (m4 * m15 - m7 * m12) + m3 * (m4 * m14 - m6 * m12))) * m11 + (1.0 * (m0 * (m6 * m11 - m7 * m10) - m2 * (m4 * m11 - m7 * m8) + m3 * (m4 * m10 - m6 * m8))) * m15 == 0.0
  {
  }

  lemma AdjugateRightColumn2(m: Matrix4)
    ensures TransformVector(m, Column(Adjugate(m), 2)) == Vec4(0.0, 0.0, Determinate(m), 0.0)
  {
    AdjugateShape8(m);
    AdjugateShape9(m);
    AdjugateShape10(m);
    AdjugateShape11(m);
    DeterminateShape(m);
    AdjugateRightApply2(m, Adjugate(m), Determinate(m));
  }

  lemma AdjugateRightApply2(m: Matrix4, a: Matrix4, d: real)
    requires a.m8 == 1.0 * (m.m4 * (m.m9 * m.m15 - m.m11 * m.m13) - m.m5 * (m.m8 * m.m15 - m.m11 * m.m12) + m.m7 * (m.m8 * m.m13 - m.m9 * m.m12))
    requires a.m9 == -1.0 * (m.m0 * (m.m9 * m.m15 - m.m11 * m.m13) - m.m1 * (m.m8 * m.m15 - m.m11 * m.m12) + m.m3 * (m.m8 * m.m13 - m.m9 * m.m12))
    requires a.m10 == 1.0 * (m.m0 * (m.m5 * m.m15 - m.m7 * m.m13) - m.m1 * (m.m4 * m.m15 - m.m7 * m.m12) + m.m3 * (m.m4 * m.m13 - m.m5 * m.m12))
    requires a.m11 == -1.0 * (m.m0 * (m.m5 * m.m11 - m.m7 * m.m9) - m.m1 * (m.m4 * m.m11 - m.m7 * m.m8) + m.m3 * (m.m4 * m.m9 - m.m5 * m.m8))
    requires d == m.m3 * m.m6 * m.m9 * m.m12 - m.m2 * m.m7 * m.m9 * m.m12 - m.m3 * m.m5 * m.m10 * m.m12 + m.m1 * m.m7 * m.m10 * m.m12 + m.m2 * m.m5 * m.m11 * m.m12 - m.m1 * m.m6 * m.m11 * m.m12 - m.m3 * m.m6 * m.m8 * m.m13 + m.m2 * m.m7 * m.m8 * m.m13 + m.m3 * m.m4 * m.m10 * m.m13 - m.m0 * m.m7 * m.m10 * m.m13 - m.m2 * m.m4 * m.m11 * m.m13 + m.m0 * m.m6 * m.m11 * m.m13 + m.m3 * m.m5 * m.m8 * m.m14 - m.m1 * m.m7 * m.m8 * m.m14 - m.m3 * m.m4 * m.m9 * m.m14 + m.m0 * m.m7 * m.m9 * m.m14 + m.m1 * m.m4 * m.m11 * m.m14 - m.m0 * m.m5 * m.m11 * m.m14 - m.m2 * m.m5 * m.m8 * m.m15 + m.m1 * m.m6 * m.m8 * m.m15 + m.m2 * m.m4 * m.m9 * m.m15 - m.m0 * m.m6 * m.m9 * m.m15 - m.m1 * m.m4 * m.m10 * m.m15 + m.m0 * m.m5 * m.m10 * m.m15
    ensures TransformVector(m, Column(a, 2)) == Vec4(0.0, 0.0, d, 0.0)
  {
    ColumnEntryShape20(m, a);
    ColumnEntryShape21(m, a);
    ColumnEntryShape22(m, a);
    ColumnEntryShape23(m, a);
    AdjugateRightPolynomial2(m.m0, m.m1, m.m2, m.m3, m.m4, m.m5, m.m6, m.m7, m.m8, m.m9, m.m10, m.m11, m.m12, m.m13, m.m14, m.m15, a.m8, a.m9, a.m10, a.m11, d);
  }

  lemma AdjugateRightPolynomial2(m0: real, m1: real, m2: real, m3: real, m4: real, m5: real, m6: real, m7: real, m8: real, m9: real, m10: real, m11: real, m12: real, m13: real, m14: real, m15: real, w0: real, w1: real, w2: real, w3: real, d: real)
    requires w0 == 1.0 * (m4 * (m9 * m15 - m11 * m13) - m5 * (m8 * m15 - m11 * m12) + m7 * (m8 * m13 - m9 * m12))
    requires w1 == -1.0 * (m0 * (m9 * m15 - m11 * m13) - m1 * (m8 * m15 - m11 * m12) + m3 * (m8 * m13 - m9 * m12))
    requires w2 == 1.0 * (m0 * (m5 * m15 - m7 * m13) - m1 * (m4 * m15 - m7 * m12) + m3 * (m4 * m13 - m5 * m12))
    requires w3 == -1.0 * (m0 * (m5 * m11 - m7 * m9) - m1 * (m4 * m11 - m7 * m8) + m3 * (m4 * m9 - m5 * m8))
    requires d == m3 * m6 * m9 * m12 - m2 * m7 * m9 * m12 - m3 * m5 * m10 * m12 + m1 * m7 * m10 * m12 + m2 * m5 * m11 * m12 - m1 * m6 * m11 * m12 - m3 * m6 * m8 * m13 + m2 * m7 * m8 * m13 + m3 * m4 * m10 * m13 - m0 * m7 * m10 * m13 - m2 * m4 * m11 * m13 + m0 * m6 * m11 * m13 + m3 * m5 * m8 * m14 - m1 * m7 * m8 * m14 - m3 * m4 * m9 * m14 + m0 * m7 * m9 * m14 + m1 * m4 * m11 * m14 - m0 * m5 * m11 * m14 - m2 * m5 * m8 * m15 + m1 * m6 * m8 * m15 + m2 * m4 * m9 * m15 - m0 * m6 * m9 * m15 - m1 * m4 * m10 * m15 + m0 * m5 * m10 * m15
    ensures w0 * m0 + w1 * m4 + w2 * m8 + w3 * m12 == 0.0
    ensures w0 * m1 + w1 * m5 + w2 * m9 + w3 * m13 == 0.0
    ensures w0 * m2 + w1 * m6 + w2 * m10 + w3 * m14 == d
    ensures w0 * m3 + w1 * m7 + w2 * m11 + w3 * m15 == 0.0
  {
    AdjugateRightExpanded2(m0, m1, m2, m3, m4, m5, m6, m7, m8, m9, m10, m11, m12, m13, m14, m15);
  }

  lemma AdjugateRightExpanded2(m0: real, m1: real, m2: real, m3: real, m4: real, m5: real, m6: real, m7: real, m8: real, m9: real, m10: real, m11: real, m12: real, m13: real, m14: real, m15: real)
    ensures (1.0 * (m4 * (m9 * m15 - m11 * m13) - m5 * (m8 * m15 - m11 * m12) + m7 * (m8 * m13 - m9 * m12))) * m0 + (-1.0 * (m0 * (m9 * m15 - m11 * m13) - m1 * (m8 * m15 - m11 * m12) + m3 * (m8 * m13 - m9 * m12))) * m4 + (1.0 * (m0 * (m5 * m15 - m7 * m13) - m1 * (m4 * m15 - m7 * m12) + m3 * (m4 * m13 - m5 * m12))) * m8 + (-1.0 * (m0 * (m5 * m11 - m7 * m9) - m1 * (m4 * m11 - m7 * m8) + m3 * (m4 * m9 - m5 * m8))) * m12 == 0.0
    ensures (1.0 * (m4 * (m9 * m15 - m11 * m13) - m5 * (m8 * m15 - m11 * m12) + m7 * (m8 * m13 - m9 * m12))) * m1 + (-1.0 * (m0 * (m9 * m15 - m11 * m13) - m1 * (m8 * m15 - m11 * m12) + m3 * (m8 * m13 - m9 * m12))) * m5 + (1.0 * (m0 * (m5 * m15 - m7 * m13) - m1 * (m4 * m15 - m7 * m12) + m3 * (m4 * m13 - m5 * m12))) * m9 + (-1.0 * (m0 * (m5 * m11 - m7 * m9) - m1 * (m4 * m11 - m7 * m8) + m3 * (m4 * m9 - m5 * m8))) * m13 == 0.0
    ensures (1.0 * (m4 * (m9 * m15 - m11 * m13) - m5 * (m8 * m15 - m11 * m12) + m7 * (m8 * m13 - m9 * m12))) * m2 + (-1.0 * (m0 * (m9 * m15 - m11 * m13) - m1 * (m8 * m15 - m11 * m12) + m3 * (m8 * m13 - m9 * m12))) * m6 + (1.0 * (m0 * (m5 * m15 - m7 * m13) - m1 * (m4 * m15 - m7 * m12) + m3 * (m4 * m13 - m5 * m12))) * m10 + (-1.0 * (m0 * (m5 * m11 - m7 * m9) - m1 * (m4 * m11 - m7 * m8) + m3 * (m4 * m9 - m5 * m8))) * m14 == m3 * m6 * m9 * m12 - m2 * m7 * m9 * m12 - m3 * m5 * m10 * m12 + m1 * m7 * m10 * m12 + m2 * m5 * m11 * m12 - m1 * m6 * m11 * m12 - m3 * m6 * m8 * m13 + m2 * m7 * m8 * m13 + m3 * m4 * m10 * m13 - m0 * m7 * m10 * m13 - m2 * m4 * m11 * m13 + m0 * m6 * m11 * m13 + m3 * m5 * m8 * m14 - m1 * m7 * m8 * m14 - m3 * m4 * m9 * m14 + m0 * m7 * m9 * m14 + m1 * m4 * m11 * m14 - m0 * m5 * m11 * m14 - m2 * m5 * m8 * m15 + m1 * m6 * m8 * m15 + m2 * m4 * m9 * m15 - m0 * m6 * m9 * m15 - m1 * m4 * m10 * m15 + m0 * m5 * m10 * m15
    ensures (1.0 * (m4 * (m9 * m15 - m11 * m13) - m5 * (m8 * m15 - m11 * m12) + m7 * (m8 * m13 - m9 * m12))) * m3 + (-1.0 * (m0 * (m9 * m15 - m11 * m13) - m1 * (m8 * m15 - m11 * m12) + m3 * (m8 * m13 - m9 * m12))) * m7 + (1.0 * (m0 * (m5 * m15 - m7 * m13) - m1 * (m4 * m15 - m7 * m12) + m3 * (m4 * m13 - m5 * m12))) * m11 + (-1.0 * (m0 * (m5 * m11 - m7 * m9) - m1 * (m4 * m11 - m7 * m8) + m3 * (m4 * m9 - m5 * m8))) * m15 == 0.0
  {
  }

  lemma AdjugateRightColumn3(m: Matrix4)
    ensures TransformVector(m, Column(Adjugate(m), 3)) == Vec4(0.0, 0.0, 0.0, Determinate(m))
  {
    AdjugateShape12(m);
    AdjugateShape13(m);
    AdjugateShape14(m);
    AdjugateShape15(m);
    DeterminateShape(m);
    AdjugateRightApply3(m, Adjugate(m), Determinate(m));
  }

  lemma AdjugateRightApply3(m: Matrix4, a: Matrix4, d: real)
    requires a.m12 == -1.0 * (m.m4 * (m.m9 * m.m14 - m.m10 * m.m13) - m.m5 * (m.m8 * m.m14 - m.m10 * m.m12) + m.m6 * (m.m8 * m.m13 - m.m9 * m.m12))
    requires a.m13 == 1.0 * (m.m0 * (m.m9 * m.m14 - m.m10 * m.m13) - m.m1 * (m.m8 * m.m14 - m.m10 * m.m12) + m.m2 * (m.m8 * m.m13 - m.m9 * m.m12))
    requires a.m14 == -1.0 * (m.m0 * (m.m5 * m.m14 - m.m6 * m.m13) - m.m1 * (m.m4 * m.m14 - m.m6 * m.m12) + m.m2 * (m.m4 * m.m13 - m.m5 * m.m12))
    requires a.m15 == 1.0 * (m.m0 * (m.m5 * m.m10 - m.m6 * m.m9) - m.m1 * (m.m4 * m.m10 - m.m6 * m.m8) + m.m2 * (m.m4 * m.m9 - m.m5 * m.m8))
    requires d == m.m3 * m.m6 * m.m9 * m.m12 - m.m2 * m.m7 * m.m9 * m.m12 - m.m3 * m.m5 * m.m10 * m.m12 + m.m1 * m.m7 * m.m10 * m.m12 + m.m2 * m.m5 * m.m11 * m.m12 - m.m1 * m.m6 * m.m11 * m.m12 - m.m3 * m.m6 * m.m8 * m.m13 + m.m2 * m.m7 * m.m8 * m.m13 + m.m3 * m.m4 * m.m10 * m.m13 - m.m0 * m.m7 * m.m10 * m.m13 - m.m2 * m.m4 * m.m11 * m.m13 + m.m0 * m.m6 * m.m11 * m.m13 + m.m3 * m.m5 * m.m8 * m.m14 - m.m1 * m.m7 * m.m8 * m.m14 - m.m3 * m.m4 * m.m9 * m.m14 + m.m0 * m.m7 * m.m9 * m.m14 + m.m1 * m.m4 * m.m11 * m.m14 - m.m0 * m.m5 * m.m11 * m.m14 - m.m2 * m.m5 * m.m8 * m.m15 + m.m1 * m.m6 * m.m8 * m.m15 + m.m2 * m.m4 * m.m9 * m.m15 - m.m0 * m.m6 * m.m9 * m.m15 - m.m1 * m.m4 * m.m10 * m.m15 + m.m0 * m.m5 * m.m10 * m.m15
    ensures TransformVector(m, Column(a, 3)) == Vec4(0.0, 0.0, 0.0, d)
  {
    ColumnEntryShape30(m, a);
    ColumnEntryShape31(m, a);
    ColumnEntryShape32(m, a);
    ColumnEntryShape33(m, a);
    AdjugateRightPolynomial3(m.m0, m.m1, m.m2, m.m3, m.m4, m.m5, m.m6, m.m7, m.m8, m.m9, m.m10, m.m11, m.m12, m.m13, m.m14, m.m15, a.m12, a.m13, a.m14, a.m15, d);
  }

  lemma AdjugateRightPolynomial3(m0: real, m1: real, m2: real, m3: real, m4: real, m5: real, m6: real, m7: real, m8: real, m9: real, m10: real, m11: real, m12: real, m13: real, m14: real, m15: real, w0: real, w1: real, w2: real, w3: real, d: real)
    requires w0 == -1.0 * (m4 * (m9 * m14 - m10 * m13) - m5 * (m8 * m14 - m10 * m12) + m6 * (m8 * m13 - m9 * m12))
    requires w1 == 1.0 * (m0 * (m9 * m14 - m10 * m13) - m1 * (m8 * m14 - m10 * m12) + m2 * (m8 * m13 - m9 * m12))
    requires w2 == -1.0 * (m0 * (m5 * m14 - m6 * m13) - m1 * (m4 * m14 - m6 * m12) + m2 * (m4 * m13 - m5 * m12))
    requires w3 == 1.0 * (m0 * (m5 * m10 - m6 * m9) - m1 * (m4 * m10 - m6 * m8) + m2 * (m4 * m9 - m5 * m8))
    requires d == m3 * m6 * m9 * m12 - m2 * m7 * m9 * m12 - m3 * m5 * m10 * m12 + m1 * m7 * m10 * m12 + m2 * m5 * m11 * m12 - m1 * m6 * m11 * m12 - m3 * m6 * m8 * m13 + m2 * m7 * m8 * m13 + m3 * m4 * m10 * m13 - m0 * m7 * m10 * m13 - m2 * m4 * m11 * m13 + m0 * m6 * m11 * m13 + m3 * m5 * m8 * m14 - m1 * m7 * m8 * m14 - m3 * m4 * m9 * m14 + m0 * m7 * m9 * m14 + m1 * m4 * m11 * m14 - m0 * m5 * m11 * m14 - m2 * m5 * m8 * m15 + m1 * m6 * m8 * m15 + m2 * m4 * m9 * m15 - m0 * m6 * m9 * m15 - m1 * m4 * m10 * m15 + m0 * m5 * m10 * m15
    ensures w0 * m0 + w1 * m4 + w2 * m8 + w3 * m12 == 0.0
    ensures w0 * m1 + w1 * m5 + w2 * m9 + w3 * m13 == 0.0
    ensures w0 * m2 + w1 * m6 + w2 * m10 + w3 * m14 == 0.0
    ensures w0 * m3 + w1 * m7 + w2 * m11 + w3 * m15 == d
  {
    AdjugateRightExpanded3(m0, m1, m2, m3, m4, m5, m6, m7, m8, m9, m10, m11, m12, m13, m14, m15);
  }

  lemma AdjugateRightExpanded3(m0: real, m1: real, m2: real, m3: real, m4: real, m5: real, m6: real, m7: real, m8: real, m9: real, m10: real, m11: real, m12: real, m13: real, m14: real, m15: real)
    ensures (-1.0 * (m4 * (m9 * m14 - m10 * m13) - m5 * (m8 * m14 - m10 * m12) + m6 * (m8 * m13 - m9 * m12))) * m0 + (1.0 * (m0 * (m9 * m14 - m10 * m13) - m1 * (m8 * m14 - m10 * m12) + m2 * (m8 * m13 - m9 * m12))) * m4 + (-1.0 * (m0 * (m5 * m14 - m6 * m13) - m1 * (m4 * m14 - m6 * m12) + m2 * (m4 * m13 - m5 * m12))) * m8 + (1.0 * (m0 * (m5 * m10 - m6 * m9) - m1 * (m4 * m10 - m6 * m8) + m2 * (m4 * m9 - m5 * m8))) * m12 == 0.0
    ensures (-1.0 * (m4 * (m9 * m14 - m10 * m13) - m5 * (m8 * m14 - m10 * m12) + m6 * (m8 * m13 - m9 * m12))) * m1 + (1.0 * (m0 * (m9 * m14 - m10 * m13) - m1 * (m8 * m14 - m10 * m12) + m2 * (m8 * m13 - m9 * m12))) * m5 + (-1.0 * (m0 * (m5 * m14 - m6 * m13) - m1 * (m4 * m14 - m6 * m12) + m2 * (m4 * m13 - m5 * m12))) * m9 + (1.0 * (m0 * (m5 * m10 - m6 * m9) - m1 * (m4 * m10 - m6 * m8) + m2 * (m4 * m9 - m5 * m8))) * m13 == 0.0
    ensures (-1.0 * (m4 * (m9 * m14 - m10 * m13) - m5 * (m8 * m14 - m10 * m12) + m6 * (m8 * m13 - m9 * m12))) * m2 + (1.0 * (m0 * (m9 * m14 - m10 * m13) - m1 * (m8 * m14 - m10 * m12) + m2 * (m8 * m13 - m9 * m12))) * m6 + (-1.0 * (m0 * (m5 * m14 - m6 * m13) - m1 * (m4 * m14 - m6 * m12) + m2 * (m4 * m13 - m5 * m12))) * m10 + (1.0 * (m0 * (m5 * m10 - m6 * m9) - m1 * (m4 * m10 - m6 * m8) + m2 * (m4 * m9 - m5 * m8))) * m14 == 0.0
    ensures (-1.0 * (m4 * (m9 * m14 - m10 * m13) - m5 * (m8 * m14 - m10 * m12) + m6 * (m8 * m13 - m9 * m12))) * m3 + (1.0 * (m0 * (m9 * m14 - m10 * m13) - m1 * (m8 * m14 - m10 * m12) + m2 * (m8 * m13 - m9 * m12))) * m7 + (-1.0 * (m0 * (m5 * m14 - m6 * m13) - m1 * (m4 * m14 - m6 * m12) + m2 * (m4 * m13 - m5 * m12))) * m11 + (1.0 * (m0 * (m5 * m10 - m6 * m9) - m1 * (m4 * m10 - m6 * m8) + m2 * (m4 * m9 - m5 * m8))) * m15 == m3 * m6 * m9 * m12 - m2 * m7 * m9 * m12 - m3 * m5 * m10 * m12 + m1 * m7 * m10 * m12 + m2 * m5 * m11 * m12 - m1 * m6 * m11 * m12 - m3 * m6 * m8 * m13 + m2 * m7 * m8 * m13 + m3 * m4 * m10 * m13 - m0 * m7 * m10 * m13 - m2 * m4 * m11 * m13 + m0 * m6 * m11 * m13 + m3 * m5 * m8 * m14 - m1 * m7 * m8 * m14 - m3 * m4 * m9 * m14 + m0 * m7 * m9 * m14 + m1 * m4 * m11 * m14 - m0 * m5 * m11 * m14 - m2 * m5 * m8 * m15 + m1 * m6 * m8 * m15 + m2 * m4 * m9 * m15 - m0 * m6 * m9 * m15 - m1 * m4 * m10 * m15 + m0 * m5 * m10 * m15
  {
  }

  // The other order, `adj(m) * m == det(m) * I`, column by column, with
  // the same four stages: `AdjugateLeftRowC`, `AdjugateLeftApplyC`,
  // `AdjugateLeftPolynomialC` and `AdjugateLeftExpandedC`.

  lemma AdjugateLeftRow0(m: Matrix4)
    ensures TransformVector(Adjugate(m), Column(m, 0)).x == Determinate(m)
    ensures TransformVector(Adjugate(m), Column(m, 1)).x == 0.0
    ensures TransformVector(Adjugate(m), Column(m, 2)).x == 0.0
    ensures TransformVector(Adjugate(m), Column(m, 3)).x == 0.0
  {
    AdjugateShape0(m);
    AdjugateShape4(m);
    AdjugateShape8(m);
    AdjugateShape12(m);
    DeterminateShape(m);
    AdjugateLeftApply0(m, Adjugate(m), Determinate(m));
  }

  lemma AdjugateLeftApply0(m: Matrix4, a: Matrix4, d: real)
    requires a.m0 == 1.0 * (m.m5 * (m.m10 * m.m15 - m.m11 * m.m14) - m.m6 * (m.m9 * m.m15 - m.m11 * m.m13) + m.m7 * (m.m9 * m.m14 - m.m10 * m.m13))
    requires a.m4 == -1.0 * (m.m4 * (m.m10 * m.m15 - m.m11 * m.m14) - m.m6 * (m.m8 * m.m15 - m.m11 * m.m12) + m.m7 * (m.m8 * m.m14 - m.m10 * m.m12))
    requires a.m8 == 1.0 * (m.m4 * (m.m9 * m.m15 - m.m11 * m.m13) - m.m5 * (m.m8 * m.m15 - m.m11 * m.m12) + m.m7 * (m.m8 * m.m13 - m.m9 * m.m12))
    requires a.m12 == -1.0 * (m.m4 * (m.m9 * m.m14 - m.m10 * m.m13) - m.m5 * (m.m8 * m.m14 - m.m10 * m.m12) + m.m6 * (m.m8 * m.m13 - m.m9 * m.m12))
    requires d == m.m3 * m.m6 * m.m9 * m.m12 - m.m2 * m.m7 * m.m9 * m.m12 - m.m3 * m.m5 * m.m10 * m.m12 + m.m1 * m.m7 * m.m10 * m.m12 + m.m2 * m.m5 * m.m11 * m.m12 - m.m1 * m.m6 * m.m11 * m.m12 - m.m3 * m.m6 * m.m8 * m.m13 + m.m2 * m.m7 * m.m8 * m.m13 + m.m3 * m.m4 * m.m10 * m.m13 - m.m0 * m.m7 * m.m10 * m.m13 - m.m2 * m.m4 * m.m11 * m.m13 + m.m0 * m.m6 * m.m11 * m.m13 + m.m3 * m.m5 * m.m8 * m.m14 - m.m1 * m.m7 * m.m8 * m.m14 - m.m3 * m.m4 * m.m9 * m.m14 + m.m0 * m.m7 * m.m9 * m.m14 + m.m1 * m.m4 * m.m11 * m.m14 - m.m0 * m.m5 * m.m11 * m.m14 - m.m2 * m.m5 * m.m8 * m.m15 + m.m1 * m.m6 * m.m8 * m.m15 + m.m2 * m.m4 * m.m9 * m.m15 - m.m0 * m.m6 * m.m9 * m.m15 - m.m1 * m.m4 * m.m10 * m.m15 + m.m0 * m.m5 * m.m10 * m.m15
    ensures TransformVector(a, Column(m, 0)).x == d
    ensures TransformVector(a, Column(m, 1)).x == 0.0
    ensures TransformVector(a, Column(m, 2)).x == 0.0
    ensures TransformVector(a, Column(m, 3)).x == 0.0
  {
    ColumnEntryShape00(a, m);
    ColumnEntryShape10(a, m);
    ColumnEntryShape20(a, m);
    ColumnEntryShape30(a, m);
    AdjugateLeftPolynomial0(m.m0, m.m1, m.m2, m.m3, m.m4, m.m5, m.m6, m.m7, m.m8, m.m9, m.m10, m.m11, m.m12, m.m13, m.m14, m.m15, a.m0, a.m4, a.m8, a.m12, d);
  }

  lemma AdjugateLeftPolynomial0(m0: real, m1: real, m2: real, m3: real, m4: real, m5: real, m6: real, m7: real, m8: real, m9: real, m10: real, m11: real, m12: real, m13: real, m14: real, m15: real, w0: real, w1: real, w2: real, w3: real, d: real)
    requires w0 == 1.0 * (m5 * (m10 * m15 - m11 * m14) - m6 * (m9 * m15 - m11 * m13) + m7 * (m9 * m14 - m10 * m13))
    requires w1 == -1.0 * (m4 * (m10 * m15 - m11 * m14) - m6 * (m8 * m15 - m11 * m12) + m7 * (m8 * m14 - m10 * m12))
    requires w2 == 1.0 * (m4 * (m9 * m15 - m11 * m13) - m5 * (m8 * m15 - m11 * m12) + m7 * (m8 * m13 - m9 * m12))
    requires w3 == -1.0 * (m4 * (m9 * m14 - m10 * m13) - m5 * (m8 * m14 - m10 * m12) + m6 * (m8 * m13 - m9 * m12))
    requires d == m3 * m6 * m9 * m12 - m2 * m7 * m9 * m12 - m3 * m5 * m10 * m12 + m1 * m7 * m10 * m12 + m2 * m5 * m11 * m12 - m1 * m6 * m11 * m12 - m3 * m6 * m8 * m13 + m2 * m7 * m8 * m13 + m3 * m4 * m10 * m13 - m0 * m7 * m10 * m13 - m2 * m4 * m11 * m13 + m0 * m6 * m11 * m13 + m3 * m5 * m8 * m14 - m1 * m7 * m8 * m14 - m3 * m4 * m9 * m14 + m0 * m7 * m9 * m14 + m1 * m4 * m11 * m14 - m0 * m5 * m11 * m14 - m2 * m5 * m8 * m15 + m1 * m6 * m8 * m15 + m2 * m4 * m9 * m15 - m0 * m6 * m9 * m15 - m1 * m4 * m10 * m15 + m0 * m5 * m10 * m15
    ensures m0 * w0 + m1 * w1 + m2 * w2 + m3 * w3 == d
    ensures m4 * w0 + m5 * w1 + m6 * w2 + m7 * w3 == 0.0
    ensures m8 * w0 + m9 * w1 + m10 * w2 + m11 * w3 == 0.0
    ensures m12 * w0 + m13 * w1 + m14 * w2 + m15 * w3 == 0.0
  {
    AdjugateLeftExpanded0(m0, m1, m2, m3, m4, m5, m6, m7, m8, m9, m10, m11, m12, m13, m14, m15);
  }

  lemma AdjugateLeftExpanded0(m0: real, m1: real, m2: real, m3: real, m4: real, m5: real, m6: real, m7: real, m8: real, m9: real, m10: real, m11: real, m12: real, m13: real, m14: real, m15: real)
    ensures m0 * (1.0 * (m5 * (m10 * m15 - m11 * m14) - m6 * (m9 * m15 - m11 * m13) + m7 * (m9 * m14 - m10 * m13))) + m1 * (-1.0 * (m4 * (m10 * m15 - m11 * m14) - m6 * (m8 * m15 - m11 * m12) + m7 * (m8 * m14 - m10 * m12))) + m2 * (1.0 * (m4 * (m9 * m15 - m11 * m13) - m5 * (m8 * m15 - m11 * m12) + m7 * (m8 * m13 - m9 * m12))) + m3 * (-1.0 * (m4 * (m9 * m14 - m10 * m13) - m5 * (m8 * m14 - m10 * m12) + m6 * (m8 * m13 - m9 * m12))) == m3 * m6 * m9 * m12 - m2 * m7 * m9 * m12 - m3 * m5 * m10 * m12 + m1 * m7 * m10 * m12 + m2 * m5 * m11 * m12 - m1 * m6 * m11 * m12 - m3 * m6 * m8 * m13 + m2 * m7 * m8 * m13 + m3 * m4 * m10 * m13 - m0 * m7 * m10 * m13 - m2 * m4 * m11 * m13 + m0 * m6 * m11 * m13 + m3 * m5 * m8 * m14 - m1 * m7 * m8 * m14 - m3 * m4 * m9 * m14 + m0 * m7 * m9 * m14 + m1 * m4 * m11 * m14 - m0 * m5 * m11 * m14 - m2 * m5 * m8 * m15 + m1 * m6 * m8 * m15 + m2 * m4 * m9 * m15 - m0 * m6 * m9 * m15 - m1 * m4 * m10 * m15 + m0 * m5 * m10 * m15
    ensures m4 * (1.0 * (m5 * (m10 * m15 - m11 * m14) - m6 * (m9 * m15 - m11 * m13) + m7 * (m9 * m14 - m10 * m13))) + m5 * (-1.0 * (m4 * (m10 * m15 - m11 * m14) - m6 * (m8 * m15 - m11 * m12) + m7 * (m8 * m14 - m10 * m12))) + m6 * (1.0 * (m4 * (m9 * m15 - m11 * m13) - m5 * (m8 * m15 - m11 * m12) + m7 * (m8 * m13 - m9 * m12))) + m7 * (-1.0 * (m4 * (m9 * m14 - m10 * m13) - m5 * (m8 * m14 - m10 * m12) + m6 * (m8 * m13 - m9 * m12))) == 0.0
    ensures m8 * (1.0 * (m5 * (m10 * m15 - m11 * m14) - m6 * (m9 * m15 - m11 * m13) + m7 * (m9 * m14 - m10 * m13))) + m9 * (-1.0 * (m4 * (m10 * m15 - m11 * m14) - m6 * (m8 * m15 - m11 * m12) + m7 * (m8 * m14 - m10 * m12))) + m10 * (1.0 * (m4 * (m9 * m15 - m11 * m13) - m5 * (m8 * m15 - m11 * m12) + m7 * (m8 * m13 - m9 * m12))) + m11 * (-1.0 * (m4 * (m9 * m14 - m10 * m13) - m5 * (m8 * m14 - m10 * m12) + m6 * (m8 * m13 - m9 * m12))) == 0.0
    ensures m12 * (1.0 * (m5 * (m10 * m15 - m11 * m14) - m6 * (m9 * m15 - m11 * m13) + m7 * (m9 * m14 - m10 * m13))) + m13 * (-1.0 * (m4 * (m10 * m15 - m11 * m14) - m6 * (m8 * m15 - m11 * m12) + m7 * (m8 * m14 - m10 * m12))) + m14 * (1.0 * (m4 * (m9 * m15 - m11 * m13) - m5 * (m8 * m15 - m11 * m12) + m7 * (m8 * m13 - m9 * m12))) + m15 * (-1.0 * (m4 * (m9 * m14 - m10 * m13) - m5 * (m8 * m14 - m10 * m12) + m6 * (m8 * m13 - m9 * m12))) == 0.0
  {
  }

  lemma AdjugateLeftRow1(m: Matrix4)
    ensures TransformVector(Adjugate(m), Column(m, 0)).y == 0.0
    ensures TransformVector(Adjugate(m), Column(m, 1)).y == Determinate(m)
    ensures TransformVector(Adjugate(m), Column(m, 2)).y == 0.0
    ensures TransformVector(Adjugate(m), Column(m, 3)).y == 0.0
  {
    AdjugateShape1(m);
    AdjugateShape5(m);
    AdjugateShape9(m);
    AdjugateShape13(m);
    DeterminateShape(m);
    AdjugateLeftApply1(m, Adjugate(m), Determinate(m));
  }

  lemma AdjugateLeftApply1(m: Matrix4, a: Matrix4, d: real)
    requires a.m1 == -1.0 * (m.m1 * (m.m10 * m.m15 - m.m11 * m.m14) - m.m2 * (m.m9 * m.m15 - m.m11 * m.m13) + m.m3 * (m.m9 * m.m14 - m.m10 * m.m13))
    requires a.m5 == 1.0 * (m.m0 * (m.m10 * m.m15 - m.m11 * m.m14) - m.m2 * (m.m8 * m.m15 - m.m11 * m.m12) + m.m3 * (m.m8 * m.m14 - m.m10 * m.m12))
    requires a.m9 == -1.0 * (m.m0 * (m.m9 * m.m15 - m.m11 * m.m13) - m.m1 * (m.m8 * m.m15 - m.m11 * m.m12) + m.m3 * (m.m8 * m.m13 - m.m9 * m.m12))
    requires a.m13 == 1.0 * (m.m0 * (m.m9 * m.m14 - m.m10 * m.m13) - m.m1 * (m.m8 * m.m14 - m.m10 * m.m12) + m.m2 * (m.m8 * m.m13 - m.m9 * m.m12))
    requires d == m.m3 * m.m6 * m.m9 * m.m12 - m.m2 * m.m7 * m.m9 * m.m12 - m.m3 * m.m5 * m.m10 * m.m12 + m.m1 * m.m7 * m.m10 * m.m12 + m.m2 * m.m5 * m.m11 * m.m12 - m.m1 * m.m6 * m.m11 * m.m12 - m.m3 * m.m6 * m.m8 * m.m13 + m.m2 * m.m7 * m.m8 * m.m13 + m.m3 * m.m4 * m.m10 * m.m13 - m.m0 * m.m7 * m.m10 * m.m13 - m.m2 * m.m4 * m.m11 * m.m13 + m.m0 * m.m6 * m.m11 * m.m13 + m.m3 * m.m5 * m.m8 * m.m14 - m.m1 * m.m7 * m.m8 * m.m14 - m.m3 * m.m4 * m.m9 * m.m14 + m.m0 * m.m7 * m.m9 * m.m14 + m.m1 * m.m4 * m.m11 * m.m14 - m.m0 * m.m5 * m.m11 * m.m14 - m.m2 * m.m5 * m.m8 * m.m15 + m.m1 * m.m6 * m.m8 * m.m15 + m.m2 * m.m4 * m.m9 * m.m15 - m.m0 * m.m6 * m.m9 * m.m15 - m.m1 * m.m4 * m.m10 * m.m15 + m.m0 * m.m5 * m.m10 * m.m15
    ensures TransformVector(a, Column(m, 0)).y == 0.0
    ensures TransformVector(a, Column(m, 1)).y == d
    ensures TransformVector(a, Column(m, 2)).y == 0.0
    ensures TransformVector(a, Column(m, 3)).y == 0.0
  {
    ColumnEntryShape01(a, m);
    ColumnEntryShape11(a, m);
    ColumnEntryShape21(a, m);
    ColumnEntryShape31(a, m);
    AdjugateLeftPolynomial1(m.m0, m.m1, m.m2, m.m3, m.m4, m.m5, m.m6, m.m7, m.m8, m.m9, m.m10, m.m11, m.m12, m.m13, m.m14, m.m15, a.m1, a.m5, a.m9, a.m13, d);
  }

  lemma AdjugateLeftPolynomial1(m0: real, m1: real, m2: real, m3: real, m4: real, m5: real, m6: real, m7: real, m8: real, m9: real, m10: real, m11: real, m12: real, m13: real, m14: real, m15: real, w0: real, w1: real, w2: real, w3: real, d: real)
    requires w0 == -1.0 * (m1 * (m10 * m15 - m11 * m14) - m2 * (m9 * m15 - m11 * m13) + m3 * (m9 * m14 - m10 * m13))
    requires w1 == 1.0 * (m0 * (m10 * m15 - m11 * m14) - m2 * (m8 * m15 - m11 * m12) + m3 * (m8 * m14 - m10 * m12))
    requires w2 == -1.0 * (m0 * (m9 * m15 - m11 * m13) - m1 * (m8 * m15 - m11 * m12) + m3 * (m8 * m13 - m9 * m12))
    requires w3 == 1.0 * (m0 * (m9 * m14 - m10 * m13) - m1 * (m8 * m14 - m10 * m12) + m2 * (m8 * m13 - m9 * m12))
    requires d == m3 * m6 * m9 * m12 - m2 * m7 * m9 * m12 - m3 * m5 * m10 * m12 + m1 * m7 * m10 * m12 + m2 * m5 * m11 * m12 - m1 * m6 * m11 * m12 - m3 * m6 * m8 * m13 + m2 * m7 * m8 * m13 + m3 * m4 * m10 * m13 - m0 * m7 * m10 * m13 - m2 * m4 * m11 * m13 + m0 * m6 * m11 * m13 + m3 * m5 * m8 * m14 - m1 * m7 * m8 * m14 - m3 * m4 * m9 * m14 + m0 * m7 * m9 * m14 + m1 * m4 * m11 * m14 - m0 * m5 * m11 * m14 - m2 * m5 * m8 * m15 + m1 * m6 * m8 * m15 + m2 * m4 * m9 * m15 - m0 * m6 * m9 * m15 - m1 * m4 * m10 * m15 + m0 * m5 * m10 * m15
    ensures m0 * w0 + m1 * w1 + m2 * w2 + m3 * w3 == 0.0
    ensures m4 * w0 + m5 * w1 + m6 * w2 + m7 * w3 == d
    ensures m8 * w0 + m9 * w1 + m10 * w2 + m11 * w3 == 0.0
    ensures m12 * w0 + m13 * w1 + m14 * w2 + m15 * w3 == 0.0
  {
    AdjugateLeftExpanded1(m0, m1, m2, m3, m4, m5, m6, m7, m8, m9, m10, m11, m12, m13, m14, m15);
  }

  lemma AdjugateLeftExpanded1(m0: real, m1: real, m2: real, m3: real, m4: real, m5: real, m6: real, m7: real, m8: real, m9: real, m10: real, m11: real, m12: real, m13: real, m14: real, m15: real)
    ensures m0 * (-1.0 * (m1 * (m10 * m15 - m11 * m14) - m2 * (m9 * m15 - m11 * m13) + m3 * (m9 * m14 - m10 * m13))) + m1 * (1.0 * (m0 * (m10 * m15 - m11 * m14) - m2 * (m8 * m15 - m11 * m12) + m3 * (m8 * m14 - m10 * m12))) + m2 * (-1.0 * (m0 * (m9 * m15 - m11 * m13) - m1 * (m8 * m15 - m11 * m12) + m3 * (m8 * m13 - m9 * m12))) + m3 * (1.0 * (m0 * (m9 * m14 - m10 * m13) - m1 * (m8 * m14 - m10 * m12) + m2 * (m8 * m13 - m9 * m12))) == 0.0
    ensures m4 * (-1.0 * (m1 * (m10 * m15 - m11 * m14) - m2 * (m9 * m15 - m11 * m13) + m3 * (m9 * m14 - m10 * m13))) + m5 * (1.0 * (m0 * (m10 * m15 - m11 * m14) - m2 * (m8 * m15 - m11 * m12) + m3 * (m8 * m14 - m10 * m12))) + m6 * (-1.0 * (m0 * (m9 * m15 - m11 * m13) - m1 * (m8 * m15 - m11 * m12) + m3 * (m8 * m13 - m9 * m12))) + m7 * (1.0 * (m0 * (m9 * m14 - m10 * m13) - m1 * (m8 * m14 - m10 * m12) + m2 * (m8 * m13 - m9 * m12))) == m3 * m6 * m9 * m12 - m2 * m7 * m9 * m12 - m3 * m5 * m10 * m12 + m1 * m7 * m10 * m12 + m2 * m5 * m11 * m12 - m1 * m6 * m11 * m12 - m3 * m6 * m8 * m13 + m2 * m7 * m8 * m13 + m3 * m4 * m10 * m13 - m0 * m7 * m10 * m13 - m2 * m4 * m11 * m13 + m0 * m6 * m11 * m13 + m3 * m5 * m8 * m14 - m1 * m7 * m8 * m14 - m3 * m4 * m9 * m14 + m0 * m7 * m9 * m14 + m1 * m4 * m11 * m14 - m0 * m5 * m11 * m14 - m2 * m5 * m8 * m15 + m1 * m6 * m8 * m15 + m2 * m4 * m9 * m15 - m0 * m6 * m9 * m15 - m1 * m4 * m10 * m15 + m0 * m5 * m10 * m15
    ensures m8 * (-1.0 * (m1 * (m10 * m15 - m11 * m14) - m2 * (m9 * m15 - m11 * m13) + m3 * (m9 * m14 - m10 * m13))) + m9 * (1.0 * (m0 * (m10 * m15 - m11 * m14) - m2 * (m8 * m15 - m11 * m12) + m3 * (m8 * m14 - m10 * m12))) + m10 * (-1.0 * (m0 * (m9 * m15 - m11 * m13) - m1 * (m8 * m15 - m11 * m12) + m3 * (m8 * m13 - m9 * m12))) + m11 * (1.0 * (m0 * (m9 * m14 - m10 * m13) - m1 * (m8 * m14 - m10 * m12) + m2 * (m8 * m13 - m9 * m12))) == 0.0
    ensures m12 * (-1.0 * (m1 * (m10 * m15 - m11 * m14) - m2 * (m9 * m15 - m11 * m13) + m3 * (m9 * m14 - m10 * m13))) + m13 * (1.0 * (m0 * (m10 * m15 - m11 * m14) - m2 * (m8 * m15 - m11 * m12) + m3 * (m8 * m14 - m10 * m12))) + m14 * (-1.0 * (m0 * (m9 * m15 - m11 * m13) - m1 * (m8 * m15 - m11 * m12) + m3 * (m8 * m13 - m9 * m12))) + m15 * (1.0 * (m0 * (m9 * m14 - m10 * m13) - m1 * (m8 * m14 - m10 * m12) + m2 * (m8 * m13 - m9 * m12))) == 0.0
  {
  }

  lemma AdjugateLeftRow2(m: Matrix4)
    ensures TransformVector(Adjugate(m), Column(m, 0)).z == 0.0
    ensures TransformVector(Adjugate(m), Column(m, 1)).z == 0.0
    ensures TransformVector(Adjugate(m), Column(m, 2)).z == Determinate(m)
    ensures TransformVector(Adjugate(m), Column(m, 3)).z == 0.0
  {
    AdjugateShape2(m);
    AdjugateShape6(m);
    AdjugateShape10(m);
    AdjugateShape14(m);
    DeterminateShape(m);
    AdjugateLeftApply2(m, Adjugate(m), Determinate(m));
  }

  lemma AdjugateLeftApply2(m: Matrix4, a: Matrix4, d: real)
    requires a.m2 == 1.0 * (m.m1 * (m.m6 * m.m15 - m.m7 * m.m14) - m.m2 * (m.m5 * m.m15 - m.m7 * m.m13) + m.m3 * (m.m5 * m.m14 - m.m6 * m.m13))
    requires a.m6 == -1.0 * (m.m0 * (m.m6 * m.m15 - m.m7 * m.m14) - m.m2 * (m.m4 * m.m15 - m.m7 * m.m12) + m.m3 * (m.m4 * m.m14 - m.m6 * m.m12))
    requires a.m10 == 1.0 * (m.m0 * (m.m5 * m.m15 - m.m7 * m.m13) - m.m1 * (m.m4 * m.m15 - m.m7 * m.m12) + m.m3 * (m.m4 * m.m13 - m.m5 * m.m12))
    requires a.m14 == -1.0 * (m.m0 * (m.m5 * m.m14 - m.m6 * m.m13) - m.m1 * (m.m4 * m.m14 - m.m6 * m.m12) + m.m2 * (m.m4 * m.m13 - m.m5 * m.m12))
    requires d == m.m3 * m.m6 * m.m9 * m.m12 - m.m2 * m.m7 * m.m9 * m.m12 - m.m3 * m.m5 * m.m10 * m.m12 + m.m1 * m.m7 * m.m10 * m.m12 + m.m2 * m.m5 * m.m11 * m.m12 - m.m1 * m.m6 * m.m11 * m.m12 - m.m3 * m.m6 * m.m8 * m.m13 + m.m2 * m.m7 * m.m8 * m.m13 + m.m3 * m.m4 * m.m10 * m.m13 - m.m0 * m.m7 * m.m10 * m.m13 - m.m2 * m.m4 * m.m11 * m.m13 + m.m0 * m.m6 * m.m11 * m.m13 + m.m3 * m.m5 * m.m8 * m.m14 - m.m1 * m.m7 * m.m8 * m.m14 - m.m3 * m.m4 * m.m9 * m.m14 + m.m0 * m.m7 * m.m9 * m.m14 + m.m1 * m.m4 * m.m11 * m.m14 - m.m0 * m.m5 * m.m11 * m.m14 - m.m2 * m.m5 * m.m8 * m.m15 + m.m1 * m.m6 * m.m8 * m.m15 + m.m2 * m.m4 * m.m9 * m.m15 - m.m0 * m.m6 * m.m9 * m.m15 - m.m1 * m.m4 * m.m10 * m.m15 + m.m0 * m.m5 * m.m10 * m.m15
    ensures TransformVector(a, Column(m, 0)).z == 0.0
    ensures TransformVector(a, Column(m, 1)).z == 0.0
    ensures TransformVector(a, Column(m, 2)).z == d
    ensures TransformVector(a, Column(m, 3)).z == 0.0
  {
    ColumnEntryShape02(a, m);
    ColumnEntryShape12(a, m);
    ColumnEntryShape22(a, m);
    ColumnEntryShape32(a, m);
    AdjugateLeftPolynomial2(m.m0, m.m1, m.m2, m.m3, m.m4, m.m5, m.m6, m.m7, m.m8, m.m9, m.m10, m.m11, m.m12, m.m13, m.m14, m.m15, a.m2, a.m6, a.m10, a.m14, d);
  }

  lemma AdjugateLeftPolynomial2(m0: real, m1: real, m2: real, m3: real, m4: real, m5: real, m6: real, m7: real, m8: real, m9: real, m10: real, m11: real, m12: real, m13: real, m14: real, m15: real, w0: real, w1: real, w2: real, w3: real, d: real)
    requires w0 == 1.0 * (m1 * (m6 * m15 - m7 * m14) - m2 * (m5 * m15 - m7 * m13) + m3 * (m5 * m14 - m6 * m13))
    requires w1 == -1.0 * (m0 * (m6 * m15 - m7 * m14) - m2 * (m4 * m15 - m7 * m12) + m3 * (m4 * m14 - m6 * m12))
    requires w2 == 1.0 * (m0 * (m5 * m15 - m7 * m13) - m1 * (m4 * m15 - m7 * m12) + m3 * (m4 * m13 - m5 * m12))
    requires w3 == -1.0 * (m0 * (m5 * m14 - m6 * m13) - m1 * (m4 * m14 - m6 * m12) + m2 * (m4 * m13 - m5 * m12))
    requires d == m3 * m6 * m9 * m12 - m2 * m7 * m9 * m12 - m3 * m5 * m10 * m12 + m1 * m7 * m10 * m12 + m2 * m5 * m11 * m12 - m1 * m6 * m11 * m12 - m3 * m6 * m8 * m13 + m2 * m7 * m8 * m13 + m3 * m4 * m10 * m13 - m0 * m7 * m10 * m13 - m2 * m4 * m11 * m13 + m0 * m6 * m11 * m13 + m3 * m5 * m8 * m14 - m1 * m7 * m8 * m14 - m3 * m4 * m9 * m14 + m0 * m7 * m9 * m14 + m1 * m4 * m11 * m14 - m0 * m5 * m11 * m14 - m2 * m5 * m8 * m15 + m1 * m6 * m8 * m15 + m2 * m4 * m9 * m15 - m0 * m6 * m9 * m15 - m1 * m4 * m10 * m15 + m0 * m5 * m10 * m15
    ensures m0 * w0 + m1 * w1 + m2 * w2 + m3 * w3 == 0.0
    ensures m4 * w0 + m5 * w1 + m6 * w2 + m7 * w3 == 0.0
    ensures m8 * w0 + m9 * w1 + m10 * w2 + m11 * w3 == d
    ensures m12 * w0 + m13 * w1 + m14 * w2 + m15 * w3 == 0.0
  {
    AdjugateLeftExpanded2(m0, m1, m2, m3, m4, m5, m6, m7, m8, m9, m10, m11, m12, m13, m14, m15);
  }

  lemma AdjugateLeftExpanded2(m0: real, m1: real, m2: real, m3: real, m4: real, m5: real, m6: real, m7: real, m8: real, m9: real, m10: real, m11: real, m12: real, m13: real, m14: real, m15: real)
    ensures m0 * (1.0 * (m1 * (m6 * m15 - m7 * m14) - m2 * (m5 * m15 - m7 * m13) + m3 * (m5 * m14 - m6 * m13))) + m1 * (-1.0 * (m0 * (m6 * m15 - m7 * m14) - m2 * (m4 * m15 - m7 * m12) + m3 * (m4 * m14 - m6 * m12))) + m2 * (1.0 * (m0 * (m5 * m15 - m7 * m13) - m1 * (m4 * m15 - m7 * m12) + m3 * (m4 * m13 - m5 * m12))) + m3 * (-1.0 * (m0 * (m5 * m14 - m6 * m13) - m1 * (m4 * m14 - m6 * m12) + m2 * (m4 * m13 - m5 * m12))) == 0.0
    ensures m4 * (1.0 * (m1 * (m6 * m15 - m7 * m14) - m2 * (m5 * m15 - m7 * m13) + m3 * (m5 * m14 - m6 * m13))) + m5 * (-1.0 * (m0 * (m6 * m15 - m7 * m14) - m2 * (m4 * m15 - m7 * m12) + m3 * (m4 * m14 - m6 * m12))) + m6 * (1.0 * (m0 * (m5 * m15 - m7 * m13) - m1 * (m4 * m15 - m7 * m12) + m3 * (m4 * m13 - m5 * m12))) + m7 * (-1.0 * (m0 * (m5 * m14 - m6 * m13) - m1 * (m4 * m14 - m6 * m12) + m2 * (m4 * m13 - m5 * m12))) == 0.0
    ensures m8 * (1.0 * (m1 * (m6 * m15 - m7 * m14) - m2 * (m5 * m15 - m7 * m13) + m3 * (m5 * m14 - m6 * m13))) + m9 * (-1.0 * (m0 * (m6 * m15 - m7 * m14) - m2 * (m4 * m15 - m7 * m12) + m3 * (m4 * m14 - m6 * m12))) + m10 * (1.0 * (m0 * (m5 * m15 - m7 * m13) - m1 * (m4 * m15 - m7 * m12) + m3 * (m4 * m13 - m5 * m12))) + m11 * (-1.0 * (m0 * (m5 * m14 - m6 * m13) - m1 * (m4 * m14 - m6 * m12) + m2 * (m4 * m13 - m5 * m12))) == m3 * m6 * m9 * m12 - m2 * m7 * m9 * m12 - m3 * m5 * m10 * m12 + m1 * m7 * m10 * m12 + m2 * m5 * m11 * m12 - m1 * m6 * m11 * m12 - m3 * m6 * m8 * m13 + m2 * m7 * m8 * m13 + m3 * m4 * m10 * m13 - m0 * m7 * m10 * m13 - m2 * m4 * m11 * m13 + m0 * m6 * m11 * m13 + m3 * m5 * m8 * m14 - m1 * m7 * m8 * m14 - m3 * m4 * m9 * m14 + m0 * m7 * m9 * m14 + m1 * m4 * m11 * m14 - m0 * m5 * m11 * m14 - m2 * m5 * m8 * m15 + m1 * m6 * m8 * m15 + m2 * m4 * m9 * m15 - m0 * m6 * m9 * m15 - m1 * m4 * m10 * m15 + m0 * m5 * m10 * m15
    ensures m12 * (1.0 * (m1 * (m6 * m15 - m7 * m14) - m2 * (m5 * m15 - m7 * m13) + m3 * (m5 * m14 - m6 * m13))) + m13 * (-1.0 * (m0 * (m6 * m15 - m7 * m14) - m2 * (m4 * m15 - m7 * m12) + m3 * (m4 * m14 - m6 * m12))) + m14 * (1.0 * (m0 * (m5 * m15 - m7 * m13) - m1 * (m4 * m15 - m7 * m12) + m3 * (m4 * m13 - m5 * m12))) + m15 * (-1.0 * (m0 * (m5 * m14 - m6 * m13) - m1 * (m4 * m14 - m6 * m12) + m2 * (m4 * m13 - m5 * m12))) == 0.0
  {
  }

  lemma AdjugateLeftRow3(m: Matrix4)
    ensures TransformVector(Adjugate(m), Column(m, 0)).w == 0.0
    ensures TransformVector(Adjugate(m), Column(m, 1)).w == 0.0
    ensures TransformVector(Adjugate(m), Column(m, 2)).w == 0.0
    ensures TransformVector(Adjugate(m), Column(m, 3)).w == Determinate(m)
  {
    AdjugateShape3(m);
    AdjugateShape7(m);
    AdjugateShape11(m);
    AdjugateShape15(m);
    DeterminateShape(m);
    AdjugateLeftApply3(m, Adjugate(m), Determinate(m));
  }

  lemma AdjugateLeftApply3(m: Matrix4, a: Matrix4, d: real)
    requires a.m3 == -1.0 * (m.m1 * (m.m6 * m.m11 - m.m7 * m.m10) - m.m2 * (m.m5 * m.m11 - m.m7 * m.m9) + m.m3 * (m.m5 * m.m10 - m.m6 * m.m9))
    requires a.m7 == 1.0 * (m.m0 * (m.m6 * m.m11 - m.m7 * m.m10) - m.m2 * (m.m4 * m.m11 - m.m7 * m.m8) + m.m3 * (m.m4 * m.m10 - m.m6 * m.m8))
    requires a.m11 == -1.0 * (m.m0 * (m.m5 * m.m11 - m.m7 * m.m9) - m.m1 * (m.m4 * m.m11 - m.m7 * m.m8) + m.m3 * (m.m4 * m.m9 - m.m5 * m.m8))
    requires a.m15 == 1.0 * (m.m0 * (m.m5 * m.m10 - m.m6 * m.m9) - m.m1 * (m.m4 * m.m10 - m.m6 * m.m8) + m.m2 * (m.m4 * m.m9 - m.m5 * m.m8))
    requires d == m.m3 * m.m6 * m.m9 * m.m12 - m.m2 * m.m7 * m.m9 * m.m12 - m.m3 * m.m5 * m.m10 * m.m12 + m.m1 * m.m7 * m.m10 * m.m12 + m.m2 * m.m5 * m.m11 * m.m12 - m.m1 * m.m6 * m.m11 * m.m12 - m.m3 * m.m6 * m.m8 * m.m13 + m.m2 * m.m7 * m.m8 * m.m13 + m.m3 * m.m4 * m.m10 * m.m13 - m.m0 * m.m7 * m.m10 * m.m13 - m.m2 * m.m4 * m.m11 * m.m13 + m.m0 * m.m6 * m.m11 * m.m13 + m.m3 * m.m5 * m.m8 * m.m14 - m.m1 * m.m7 * m.m8 * m.m14 - m.m3 * m.m4 * m.m9 * m.m14 + m.m0 * m.m7 * m.m9 * m.m14 + m.m1 * m.m4 * m.m11 * m.m14 - m.m0 * m.m5 * m.m11 * m.m14 - m.m2 * m.m5 * m.m8 * m.m15 + m.m1 * m.m6 * m.m8 * m.m15 + m.m2 * m.m4 * m.m9 * m.m15 - m.m0 * m.m6 * m.m9 * m.m15 - m.m1 * m.m4 * m.m10 * m.m15 + m.m0 * m.m5 * m.m10 * m.m15
    ensures TransformVector(a, Column(m, 0)).w == 0.0
    ensures TransformVector(a, Column(m, 1)).w == 0.0
    ensures TransformVector(a, Column(m, 2)).w == 0.0
    ensures TransformVector(a, Column(m, 3)).w == d
  {
    ColumnEntryShape03(a, m);
    ColumnEntryShape13(a, m);
    ColumnEntryShape23(a, m);
    ColumnEntryShape33(a, m);
    AdjugateLeftPolynomial3(m.m0, m.m1, m.m2, m.m3, m.m4, m.m5, m.m6, m.m7, m.m8, m.m9, m.m10, m.m11, m.m12, m.m13, m.m14, m.m15, a.m3, a.m7, a.m11, a.m15, d);
  }

  lemma AdjugateLeftPolynomial3(m0: real, m1: real, m2: real, m3: real, m4: real, m5: real, m6: real, m7: real, m8: real, m9: real, m10: real, m11: real, m12: real, m13: real, m14: real, m15: real, w0: real, w1: real, w2: real, w3: real, d: real)
    requires w0 == -1.0 * (m1 * (m6 * m11 - m7 * m10) - m2 * (m5 * m11 - m7 * m9) + m3 * (m5 * m10 - m6 * m9))
    requires w1 == 1.0 * (m0 * (m6 * m11 - m7 * m10) - m2 * (m4 * m11 - m7 * m8) + m3 * (m4 * m10 - m6 * m8))
    requires w2 == -1.0 * (m0 * (m5 * m11 - m7 * m9) - m1 * (m4 * m11 - m7 * m8) + m3 * (m4 * m9 - m5 * m8))
    requires w3 == 1.0 * (m0 * (m5 * m10 - m6 * m9) - m1 * (m4 * m10 - m6 * m8) + m2 * (m4 * m9 - m5 * m8))
    requires d == m3 * m6 * m9 * m12 - m2 * m7 * m9 * m12 - m3 * m5 * m10 * m12 + m1 * m7 * m10 * m12 + m2 * m5 * m11 * m12 - m1 * m6 * m11 * m12 - m3 * m6 * m8 * m13 + m2 * m7 * m8 * m13 + m3 * m4 * m10 * m13 - m0 * m7 * m10 * m13 - m2 * m4 * m11 * m13 + m0 * m6 * m11 * m13 + m3 * m5 * m8 * m14 - m1 * m7 * m8 * m14 - m3 * m4 * m9 * m14 + m0 * m7 * m9 * m14 + m1 * m4 * m11 * m14 - m0 * m5 * m11 * m14 - m2 * m5 * m8 * m15 + m1 * m6 * m8 * m15 + m2 * m4 * m9 * m15 - m0 * m6 * m9 * m15 - m1 * m4 * m10 * m15 + m0 * m5 * m10 * m15
    ensures m0 * w0 + m1 * w1 + m2 * w2 + m3 * w3 == 0.0
    ensures m4 * w0 + m5 * w1 + m6 * w2 + m7 * w3 == 0.0
    ensures m8 * w0 + m9 * w1 + m10 * w2 + m11 * w3 == 0.0
    ensures m12 * w0 + m13 * w1 + m14 * w2 + m15 * w3 == d
  {
    AdjugateLeftExpanded3(m0, m1, m2, m3, m4, m5, m6, m7, m8, m9, m10, m11, m12, m13, m14, m15);
  }

  lemma AdjugateLeftExpanded3(m0: real, m1: real, m2: real, m3: real, m4: real, m5: real, m6: real, m7: real, m8: real, m9: real, m10: real, m11: real, m12: real, m13: real, m14: real, m15: real)
    ensures m0 * (-1.0 * (m1 * (m6 * m11 - m7 * m10) - m2 * (m5 * m11 - m7 * m9) + m3 * (m5 * m10 - m6 * m9))) + m1 * (1.0 * (m0 * (m6 * m11 - m7 * m10) - m2 * (m4 * m11 - m7 * m8) + m3 * (m4 * m10 - m6 * m8))) + m2 * (-1.0 * (m0 * (m5 * m11 - m7 * m9) - m1 * (m4 * m11 - m7 * m8) + m3 * (m4 * m9 - m5 * m8))) + m3 * (1.0 * (m0 * (m5 * m10 - m6 * m9) - m1 * (m4 * m10 - m6 * m8) + m2 * (m4 * m9 - m5 * m8))) == 0.0
    ensures m4 * (-1.0 * (m1 * (m6 * m11 - m7 * m10) - m2 * (m5 * m11 - m7 * m9) + m3 * (m5 * m10 - m6 * m9))) + m5 * (1.0 * (m0 * (m6 * m11 - m7 * m10) - m2 * (m4 * m11 - m7 * m8) + m3 * (m4 * m10 - m6 * m8))) + m6 * (-1.0 * (m0 * (m5 * m11 - m7 * m9) - m1 * (m4 * m11 - m7 * m8) + m3 * (m4 * m9 - m5 * m8))) + m7 * (1.0 * (m0 * (m5 * m10 - m6 * m9) - m1 * (m4 * m10 - m6 * m8) + m2 * (m4 * m9 - m5 * m8))) == 0.0
    ensures m8 * (-1.0 * (m1 * (m6 * m11 - m7 * m10) - m2 * (m5 * m11 - m7 * m9) + m3 * (m5 * m10 - m6 * m9))) + m9 * (1.0 * (m0 * (m6 * m11 - m7 * m10) - m2 * (m4 * m11 - m7 * m8) + m3 * (m4 * m10 - m6 * m8))) + m10 * (-1.0 * (m0 * (m5 * m11 - m7 * m9) - m1 * (m4 * m11 - m7 * m8) + m3 * (m4 * m9 - m5 * m8))) + m11 * (1.0 * (m0 * (m5 * m10 - m6 * m9) - m1 * (m4 * m10 - m6 * m8) + m2 * (m4 * m9 - m5 * m8))) == 0.0
    ensures m12 * (-1.0 * (m1 * (m6 * m11 - m7 * m10) - m2 * (m5 * m11 - m7 * m9) + m3 * (m5 * m10 - m6 * m9))) + m13 * (1.0 * (m0 * (m6 * m11 - m7 * m10) - m2 * (m4 * m11 - m7 * m8) + m3 * (m4 * m10 - m6 * m8))) + m14 * (-1.0 * (m0 * (m5 * m11 - m7 * m9) - m1 * (m4 * m11 - m7 * m8) + m3 * (m4 * m9 - m5 * m8))) + m15 * (1.0 * (m0 * (m5 * m10 - m6 * m9) - m1 * (m4 * m10 - m6 * m8) + m2 * (m4 * m9 - m5 * m8))) == m3 * m6 * m9 * m12 - m2 * m7 * m9 * m12 - m3 * m5 * m10 * m12 + m1 * m7 * m10 * m12 + m2 * m5 * m11 * m12 - m1 * m6 * m11 * m12 - m3 * m6 * m8 * m13 + m2 * m7 * m8 * m13 + m3 * m4 * m10 * m13 - m0 * m7 * m10 * m13 - m2 * m4 * m11 * m13 + m0 * m6 * m11 * m13 + m3 * m5 * m8 * m14 - m1 * m7 * m8 * m14 - m3 * m4 * m9 * m14 + m0 * m7 * m9 * m14 + m1 * m4 * m11 * m14 - m0 * m5 * m11 * m14 - m2 * m5 * m8 * m15 + m1 * m6 * m8 * m15 + m2 * m4 * m9 * m15 - m0 * m6 * m9 * m15 - m1 * m4 * m10 * m15 + m0 * m5 * m10 * m15
  {
  }
}
