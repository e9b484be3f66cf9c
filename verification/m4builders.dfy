/** The transform builders of `m4` and their fast in-place forms:
    `translation`/`translate`, `scaling`/`scale`, the rotations about the
    coordinate axes `xRotation` .. `zRotation` with `xRotate` .. `zRotate`,
    and `axisRotation`/`axisRotate`. A rotation angle enters as its cosine
    `c` and sine `s`, the values the library takes from `Math.cos` and
    `Math.sin`. Each builder fills a fresh zero-filled array, so every entry
    it does not write is zero. */
module M4Builders {
  import opened Reals
  import opened M4
  import V = Vectors

  /** `translation(tx, ty, tz)`: the identity with the offsets in column 3. */
  function Translation(tx: real, ty: real, tz: real): Matrix4
  {
    Matrix4(1.0, 0.0, 0.0, 0.0, 0.0, 1.0, 0.0, 0.0, 0.0, 0.0, 1.0, 0.0, tx, ty, tz, 1.0)
  }

  /** `translate(m, tx, ty, tz)`: copies columns 0..2 of `m` and replaces
      column 3 by `m` applied to `(tx, ty, tz, 1)`. */
  function Translate(m: Matrix4, tx: real, ty: real, tz: real): Matrix4
  {
    Matrix4(m.m0, m.m1, m.m2, m.m3, m.m4, m.m5, m.m6, m.m7, m.m8, m.m9, m.m10, m.m11,
            m.m0 * tx + m.m4 * ty + m.m8 * tz + m.m12,
            m.m1 * tx + m.m5 * ty + m.m9 * tz + m.m13,
            m.m2 * tx + m.m6 * ty + m.m10 * tz + m.m14,
            m.m3 * tx + m.m7 * ty + m.m11 * tz + m.m15)
  }

  /** `translate` is post-multiplication by `translation`. */
  lemma TranslateIsMultiply(m: Matrix4, tx: real, ty: real, tz: real)
    ensures Translate(m, tx, ty, tz) == Multiply(m, Translation(tx, ty, tz))
  {
    var r, f := Translation(tx, ty, tz), Translate(m, tx, ty, tz);
    TranslationColumn0(tx, ty, tz);
    TranslationColumn1(tx, ty, tz);
    TranslationColumn2(tx, ty, tz);
    TranslationColumn3(tx, ty, tz);
    TranslateColumn0(m, tx, ty, tz);
    TranslateColumn1(m, tx, ty, tz);
    TranslateColumn2(m, tx, ty, tz);
    TranslateColumn3(m, tx, ty, tz);
    ApplyUnit0(m);
    ApplyUnit1(m);
    ApplyUnit2(m);
    TranslateApplied(m, tx, ty, tz);
    PostMultiplyColumn(m, r, f, 0, Vec4(1.0, 0.0, 0.0, 0.0), Vec4(m.m0, m.m1, m.m2, m.m3));
    PostMultiplyColumn(m, r, f, 1, Vec4(0.0, 1.0, 0.0, 0.0), Vec4(m.m4, m.m5, m.m6, m.m7));
    PostMultiplyColumn(m, r, f, 2, Vec4(0.0, 0.0, 1.0, 0.0), Vec4(m.m8, m.m9, m.m10, m.m11));
    PostMultiplyColumn(m, r, f, 3, Vec4(tx, ty, tz, 1.0), Vec4(m.m0 * tx + m.m4 * ty + m.m8 * tz + m.m12, m.m1 * tx + m.m5 * ty + m.m9 * tz + m.m13, m.m2 * tx + m.m6 * ty + m.m10 * tz + m.m14, m.m3 * tx + m.m7 * ty + m.m11 * tz + m.m15));
    ColumnsDetermineMatrix(f, Multiply(m, r));
  }

  lemma TranslationColumn0(tx: real, ty: real, tz: real)
    ensures Column(Translation(tx, ty, tz), 0) == Vec4(1.0, 0.0, 0.0, 0.0)
  {
    ColumnFields(Translation(tx, ty, tz));
  }

  lemma TranslationColumn1(tx: real, ty: real, tz: real)
    ensures Column(Translation(tx, ty, tz), 1) == Vec4(0.0, 1.0, 0.0, 0.0)
  {
    ColumnFields(Translation(tx, ty, tz));
  }

  lemma TranslationColumn2(tx: real, ty: real, tz: real)
    ensures Column(Translation(tx, ty, tz), 2) == Vec4(0.0, 0.0, 1.0, 0.0)
  {
    ColumnFields(Translation(tx, ty, tz));
  }

  lemma TranslationColumn3(tx: real, ty: real, tz: real)
    ensures Column(Translation(tx, ty, tz), 3) == Vec4(tx, ty, tz, 1.0)
  {
    ColumnFields(Translation(tx, ty, tz));
  }

  lemma TranslateColumn0(m: Matrix4, tx: real, ty: real, tz: real)
    ensures Column(Translate(m, tx, ty, tz), 0) == Vec4(m.m0, m.m1, m.m2, m.m3)
  {
    ColumnFields(Translate(m, tx, ty, tz));
  }

  lemma TranslateColumn1(m: Matrix4, tx: real, ty: real, tz: real)
    ensures Column(Translate(m, tx, ty, tz), 1) == Vec4(m.m4, m.m5, m.m6, m.m7)
  {
    ColumnFields(Translate(m, tx, ty, tz));
  }

  lemma TranslateColumn2(m: Matrix4, tx: real, ty: real, tz: real)
    ensures Column(Translate(m, tx, ty, tz), 2) == Vec4(m.m8, m.m9, m.m10, m.m11)
  {
    ColumnFields(Translate(m, tx, ty, tz));
  }

  lemma TranslateColumn3(m: Matrix4, tx: real, ty: real, tz: real)
    ensures Column(Translate(m, tx, ty, tz), 3) == Vec4(m.m0 * tx + m.m4 * ty + m.m8 * tz + m.m12, m.m1 * tx + m.m5 * ty + m.m9 * tz + m.m13, m.m2 * tx + m.m6 * ty + m.m10 * tz + m.m14, m.m3 * tx + m.m7 * ty + m.m11 * tz + m.m15)
  {
    var f := Translate(m, tx, ty, tz);
    TranslateEntries(m, tx, ty, tz, f);
    ColumnFields(f);
  }

  /** The entries `translate` writes into column 3. */
  lemma TranslateEntries(m: Matrix4, tx: real, ty: real, tz: real, f: Matrix4)
    requires f == Translate(m, tx, ty, tz)
    ensures f.m12 == m.m0 * tx + m.m4 * ty + m.m8 * tz + m.m12 && f.m13 == m.m1 * tx + m.m5 * ty + m.m9 * tz + m.m13
    ensures f.m14 == m.m2 * tx + m.m6 * ty + m.m10 * tz + m.m14 && f.m15 == m.m3 * tx + m.m7 * ty + m.m11 * tz + m.m15
  {
  }

  lemma TranslateApplied(m: Matrix4, tx: real, ty: real, tz: real)
    ensures TransformVector(m, Vec4(tx, ty, tz, 1.0)) == Vec4(m.m0 * tx + m.m4 * ty + m.m8 * tz + m.m12, m.m1 * tx + m.m5 * ty + m.m9 * tz + m.m13, m.m2 * tx + m.m6 * ty + m.m10 * tz + m.m14, m.m3 * tx + m.m7 * ty + m.m11 * tz + m.m15)
  {
    var h := TransformVector(m, Vec4(tx, ty, tz, 1.0));
    AppliedEntries(m, tx, ty, tz, h);
  }

  /** The components of `m` applied to the point `(tx, ty, tz)`. */
  lemma AppliedEntries(m: Matrix4, tx: real, ty: real, tz: real, h: Vec4)
    requires h == TransformVector(m, Vec4(tx, ty, tz, 1.0))
    ensures h.x == m.m0 * tx + m.m4 * ty + m.m8 * tz + m.m12 && h.y == m.m1 * tx + m.m5 * ty + m.m9 * tz + m.m13
    ensures h.z == m.m2 * tx + m.m6 * ty + m.m10 * tz + m.m14 && h.w == m.m3 * tx + m.m7 * ty + m.m11 * tz + m.m15
  {
  }

  /** A translation moves every point by its offsets. */
  lemma TranslationMovesPoints(tx: real, ty: real, tz: real, p: V.Vec3)
    ensures Weight(Translation(tx, ty, tz), p) == 1.0
    ensures TransformPoint(Translation(tx, ty, tz), p) == V.Add(p, V.Vec3(tx, ty, tz))
  {
  }

  /** A translation leaves directions alone. */
  lemma TranslationKeepsDirections(tx: real, ty: real, tz: real, v: V.Vec3)
    ensures TransformDirection(Translation(tx, ty, tz), v) == v
  {
  }

  /** Translations compose by adding their offsets. */
  lemma TranslationCompose(x1: real, y1: real, z1: real, x2: real, y2: real, z2: real)
    ensures Multiply(Translation(x1, y1, z1), Translation(x2, y2, z2)) == Translation(x1 + x2, y1 + y2, z1 + z2)
  {
  }

  /** Translating twice is translating once by the summed offsets. */
  lemma TranslateTwice(m: Matrix4, x1: real, y1: real, z1: real, x2: real, y2: real, z2: real)
    ensures Translate(Translate(m, x1, y1, z1), x2, y2, z2) == Translate(m, x1 + x2, y1 + y2, z1 + z2)
  {
    TranslateIsMultiply(m, x1, y1, z1);
    TranslateIsMultiply(Translate(m, x1, y1, z1), x2, y2, z2);
    TranslateIsMultiply(m, x1 + x2, y1 + y2, z1 + z2);
    MultiplyAssociative(m, Translation(x1, y1, z1), Translation(x2, y2, z2));
    TranslationCompose(x1, y1, z1, x2, y2, z2);
  }

  /** `translate` changes where points go but not where directions go. */
  lemma TranslateKeepsDirections(m: Matrix4, tx: real, ty: real, tz: real, v: V.Vec3)
    ensures TransformDirection(Translate(m, tx, ty, tz), v) == TransformDirection(m, v)
  {
  }

  /** `scaling(sx, sy, sz)`: the diagonal matrix `(sx, sy, sz, 1)`. */
  function Scaling(sx: real, sy: real, sz: real): Matrix4
  {
    Matrix4(sx, 0.0, 0.0, 0.0, 0.0, sy, 0.0, 0.0, 0.0, 0.0, sz, 0.0, 0.0, 0.0, 0.0, 1.0)
  }

  /** `scale(m, sx, sy, sz)`: columns 0..2 of `m` multiplied by `sx`, `sy`,
      `sz`; column 3 copied. */
  function Scale(m: Matrix4, sx: real, sy: real, sz: real): Matrix4
  {
    Matrix4(sx * m.m0, sx * m.m1, sx * m.m2, sx * m.m3,
            sy * m.m4, sy * m.m5, sy * m.m6, sy * m.m7,
            sz * m.m8, sz * m.m9, sz * m.m10, sz * m.m11,
            m.m12, m.m13, m.m14, m.m15)
  }

  /** `scale` is post-multiplication by `scaling`. */
  lemma ScaleIsMultiply(m: Matrix4, sx: real, sy: real, sz: real)
    ensures Scale(m, sx, sy, sz) == Multiply(m, Scaling(sx, sy, sz))
  {
  }

  /** A scaling multiplies each coordinate of a point by its factor. */
  lemma ScalingStretchesPoints(sx: real, sy: real, sz: real, p: V.Vec3)
    ensures Weight(Scaling(sx, sy, sz), p) == 1.0
    ensures TransformPoint(Scaling(sx, sy, sz), p) == V.Vec3(p.x * sx, p.y * sy, p.z * sz)
  {
  }

  /** Scalings compose by multiplying their factors. */
  lemma ScalingCompose(x1: real, y1: real, z1: real, x2: real, y2: real, z2: real)
    ensures Multiply(Scaling(x1, y1, z1), Scaling(x2, y2, z2)) == Scaling(x1 * x2, y1 * y2, z1 * z2)
  {
  }

  /** `xRotation`: rotation about the x axis; columns 1 and 2 are
      `(0, c, s, 0)` and `(0, -s, c, 0)`. */
  function XRotation(c: real, s: real): Matrix4
  {
    Matrix4(1.0, 0.0, 0.0, 0.0, 0.0, c, s, 0.0, 0.0, -s, c, 0.0, 0.0, 0.0, 0.0, 1.0)
  }

  /** `yRotation`: rotation about the y axis; columns 0 and 2 are
      `(c, 0, -s, 0)` and `(s, 0, c, 0)`. */
  function YRotation(c: real, s: real): Matrix4
  {
    Matrix4(c, 0.0, -s, 0.0, 0.0, 1.0, 0.0, 0.0, s, 0.0, c, 0.0, 0.0, 0.0, 0.0, 1.0)
  }

  /** `zRotation`: rotation about the z axis; columns 0 and 1 are
      `(c, s, 0, 0)` and `(-s, c, 0, 0)`. */
  function ZRotation(c: real, s: real): Matrix4
  {
    Matrix4(c, s, 0.0, 0.0, -s, c, 0.0, 0.0, 0.0, 0.0, 1.0, 0.0, 0.0, 0.0, 0.0, 1.0)
  }

  /** `xRotate` as intended: columns 1 and 2 of `m` rotated into each
      other, columns 0 and 3 those of `m`. */
  function XRotate(m: Matrix4, c: real, s: real): Matrix4
  {
    Matrix4(m.m0, m.m1, m.m2, m.m3,
            c * m.m4 + s * m.m8, c * m.m5 + s * m.m9, c * m.m6 + s * m.m10, c * m.m7 + s * m.m11,
            c * m.m8 - s * m.m4, c * m.m9 - s * m.m5, c * m.m10 - s * m.m6, c * m.m11 - s * m.m7,
            m.m12, m.m13, m.m14, m.m15)
  }

  /** `xRotate` as written: the loop meant to copy the untouched entries
      from `m` tests each entry for `undefined`, which no entry of a
      zero-filled `Float32Array` is, so columns 0 and 3 stay zero. */
  function XRotateAsWritten(m: Matrix4, c: real, s: real): Matrix4
  {
    Matrix4(0.0, 0.0, 0.0, 0.0,
            c * m.m4 + s * m.m8, c * m.m5 + s * m.m9, c * m.m6 + s * m.m10, c * m.m7 + s * m.m11,
            c * m.m8 - s * m.m4, c * m.m9 - s * m.m5, c * m.m10 - s * m.m6, c * m.m11 - s * m.m7,
            0.0, 0.0, 0.0, 0.0)
  }

  /** `yRotate` as intended: columns 0 and 2 of `m` rotated into each
      other, columns 1 and 3 those of `m`. */
  function YRotate(m: Matrix4, c: real, s: real): Matrix4
  {
    Matrix4(c * m.m0 - s * m.m8, c * m.m1 - s * m.m9, c * m.m2 - s * m.m10, c * m.m3 - s * m.m11,
            m.m4, m.m5, m.m6, m.m7,
            c * m.m8 + s * m.m0, c * m.m9 + s * m.m1, c * m.m10 + s * m.m2, c * m.m11 + s * m.m3,
            m.m12, m.m13, m.m14, m.m15)
  }

  /** `yRotate` as written: columns 1 and 3 stay zero, for the same reason
      as in `XRotateAsWritten`. */
  function YRotateAsWritten(m: Matrix4, c: real, s: real): Matrix4
  {
    Matrix4(c * m.m0 - s * m.m8, c * m.m1 - s * m.m9, c * m.m2 - s * m.m10, c * m.m3 - s * m.m11,
            0.0, 0.0, 0.0, 0.0,
            c * m.m8 + s * m.m0, c * m.m9 + s * m.m1, c * m.m10 + s * m.m2, c * m.m11 + s * m.m3,
            0.0, 0.0, 0.0, 0.0)
  }

  /** `zRotate`: columns 0 and 1 of `m` rotated into each other; the copy
      loop copies entries 8..15, columns 2 and 3. */
  function ZRotate(m: Matrix4, c: real, s: real): Matrix4
  {
    Matrix4(c * m.m0 + s * m.m4, c * m.m1 + s * m.m5, c * m.m2 + s * m.m6, c * m.m3 + s * m.m7,
            c * m.m4 - s * m.m0, c * m.m5 - s * m.m1, c * m.m6 - s * m.m2, c * m.m7 - s * m.m3,
            m.m8, m.m9, m.m10, m.m11, m.m12, m.m13, m.m14, m.m15)
  }

  /** With `m` the identity and a zero angle, the library's `xRotate`
      returns a matrix whose entries 0 and 15 are zero, where the intended
      result is the identity. */
  lemma XRotateAsWrittenDiffers()
    ensures XRotate(Identity, 1.0, 0.0) == Identity
    ensures XRotateAsWritten(Identity, 1.0, 0.0).m0 == 0.0
    ensures XRotateAsWritten(Identity, 1.0, 0.0) != XRotate(Identity, 1.0, 0.0)
  {
  }

  /** The same for `yRotate`: entries 5 and 15 are zero. */
  lemma YRotateAsWrittenDiffers()
    ensures YRotate(Identity, 1.0, 0.0) == Identity
    ensures YRotateAsWritten(Identity, 1.0, 0.0).m5 == 0.0
    ensures YRotateAsWritten(Identity, 1.0, 0.0) != YRotate(Identity, 1.0, 0.0)
  {
  }

  /** The library's `xRotate` is post-multiplication by `xRotation` only
      when columns 0 and 3 of `m` are zero. */
  lemma XRotateAsWrittenIsMultiply(m: Matrix4, c: real, s: real)
    ensures XRotateAsWritten(m, c, s) == Multiply(m, XRotation(c, s))
      <==> Column(m, 0) == Vec4(0.0, 0.0, 0.0, 0.0) && Column(m, 3) == Vec4(0.0, 0.0, 0.0, 0.0)
  {
    XRotateIsMultiply(m, c, s);
    XRotateAsWrittenAgrees(m, c, s);
  }

  /** The library's `yRotate` is post-multiplication by `yRotation` only
      when columns 1 and 3 of `m` are zero. */
  lemma YRotateAsWrittenIsMultiply(m: Matrix4, c: real, s: real)
    ensures YRotateAsWritten(m, c, s) == Multiply(m, YRotation(c, s))
      <==> Column(m, 1) == Vec4(0.0, 0.0, 0.0, 0.0) && Column(m, 3) == Vec4(0.0, 0.0, 0.0, 0.0)
  {
    YRotateIsMultiply(m, c, s);
    YRotateAsWrittenAgrees(m, c, s);
  }

  /** The library's `xRotate` agrees with the intended one exactly when
      columns 0 and 3 of `m` are zero. */
  lemma XRotateAsWrittenAgrees(m: Matrix4, c: real, s: real)
    ensures XRotateAsWritten(m, c, s) == XRotate(m, c, s)
      <==> Column(m, 0) == Vec4(0.0, 0.0, 0.0, 0.0) && Column(m, 3) == Vec4(0.0, 0.0, 0.0, 0.0)
  {
    ColumnFields(m);
  }

  /** The library's `yRotate` agrees with the intended one exactly when
      columns 1 and 3 of `m` are zero. */
  lemma YRotateAsWrittenAgrees(m: Matrix4, c: real, s: real)
    ensures YRotateAsWritten(m, c, s) == YRotate(m, c, s)
      <==> Column(m, 1) == Vec4(0.0, 0.0, 0.0, 0.0) && Column(m, 3) == Vec4(0.0, 0.0, 0.0, 0.0)
  {
    ColumnFields(m);
  }

  /** An array slot as JavaScript sees it: `undefined` or a number. Every
      slot of a `Float32Array` holds a number. */
  datatype Slot = Undefined | Number(value: real)

  /** The fill loop of `xRotate` and `yRotate`: every slot of `dst` that is
      `undefined` takes the entry of `src` at the same index; the others
      are kept. */
  method FillUndefined(dst: seq<Slot>, src: seq<real>) returns (r: seq<Slot>)
    requires |dst| == |src|
    ensures |r| == |dst|
    ensures forall i | 0 <= i < |r| :: r[i] == (if dst[i].Undefined? then Number(src[i]) else dst[i])
  {
    r := dst;
    for i := 0 to |dst|
      invariant |r| == |dst|
      invariant forall k | 0 <= k < i :: r[k] == (if dst[k].Undefined? then Number(src[k]) else dst[k])
      invariant forall k | i <= k < |r| :: r[k] == dst[k]
    {
      if r[i].Undefined? {
        r := r[i := Number(src[i])];
      }
    }
  }

  /** On a `Float32Array` the fill loop changes nothing; on an array whose
      untouched slots are `undefined` it copies them from `src`, which is
      what the rotation functions intend. */
  method FillUndefinedCases(dst: seq<Slot>, src: seq<real>) returns (r: seq<Slot>)
    requires |dst| == |src|
    ensures |r| == |dst|
    ensures (forall i | 0 <= i < |dst| :: dst[i].Number?) ==> r == dst
    ensures forall i | 0 <= i < |dst| && dst[i].Undefined? :: r[i] == Number(src[i])
  {
    r := FillUndefined(dst, src);
  }

  /** The slot `dst` starts with at each index: `0` in a fresh
      `Float32Array`, `undefined` in an empty plain array. */
  function Blank(zeroFilled: bool): Slot
  {
    if zeroFilled then Number(0.0) else Undefined
  }

  /** The numbers a filled destination holds, read back as a matrix. */
  function SlotsMatrix(r: seq<Slot>): Matrix4
    requires |r| == 16
    requires forall i | 0 <= i < 16 :: r[i].Number?
  {
    Matrix4(r[0].value, r[1].value, r[2].value, r[3].value, r[4].value, r[5].value, r[6].value, r[7].value,
            r[8].value, r[9].value, r[10].value, r[11].value, r[12].value, r[13].value, r[14].value, r[15].value)
  }

  /** `xRotate` step by step: entries 4..11 of `dst` written, then the fill
      loop run with `m`. From a zero-filled `dst` this is the library's
      result, from an all-`undefined` one the intended result. */
  method XRotateFilled(m: Matrix4, c: real, s: real, zeroFilled: bool) returns (r: Matrix4)
    ensures zeroFilled ==> r == XRotateAsWritten(m, c, s)
    ensures !zeroFilled ==> r == XRotate(m, c, s)
  {
    var b := Blank(zeroFilled);
    var dst := [b, b, b, b,
                Number(c * m.m4 + s * m.m8), Number(c * m.m5 + s * m.m9), Number(c * m.m6 + s * m.m10), Number(c * m.m7 + s * m.m11),
                Number(c * m.m8 - s * m.m4), Number(c * m.m9 - s * m.m5), Number(c * m.m10 - s * m.m6), Number(c * m.m11 - s * m.m7),
                b, b, b, b];
    var filled := FillUndefined(dst, ToSeq(m));
    r := SlotsMatrix(filled);
  }

  /** `yRotate` step by step: entries 0..3 and 8..11 written, then the fill
      loop run with `m`. */
  method YRotateFilled(m: Matrix4, c: real, s: real, zeroFilled: bool) returns (r: Matrix4)
    ensures zeroFilled ==> r == YRotateAsWritten(m, c, s)
    ensures !zeroFilled ==> r == YRotate(m, c, s)
  {
    var b := Blank(zeroFilled);
    var dst := [Number(c * m.m0 - s * m.m8), Number(c * m.m1 - s * m.m9), Number(c * m.m2 - s * m.m10), Number(c * m.m3 - s * m.m11),
                b, b, b, b,
                Number(c * m.m8 + s * m.m0), Number(c * m.m9 + s * m.m1), Number(c * m.m10 + s * m.m2), Number(c * m.m11 + s * m.m3),
                b, b, b, b];
    var filled := FillUndefined(dst, ToSeq(m));
    r := SlotsMatrix(filled);
  }

  /** `axisRotation` once the axis is normalized to `(x, y, z)`: Rodrigues'
      rotation matrix, written with `oneMinusCosine = 1 - c`. */
  function UnitAxisRotation(x: real, y: real, z: real, c: real, s: real): Matrix4
  {
    var xx, yy, zz := x * x, y * y, z * z;
    var oneMinusCosine := 1.0 - c;
    Matrix4(xx + (1.0 - xx) * c, x * y * oneMinusCosine + z * s, x * z * oneMinusCosine - y * s, 0.0,
            x * y * oneMinusCosine - z * s, yy + (1.0 - yy) * c, y * z * oneMinusCosine + x * s, 0.0,
            x * z * oneMinusCosine + y * s, y * z * oneMinusCosine - x * s, zz + (1.0 - zz) * c, 0.0,
            0.0, 0.0, 0.0, 1.0)
  }

  /** `axisRotation(axis, angle)`: divides the axis by its length `n`. The
      library does not check `n`; a zero axis gives NaN entries, which
      `real` cannot express, so it is excluded. */
  function AxisRotation(axis: V.Vec3, c: real, s: real, sqrt: real -> real): Matrix4
    requires V.Length(axis, sqrt) != 0.0
  {
    var n := V.Length(axis, sqrt);
    UnitAxisRotation(axis.x / n, axis.y / n, axis.z / n, c, s)
  }

  /** `axisRotate(m, axis, angle)`: `multiply(m, axisRotation(axis, angle))`. */
  function AxisRotate(m: Matrix4, axis: V.Vec3, c: real, s: real, sqrt: real -> real): Matrix4
    requires V.Length(axis, sqrt) != 0.0
  {
    Multiply(m, AxisRotation(axis, c, s, sqrt))
  }

  /** A zero angle gives the identity, whatever the axis. */
  lemma AxisRotationZeroAngle(axis: V.Vec3, sqrt: real -> real)
    requires V.Length(axis, sqrt) != 0.0
    ensures AxisRotation(axis, 1.0, 0.0, sqrt) == Identity
  {
    var n := V.Length(axis, sqrt);
    UnitAxisRotationZeroAngle(axis.x / n, axis.y / n, axis.z / n);
  }

  lemma UnitAxisRotationZeroAngle(x: real, y: real, z: real)
    ensures UnitAxisRotation(x, y, z, 1.0, 0.0) == Identity
  {
  }

  /** The unit x axis has length 1 under a true square root. */
  lemma UnitLength(sqrt: real -> real, v: V.Vec3)
    requires v == V.Vec3(1.0, 0.0, 0.0) || v == V.Vec3(0.0, 1.0, 0.0) || v == V.Vec3(0.0, 0.0, 1.0)
    requires IsSqrtAt(sqrt, 1.0)
    ensures V.Length(v, sqrt) == 1.0
  {
    assert V.LengthSq(v) == 1.0 * 1.0;
    SqrtOfSquare(sqrt, 1.0);
  }

  /** About the x axis, `axisRotation` is `xRotation`. */
  lemma AxisRotationX(c: real, s: real, sqrt: real -> real)
    requires IsSqrtAt(sqrt, 1.0)
    ensures V.Length(V.Vec3(1.0, 0.0, 0.0), sqrt) == 1.0
    ensures AxisRotation(V.Vec3(1.0, 0.0, 0.0), c, s, sqrt) == XRotation(c, s)
  {
    UnitLength(sqrt, V.Vec3(1.0, 0.0, 0.0));
    UnitAxisRotationX(c, s);
  }

  /** About the y axis, `axisRotation` is `yRotation`. */
  lemma AxisRotationY(c: real, s: real, sqrt: real -> real)
    requires IsSqrtAt(sqrt, 1.0)
    ensures V.Length(V.Vec3(0.0, 1.0, 0.0), sqrt) == 1.0
    ensures AxisRotation(V.Vec3(0.0, 1.0, 0.0), c, s, sqrt) == YRotation(c, s)
  {
    UnitLength(sqrt, V.Vec3(0.0, 1.0, 0.0));
    UnitAxisRotationY(c, s);
  }

  /** About the z axis, `axisRotation` is `zRotation`. */
  lemma AxisRotationZ(c: real, s: real, sqrt: real -> real)
    requires IsSqrtAt(sqrt, 1.0)
    ensures V.Length(V.Vec3(0.0, 0.0, 1.0), sqrt) == 1.0
    ensures AxisRotation(V.Vec3(0.0, 0.0, 1.0), c, s, sqrt) == ZRotation(c, s)
  {
    UnitLength(sqrt, V.Vec3(0.0, 0.0, 1.0));
    UnitAxisRotationZ(c, s);
  }

  lemma UnitAxisRotationX(c: real, s: real)
    ensures UnitAxisRotation(1.0, 0.0, 0.0, c, s) == XRotation(c, s)
  {
  }

  lemma UnitAxisRotationY(c: real, s: real)
    ensures UnitAxisRotation(0.0, 1.0, 0.0, c, s) == YRotation(c, s)
  {
  }

  lemma UnitAxisRotationZ(c: real, s: real)
    ensures UnitAxisRotation(0.0, 0.0, 1.0, c, s) == ZRotation(c, s)
  {
  }

  /** `axisRotate` about the x axis is the intended `xRotate`: the fast form
      should keep columns 0 and 3 of `m`. */
  lemma AxisRotateX(m: Matrix4, c: real, s: real, sqrt: real -> real)
    requires IsSqrtAt(sqrt, 1.0)
    ensures V.Length(V.Vec3(1.0, 0.0, 0.0), sqrt) == 1.0
    ensures AxisRotate(m, V.Vec3(1.0, 0.0, 0.0), c, s, sqrt) == XRotate(m, c, s)
  {
    AxisRotationX(c, s, sqrt);
    XRotateIsMultiply(m, c, s);
  }

  /** `axisRotate` about the y axis is the intended `yRotate`. */
  lemma AxisRotateY(m: Matrix4, c: real, s: real, sqrt: real -> real)
    requires IsSqrtAt(sqrt, 1.0)
    ensures V.Length(V.Vec3(0.0, 1.0, 0.0), sqrt) == 1.0
    ensures AxisRotate(m, V.Vec3(0.0, 1.0, 0.0), c, s, sqrt) == YRotate(m, c, s)
  {
    AxisRotationY(c, s, sqrt);
    YRotateIsMultiply(m, c, s);
  }

  /** `axisRotate` about the z axis is `zRotate`. */
  lemma AxisRotateZ(m: Matrix4, c: real, s: real, sqrt: real -> real)
    requires IsSqrtAt(sqrt, 1.0)
    ensures V.Length(V.Vec3(0.0, 0.0, 1.0), sqrt) == 1.0
    ensures AxisRotate(m, V.Vec3(0.0, 0.0, 1.0), c, s, sqrt) == ZRotate(m, c, s)
  {
    AxisRotationZ(c, s, sqrt);
    ZRotateIsMultiply(m, c, s);
  }

  /** A rotation about an axis leaves the axis where it is. */
  lemma AxisRotationFixesAxis(axis: V.Vec3, c: real, s: real, sqrt: real -> real)
    requires IsSqrtAt(sqrt, V.LengthSq(axis)) && axis != V.Zero
    ensures V.Length(axis, sqrt) != 0.0
    ensures TransformDirection(AxisRotation(axis, c, s, sqrt), axis) == axis
  {
    var n := V.Length(axis, sqrt);
    var k := 1.0 / n;
    V.DivideIsScale(axis, n);
    V.UnitAfterScaling(axis, n, k);
    var u := V.ScaleVector(axis, k);
    var r := UnitAxisRotation(u.x, u.y, u.z, c, s);
    UnitAxisFixesAxis(u.x, u.y, u.z, c, s);
    ScaleBack(axis, n, k);
    TransformDirectionScales(r, u, n);
  }

  /** Dividing by `n` and multiplying back gives the vector again. */
  lemma ScaleBack(v: V.Vec3, n: real, k: real)
    requires n != 0.0 && k == 1.0 / n
    ensures V.ScaleVector(V.ScaleVector(v, k), n) == v
  {
    assert k * n == 1.0;
    assert (v.x * k) * n == v.x * (k * n);
    assert (v.y * k) * n == v.y * (k * n);
    assert (v.z * k) * n == v.z * (k * n);
  }

  /** `transformDirection` is linear in the direction. */
  lemma TransformDirectionScales(m: Matrix4, v: V.Vec3, k: real)
    ensures TransformDirection(m, V.ScaleVector(v, k)) == V.ScaleVector(TransformDirection(m, v), k)
  {
    var w := V.ScaleVector(v, k);
    var a, b := TransformDirection(m, w), TransformDirection(m, v);
    DirectionScalesX(m, v, k, w, a, b);
    DirectionScalesY(m, v, k, w, a, b);
    DirectionScalesZ(m, v, k, w, a, b);
    ScaledVector(a, b, k);
  }

  lemma DirectionScalesX(m: Matrix4, v: V.Vec3, k: real, w: V.Vec3, a: V.Vec3, b: V.Vec3)
    requires w == V.ScaleVector(v, k) && a == TransformDirection(m, w) && b == TransformDirection(m, v)
    ensures a.x == b.x * k
  {
    DirectionEntries(m, w, a);
    DirectionEntries(m, v, b);
    ScaledSum(v.x, v.y, v.z, k, w.x, w.y, w.z, m.m0, m.m4, m.m8, a.x, b.x);
  }

  lemma DirectionScalesY(m: Matrix4, v: V.Vec3, k: real, w: V.Vec3, a: V.Vec3, b: V.Vec3)
    requires w == V.ScaleVector(v, k) && a == TransformDirection(m, w) && b == TransformDirection(m, v)
    ensures a.y == b.y * k
  {
    DirectionEntries(m, w, a);
    DirectionEntries(m, v, b);
    ScaledSum(v.x, v.y, v.z, k, w.x, w.y, w.z, m.m1, m.m5, m.m9, a.y, b.y);
  }

  lemma DirectionScalesZ(m: Matrix4, v: V.Vec3, k: real, w: V.Vec3, a: V.Vec3, b: V.Vec3)
    requires w == V.ScaleVector(v, k) && a == TransformDirection(m, w) && b == TransformDirection(m, v)
    ensures a.z == b.z * k
  {
    DirectionEntries(m, w, a);
    DirectionEntries(m, v, b);
    ScaledSum(v.x, v.y, v.z, k, w.x, w.y, w.z, m.m2, m.m6, m.m10, a.z, b.z);
  }

  /** A vector whose components are those of `b` times `k` is `b` scaled by `k`. */
  lemma ScaledVector(a: V.Vec3, b: V.Vec3, k: real)
    requires a.x == b.x * k && a.y == b.y * k && a.z == b.z * k
    ensures a == V.ScaleVector(b, k)
  {
  }

  /** The components of `transformDirection(m, v)`. */
  lemma DirectionEntries(m: Matrix4, v: V.Vec3, d: V.Vec3)
    requires d == TransformDirection(m, v)
    ensures d.x == v.x * m.m0 + v.y * m.m4 + v.z * m.m8
    ensures d.y == v.x * m.m1 + v.y * m.m5 + v.z * m.m9
    ensures d.z == v.x * m.m2 + v.y * m.m6 + v.z * m.m10
  {
  }

  lemma ScaledSum(x: real, y: real, z: real, k: real, wx: real, wy: real, wz: real, a: real, b: real, d: real, sw: real, s: real)
    requires wx == x * k && wy == y * k && wz == z * k
    requires sw == wx * a + wy * b + wz * d && s == x * a + y * b + z * d
    ensures sw == s * k
  {
  }

  /** Rodrigues' matrix for a unit axis fixes that axis. */
  lemma UnitAxisFixesAxis(x: real, y: real, z: real, c: real, s: real)
    requires V.LengthSq(V.Vec3(x, y, z)) == 1.0
    ensures TransformDirection(UnitAxisRotation(x, y, z, c, s), V.Vec3(x, y, z)) == V.Vec3(x, y, z)
  {
    var r := UnitAxisRotation(x, y, z, c, s);
    var q := x * x + y * y + z * z;
    FixedComponentX(r, x, y, z, c, s, q);
    FixedComponentY(r, x, y, z, c, s, q);
    FixedComponentZ(r, x, y, z, c, s, q);
  }

  lemma FixedComponentX(m: Matrix4, x: real, y: real, z: real, c: real, s: real, q: real)
    requires q == x * x + y * y + z * z && q == 1.0
    requires m.m0 == x * x + (1.0 - x * x) * c
    requires m.m4 == x * y * (1.0 - c) - z * s
    requires m.m8 == x * z * (1.0 - c) + y * s
    ensures TransformDirection(m, V.Vec3(x, y, z)).x == x
  {
    FixedRowX(x, y, z, c, s, q, m.m0, m.m4, m.m8);
  }

  lemma FixedComponentY(m: Matrix4, x: real, y: real, z: real, c: real, s: real, q: real)
    requires q == x * x + y * y + z * z && q == 1.0
    requires m.m1 == x * y * (1.0 - c) + z * s
    requires m.m5 == y * y + (1.0 - y * y) * c
    requires m.m9 == y * z * (1.0 - c) - x * s
    ensures TransformDirection(m, V.Vec3(x, y, z)).y == y
  {
    FixedRowY(x, y, z, c, s, q, m.m1, m.m5, m.m9);
  }

  lemma FixedComponentZ(m: Matrix4, x: real, y: real, z: real, c: real, s: real, q: real)
    requires q == x * x + y * y + z * z && q == 1.0
    requires m.m2 == x * z * (1.0 - c) - y * s
    requires m.m6 == y * z * (1.0 - c) + x * s
    requires m.m10 == z * z + (1.0 - z * z) * c
    ensures TransformDirection(m, V.Vec3(x, y, z)).z == z
  {
    FixedRowZ(x, y, z, c, s, q, m.m2, m.m6, m.m10);
  }

  lemma FixedRowX(x: real, y: real, z: real, c: real, s: real, q: real, a: real, b: real, d: real)
    requires q == x * x + y * y + z * z && q == 1.0
    requires a == x * x + (1.0 - x * x) * c
    requires b == x * y * (1.0 - c) - z * s
    requires d == x * z * (1.0 - c) + y * s
    ensures x * a + y * b + z * d == x
  {
    assert x * a + y * b + z * d == x * c + x * (1.0 - c) * q;
  }

  lemma FixedRowY(x: real, y: real, z: real, c: real, s: real, q: real, a: real, b: real, d: real)
    requires q == x * x + y * y + z * z && q == 1.0
    requires a == x * y * (1.0 - c) + z * s
    requires b == y * y + (1.0 - y * y) * c
    requires d == y * z * (1.0 - c) - x * s
    ensures x * a + y * b + z * d == y
  {
    assert x * a + y * b + z * d == y * c + y * (1.0 - c) * q;
  }

  lemma FixedRowZ(x: real, y: real, z: real, c: real, s: real, q: real, a: real, b: real, d: real)
    requires q == x * x + y * y + z * z && q == 1.0
    requires a == x * z * (1.0 - c) - y * s
    requires b == y * z * (1.0 - c) + x * s
    requires d == z * z + (1.0 - z * z) * c
    ensures x * a + y * b + z * d == z
  {
    assert x * a + y * b + z * d == z * c + z * (1.0 - c) * q;
  }

  /** With `c` and `s` the cosine and sine of one angle, the rotation
      builders keep the length of every direction. */
  lemma XRotationKeepsLength(c: real, s: real, v: V.Vec3)
    requires c * c + s * s == 1.0
    ensures V.LengthSq(TransformDirection(XRotation(c, s), v)) == V.LengthSq(v)
  {
    var w := TransformDirection(XRotation(c, s), v);
    XRotationApplied(c, s, v);
    RotatedPairLength(v.y, v.z, c, s, w.y, w.z);
    KeptLength(v.x, v.y, v.z, w.x, w.y, w.z);
  }

  lemma YRotationKeepsLength(c: real, s: real, v: V.Vec3)
    requires c * c + s * s == 1.0
    ensures V.LengthSq(TransformDirection(YRotation(c, s), v)) == V.LengthSq(v)
  {
    var w := TransformDirection(YRotation(c, s), v);
    YRotationApplied(c, s, v);
    RotatedPairLength(v.z, v.x, c, s, w.z, w.x);
    KeptLength(v.y, v.z, v.x, w.y, w.z, w.x);
  }

  lemma ZRotationKeepsLength(c: real, s: real, v: V.Vec3)
    requires c * c + s * s == 1.0
    ensures V.LengthSq(TransformDirection(ZRotation(c, s), v)) == V.LengthSq(v)
  {
    var w := TransformDirection(ZRotation(c, s), v);
    ZRotationApplied(c, s, v);
    RotatedPairLength(v.x, v.y, c, s, w.x, w.y);
    KeptLength(v.z, v.x, v.y, w.z, w.x, w.y);
  }

  lemma XRotationApplied(c: real, s: real, v: V.Vec3)
    ensures TransformDirection(XRotation(c, s), v) == V.Vec3(v.x, v.y * c - v.z * s, v.y * s + v.z * c)
  {
  }

  lemma YRotationApplied(c: real, s: real, v: V.Vec3)
    ensures TransformDirection(YRotation(c, s), v) == V.Vec3(v.z * s + v.x * c, v.y, v.z * c - v.x * s)
  {
  }

  lemma ZRotationApplied(c: real, s: real, v: V.Vec3)
    ensures TransformDirection(ZRotation(c, s), v) == V.Vec3(v.x * c - v.y * s, v.x * s + v.y * c, v.z)
  {
  }

  /** A plane rotation of `(a, b)` keeps `a * a + b * b`. */
  lemma RotatedPairLength(a: real, b: real, c: real, s: real, p: real, q: real)
    requires c * c + s * s == 1.0
    requires p == a * c - b * s && q == a * s + b * c
    ensures p * p + q * q == a * a + b * b
  {
    assert p * p + q * q == (a * a + b * b) * (c * c + s * s);
  }

  /** One component kept and the other two of equal square sum: equal length. */
  lemma KeptLength(a: real, b: real, d: real, a': real, b': real, d': real)
    requires a' == a && b' * b' + d' * d' == b * b + d * d
    ensures V.LengthSq(V.Vec3(a', b', d')) == V.LengthSq(V.Vec3(a, b, d))
  {
  }

  /** Matrices with equal columns are equal. */
  lemma ColumnsDetermineMatrix(a: Matrix4, b: Matrix4)
    requires Column(a, 0) == Column(b, 0) && Column(a, 1) == Column(b, 1)
    requires Column(a, 2) == Column(b, 2) && Column(a, 3) == Column(b, 3)
    ensures a == b
  {
  }

  /** The columns of a matrix, field by field. */
  lemma ColumnFields(m: Matrix4)
    ensures Column(m, 0) == Vec4(m.m0, m.m1, m.m2, m.m3) && Column(m, 1) == Vec4(m.m4, m.m5, m.m6, m.m7)
    ensures Column(m, 2) == Vec4(m.m8, m.m9, m.m10, m.m11) && Column(m, 3) == Vec4(m.m12, m.m13, m.m14, m.m15)
  {
  }

  /** Column `k` of `f` is column `k` of `multiply(m, r)` when it is `m`
      applied to column `k` of `r`. */
  lemma PostMultiplyColumn(m: Matrix4, r: Matrix4, f: Matrix4, k: int, v: Vec4, w: Vec4)
    requires 0 <= k < 4
    requires Column(r, k) == v && TransformVector(m, v) == w && Column(f, k) == w
    ensures Column(f, k) == Column(Multiply(m, r), k)
  {
    MultiplyColumn(m, r, k);
  }

  /* A unit vector picks out a column. */

  lemma ApplyUnit0(m: Matrix4)
    ensures TransformVector(m, Vec4(1.0, 0.0, 0.0, 0.0)) == Vec4(m.m0, m.m1, m.m2, m.m3)
  {
  }

  lemma ApplyUnit1(m: Matrix4)
    ensures TransformVector(m, Vec4(0.0, 1.0, 0.0, 0.0)) == Vec4(m.m4, m.m5, m.m6, m.m7)
  {
  }

  lemma ApplyUnit2(m: Matrix4)
    ensures TransformVector(m, Vec4(0.0, 0.0, 1.0, 0.0)) == Vec4(m.m8, m.m9, m.m10, m.m11)
  {
  }

  lemma ApplyUnit3(m: Matrix4)
    ensures TransformVector(m, Vec4(0.0, 0.0, 0.0, 1.0)) == Vec4(m.m12, m.m13, m.m14, m.m15)
  {
  }

  /** The intended `xRotate` is post-multiplication by `xRotation`. */
  lemma XRotateIsMultiply(m: Matrix4, c: real, s: real)
    ensures XRotate(m, c, s) == Multiply(m, XRotation(c, s))
  {
    var r, f := XRotation(c, s), XRotate(m, c, s);
    XRotationColumn0(c, s);
    XRotationColumn1(c, s);
    XRotationColumn2(c, s);
    XRotationColumn3(c, s);
    XRotateColumn0(m, c, s);
    XRotateColumn1(m, c, s);
    XRotateColumn2(m, c, s);
    XRotateColumn3(m, c, s);
    ApplyUnit0(m);
    XRotateApplied1(m, c, s);
    XRotateApplied2(m, c, s);
    ApplyUnit3(m);
    PostMultiplyColumn(m, r, f, 0, Vec4(1.0, 0.0, 0.0, 0.0), Vec4(m.m0, m.m1, m.m2, m.m3));
    PostMultiplyColumn(m, r, f, 1, Vec4(0.0, c, s, 0.0), Vec4(c * m.m4 + s * m.m8, c * m.m5 + s * m.m9, c * m.m6 + s * m.m10, c * m.m7 + s * m.m11));
    PostMultiplyColumn(m, r, f, 2, Vec4(0.0, -s, c, 0.0), Vec4(c * m.m8 - s * m.m4, c * m.m9 - s * m.m5, c * m.m10 - s * m.m6, c * m.m11 - s * m.m7));
    PostMultiplyColumn(m, r, f, 3, Vec4(0.0, 0.0, 0.0, 1.0), Vec4(m.m12, m.m13, m.m14, m.m15));
    ColumnsDetermineMatrix(f, Multiply(m, r));
  }

  lemma XRotationColumn0(c: real, s: real)
    ensures Column(XRotation(c, s), 0) == Vec4(1.0, 0.0, 0.0, 0.0)
  {
    ColumnFields(XRotation(c, s));
  }

  lemma XRotationColumn1(c: real, s: real)
    ensures Column(XRotation(c, s), 1) == Vec4(0.0, c, s, 0.0)
  {
    ColumnFields(XRotation(c, s));
  }

  lemma XRotationColumn2(c: real, s: real)
    ensures Column(XRotation(c, s), 2) == Vec4(0.0, -s, c, 0.0)
  {
    ColumnFields(XRotation(c, s));
  }

  lemma XRotationColumn3(c: real, s: real)
    ensures Column(XRotation(c, s), 3) == Vec4(0.0, 0.0, 0.0, 1.0)
  {
    ColumnFields(XRotation(c, s));
  }

  lemma XRotateColumn0(m: Matrix4, c: real, s: real)
    ensures Column(XRotate(m, c, s), 0) == Vec4(m.m0, m.m1, m.m2, m.m3)
  {
  }

  lemma XRotateColumn1(m: Matrix4, c: real, s: real)
    ensures Column(XRotate(m, c, s), 1) == Vec4(c * m.m4 + s * m.m8, c * m.m5 + s * m.m9, c * m.m6 + s * m.m10, c * m.m7 + s * m.m11)
  {
  }

  lemma XRotateColumn2(m: Matrix4, c: real, s: real)
    ensures Column(XRotate(m, c, s), 2) == Vec4(c * m.m8 - s * m.m4, c * m.m9 - s * m.m5, c * m.m10 - s * m.m6, c * m.m11 - s * m.m7)
  {
  }

  lemma XRotateColumn3(m: Matrix4, c: real, s: real)
    ensures Column(XRotate(m, c, s), 3) == Vec4(m.m12, m.m13, m.m14, m.m15)
  {
  }

  lemma XRotateApplied1(m: Matrix4, c: real, s: real)
    ensures TransformVector(m, Vec4(0.0, c, s, 0.0)) == Vec4(c * m.m4 + s * m.m8, c * m.m5 + s * m.m9, c * m.m6 + s * m.m10, c * m.m7 + s * m.m11)
  {
  }

  lemma XRotateApplied2(m: Matrix4, c: real, s: real)
    ensures TransformVector(m, Vec4(0.0, -s, c, 0.0)) == Vec4(c * m.m8 - s * m.m4, c * m.m9 - s * m.m5, c * m.m10 - s * m.m6, c * m.m11 - s * m.m7)
  {
  }

  /** The intended `yRotate` is post-multiplication by `yRotation`. */
  lemma YRotateIsMultiply(m: Matrix4, c: real, s: real)
    ensures YRotate(m, c, s) == Multiply(m, YRotation(c, s))
  {
    var r, f := YRotation(c, s), YRotate(m, c, s);
    YRotationColumn0(c, s);
    YRotationColumn1(c, s);
    YRotationColumn2(c, s);
    YRotationColumn3(c, s);
    YRotateColumn0(m, c, s);
    YRotateColumn1(m, c, s);
    YRotateColumn2(m, c, s);
    YRotateColumn3(m, c, s);
    YRotateApplied0(m, c, s);
    ApplyUnit1(m);
    YRotateApplied2(m, c, s);
    ApplyUnit3(m);
    PostMultiplyColumn(m, r, f, 0, Vec4(c, 0.0, -s, 0.0), Vec4(c * m.m0 - s * m.m8, c * m.m1 - s * m.m9, c * m.m2 - s * m.m10, c * m.m3 - s * m.m11));
    PostMultiplyColumn(m, r, f, 1, Vec4(0.0, 1.0, 0.0, 0.0), Vec4(m.m4, m.m5, m.m6, m.m7));
    PostMultiplyColumn(m, r, f, 2, Vec4(s, 0.0, c, 0.0), Vec4(c * m.m8 + s * m.m0, c * m.m9 + s * m.m1, c * m.m10 + s * m.m2, c * m.m11 + s * m.m3));
    PostMultiplyColumn(m, r, f, 3, Vec4(0.0, 0.0, 0.0, 1.0), Vec4(m.m12, m.m13, m.m14, m.m15));
    ColumnsDetermineMatrix(f, Multiply(m, r));
  }

  lemma YRotationColumn0(c: real, s: real)
    ensures Column(YRotation(c, s), 0) == Vec4(c, 0.0, -s, 0.0)
  {
    ColumnFields(YRotation(c, s));
  }

  lemma YRotationColumn1(c: real, s: real)
    ensures Column(YRotation(c, s), 1) == Vec4(0.0, 1.0, 0.0, 0.0)
  {
    ColumnFields(YRotation(c, s));
  }

  lemma YRotationColumn2(c: real, s: real)
    ensures Column(YRotation(c, s), 2) == Vec4(s, 0.0, c, 0.0)
  {
    ColumnFields(YRotation(c, s));
  }

  lemma YRotationColumn3(c: real, s: real)
    ensures Column(YRotation(c, s), 3) == Vec4(0.0, 0.0, 0.0, 1.0)
  {
    ColumnFields(YRotation(c, s));
  }

  lemma YRotateColumn0(m: Matrix4, c: real, s: real)
    ensures Column(YRotate(m, c, s), 0) == Vec4(c * m.m0 - s * m.m8, c * m.m1 - s * m.m9, c * m.m2 - s * m.m10, c * m.m3 - s * m.m11)
  {
  }

  lemma YRotateColumn1(m: Matrix4, c: real, s: real)
    ensures Column(YRotate(m, c, s), 1) == Vec4(m.m4, m.m5, m.m6, m.m7)
  {
  }

  lemma YRotateColumn2(m: Matrix4, c: real, s: real)
    ensures Column(YRotate(m, c, s), 2) == Vec4(c * m.m8 + s * m.m0, c * m.m9 + s * m.m1, c * m.m10 + s * m.m2, c * m.m11 + s * m.m3)
  {
  }

  lemma YRotateColumn3(m: Matrix4, c: real, s: real)
    ensures Column(YRotate(m, c, s), 3) == Vec4(m.m12, m.m13, m.m14, m.m15)
  {
  }

  lemma YRotateApplied0(m: Matrix4, c: real, s: real)
    ensures TransformVector(m, Vec4(c, 0.0, -s, 0.0)) == Vec4(c * m.m0 - s * m.m8, c * m.m1 - s * m.m9, c * m.m2 - s * m.m10, c * m.m3 - s * m.m11)
  {
  }

  lemma YRotateApplied2(m: Matrix4, c: real, s: real)
    ensures TransformVector(m, Vec4(s, 0.0, c, 0.0)) == Vec4(c * m.m8 + s * m.m0, c * m.m9 + s * m.m1, c * m.m10 + s * m.m2, c * m.m11 + s * m.m3)
  {
  }

  /** The intended `zRotate` is post-multiplication by `zRotation`. */
  lemma ZRotateIsMultiply(m: Matrix4, c: real, s: real)
    ensures ZRotate(m, c, s) == Multiply(m, ZRotation(c, s))
  {
    var r, f := ZRotation(c, s), ZRotate(m, c, s);
    ZRotationColumn0(c, s);
    ZRotationColumn1(c, s);
    ZRotationColumn2(c, s);
    ZRotationColumn3(c, s);
    ZRotateColumn0(m, c, s);
    ZRotateColumn1(m, c, s);
    ZRotateColumn2(m, c, s);
    ZRotateColumn3(m, c, s);
    ZRotateApplied0(m, c, s);
    ZRotateApplied1(m, c, s);
    ApplyUnit2(m);
    ApplyUnit3(m);
    PostMultiplyColumn(m, r, f, 0, Vec4(c, s, 0.0, 0.0), Vec4(c * m.m0 + s * m.m4, c * m.m1 + s * m.m5, c * m.m2 + s * m.m6, c * m.m3 + s * m.m7));
    PostMultiplyColumn(m, r, f, 1, Vec4(-s, c, 0.0, 0.0), Vec4(c * m.m4 - s * m.m0, c * m.m5 - s * m.m1, c * m.m6 - s * m.m2, c * m.m7 - s * m.m3));
    PostMultiplyColumn(m, r, f, 2, Vec4(0.0, 0.0, 1.0, 0.0), Vec4(m.m8, m.m9, m.m10, m.m11));
    PostMultiplyColumn(m, r, f, 3, Vec4(0.0, 0.0, 0.0, 1.0), Vec4(m.m12, m.m13, m.m14, m.m15));
    ColumnsDetermineMatrix(f, Multiply(m, r));
  }

  lemma ZRotationColumn0(c: real, s: real)
    ensures Column(ZRotation(c, s), 0) == Vec4(c, s, 0.0, 0.0)
  {
    ColumnFields(ZRotation(c, s));
  }

  lemma ZRotationColumn1(c: real, s: real)
    ensures Column(ZRotation(c, s), 1) == Vec4(-s, c, 0.0, 0.0)
  {
    ColumnFields(ZRotation(c, s));
  }

  lemma ZRotationColumn2(c: real, s: real)
    ensures Column(ZRotation(c, s), 2) == Vec4(0.0, 0.0, 1.0, 0.0)
  {
    ColumnFields(ZRotation(c, s));
  }

  lemma ZRotationColumn3(c: real, s: real)
    ensures Column(ZRotation(c, s), 3) == Vec4(0.0, 0.0, 0.0, 1.0)
  {
    ColumnFields(ZRotation(c, s));
  }

  lemma ZRotateColumn0(m: Matrix4, c: real, s: real)
    ensures Column(ZRotate(m, c, s), 0) == Vec4(c * m.m0 + s * m.m4, c * m.m1 + s * m.m5, c * m.m2 + s * m.m6, c * m.m3 + s * m.m7)
  {
  }

  lemma ZRotateColumn1(m: Matrix4, c: real, s: real)
    ensures Column(ZRotate(m, c, s), 1) == Vec4(c * m.m4 - s * m.m0, c * m.m5 - s * m.m1, c * m.m6 - s * m.m2, c * m.m7 - s * m.m3)
  {
  }

  lemma ZRotateColumn2(m: Matrix4, c: real, s: real)
    ensures Column(ZRotate(m, c, s), 2) == Vec4(m.m8, m.m9, m.m10, m.m11)
  {
  }

  lemma ZRotateColumn3(m: Matrix4, c: real, s: real)
    ensures Column(ZRotate(m, c, s), 3) == Vec4(m.m12, m.m13, m.m14, m.m15)
  {
  }

  lemma ZRotateApplied0(m: Matrix4, c: real, s: real)
    ensures TransformVector(m, Vec4(c, s, 0.0, 0.0)) == Vec4(c * m.m0 + s * m.m4, c * m.m1 + s * m.m5, c * m.m2 + s * m.m6, c * m.m3 + s * m.m7)
  {
  }

  lemma ZRotateApplied1(m: Matrix4, c: real, s: real)
    ensures TransformVector(m, Vec4(-s, c, 0.0, 0.0)) == Vec4(c * m.m4 - s * m.m0, c * m.m5 - s * m.m1, c * m.m6 - s * m.m2, c * m.m7 - s * m.m3)
  {
  }
}
