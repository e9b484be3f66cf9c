/** The `m3` helpers: 3x3 matrices for 2D work.

    A matrix is the datatype `Matrix3` whose field `m<n>` is array entry `n`;
    the layout is column-major, so the entry in row `r` and column `c` is
    `m<c * 3 + r>`. Every builder returns a fresh matrix (the optional `dst`
    buffer is not modelled). A 2D point `(x, y)` is the homogeneous column
    `(x, y, 1)`; `Apply`, the plain matrix-column product, is the reference
    meaning every builder is checked against. */
module M3 {
  import opened Reals
  import V = Vectors

  datatype Matrix3 = Matrix3(m0: real, m1: real, m2: real,
                             m3: real, m4: real, m5: real,
                             m6: real, m7: real, m8: real)

  datatype Vec2 = Vec2(x: real, y: real)

  /** The matrix applied to a homogeneous column. */
  function Apply(m: Matrix3, v: V.Vec3): (r: V.Vec3)
  {
    V.Vec3(v.x * m.m0 + v.y * m.m3 + v.z * m.m6,
           v.x * m.m1 + v.y * m.m4 + v.z * m.m7,
           v.x * m.m2 + v.y * m.m5 + v.z * m.m8)
  }

  /** The homogeneous column of a 2D point. */
  function Lift(p: Vec2): (r: V.Vec3)
  {
    V.Vec3(p.x, p.y, 1.0)
  }

  /** `degToRad`, with the value of pi as a parameter: 180 degrees are pi radians. */
  function DegToRad(d: real, pi: real): (r: real)
    ensures d == 180.0 ==> r == pi
  {
    d * pi / 180.0
  }

  /** `radToDeg`, with the value of pi as a parameter: pi radians are 180 degrees. */
  function RadToDeg(r: real, pi: real): (deg: real)
    requires pi != 0.0
    ensures r == pi ==> deg == 180.0
  {
    r * 180.0 / pi
  }

  /** Converting degrees to radians and back is the identity. */
  lemma RadToDegUndoesDegToRad(d: real, pi: real)
    requires pi != 0.0
    ensures RadToDeg(DegToRad(d, pi), pi) == d
  {
    var x := d * pi;
    assert DegToRad(d, pi) * 180.0 == x;
    assert x / pi == d;
  }

  /** Converting radians to degrees and back is the identity. */
  lemma DegToRadUndoesRadToDeg(r: real, pi: real)
    requires pi != 0.0
    ensures DegToRad(RadToDeg(r, pi), pi) == r
  {
    var x := r * 180.0;
    assert RadToDeg(r, pi) * pi == x;
    assert x / 180.0 == r;
  }

  /** `dot` is the 3D dot product of the points placed in the plane z = 0. */
  function Dot(x1: real, y1: real, x2: real, y2: real): (r: real)
    ensures r == V.Dot(V.Vec3(x1, y1, 0.0), V.Vec3(x2, y2, 0.0))
  {
    x1 * x2 + y1 * y2
  }

  /** `dot` is an inner product: symmetric, and positive definite on the
      dot of a vector with itself. */
  lemma DotIsInnerProduct(x1: real, y1: real, x2: real, y2: real)
    ensures Dot(x1, y1, x2, y2) == Dot(x2, y2, x1, y1)
    ensures Dot(x1, y1, x1, y1) >= 0.0
    ensures Dot(x1, y1, x1, y1) == 0.0 <==> x1 == 0.0 && y1 == 0.0
  {
    V.SquaresVanish(x1, y1, 0.0);
  }

  /** With a true square root, `distance` is the root of the dot product of
      the difference with itself; for any root it is symmetric. */
  lemma DistanceIsDotNorm(x1: real, y1: real, x2: real, y2: real, sqrt: real -> real)
    requires IsSqrtAt(sqrt, Dot(x1 - x2, y1 - y2, x1 - x2, y1 - y2))
    ensures Distance(x1, y1, x2, y2, sqrt) >= 0.0
    ensures Distance(x1, y1, x2, y2, sqrt) * Distance(x1, y1, x2, y2, sqrt) == Dot(x1 - x2, y1 - y2, x1 - x2, y1 - y2)
    ensures Distance(x1, y1, x2, y2, sqrt) == Distance(x2, y2, x1, y1, sqrt)
  {
    assert (x1 - x2) * (x1 - x2) == (x2 - x1) * (x2 - x1);
    assert (y1 - y2) * (y1 - y2) == (y2 - y1) * (y2 - y1);
  }

  /** With a true square root, distances along a horizontal line add up:
      the distance from `a` to `c` passes through any `b` between them. */
  lemma DistanceAlongLine(a: real, b: real, c: real, y: real, sqrt: real -> real)
    requires a <= b <= c
    requires IsSqrtAt(sqrt, (b - a) * (b - a)) && IsSqrtAt(sqrt, (c - b) * (c - b)) && IsSqrtAt(sqrt, (c - a) * (c - a))
    ensures Distance(a, y, b, y, sqrt) == b - a
    ensures Distance(b, y, c, y, sqrt) == c - b
    ensures Distance(a, y, c, y, sqrt) == Distance(a, y, b, y, sqrt) + Distance(b, y, c, y, sqrt)
  {
    AlongLine(a, b, y, sqrt);
    AlongLine(b, c, y, sqrt);
    AlongLine(a, c, y, sqrt);
  }

  /** One step of `DistanceAlongLine`: two points on a horizontal line are
      their x difference apart. */
  lemma AlongLine(a: real, b: real, y: real, sqrt: real -> real)
    requires a <= b
    requires IsSqrtAt(sqrt, (b - a) * (b - a))
    ensures Distance(a, y, b, y, sqrt) == b - a
  {
    var q := (b - a) * (b - a);
    assert (a - b) * (a - b) + (y - y) * (y - y) == q;
    SqrtOfSquareAbs(sqrt, b - a, q);
  }

  /** `distance` is the 3D distance of the points placed in the plane z = 0,
      so with a true square root it is zero exactly for equal points. */
  function Distance(x1: real, y1: real, x2: real, y2: real, sqrt: real -> real): (r: real)
    ensures r == V.Distance(V.Vec3(x1, y1, 0.0), V.Vec3(x2, y2, 0.0), sqrt)
    ensures IsSqrtAt(sqrt, V.DistanceSq(V.Vec3(x1, y1, 0.0), V.Vec3(x2, y2, 0.0))) ==>
      r >= 0.0 && (r == 0.0 <==> x1 == x2 && y1 == y2)
  {
    var dx := x1 - x2;
    var dy := y1 - y2;
    assert V.DistanceSq(V.Vec3(x1, y1, 0.0), V.Vec3(x2, y2, 0.0)) == dx * dx + dy * dy;
    sqrt(dx * dx + dy * dy)
  }

  /** `normalize` is the 3D `normalize` of the point placed in the plane
      z = 0: a unit vector along `(x, y)` when the length exceeds 1e-5, and
      `[0, 0]` otherwise. */
  function Normalize(x: real, y: real, sqrt: real -> real): (r: Vec2)
    ensures var n := V.Normalize(V.Vec3(x, y, 0.0), sqrt); r == Vec2(n.x, n.y) && n.z == 0.0
  {
    var l := sqrt(x * x + y * y);
    assert V.LengthSq(V.Vec3(x, y, 0.0)) == x * x + y * y;
    if l > 0.00001 then Vec2(x / l, y / l) else Vec2(0.0, 0.0)
  }

  /** `reflect` mirrors the incident vector `i` in the line whose normal is
      `n`: the change is parallel to `n`, and for a unit normal the component
      along `n` changes sign. */
  function Reflect(ix: real, iy: real, nx: real, ny: real): (r: Vec2)
    ensures (r.x - ix) * ny == (r.y - iy) * nx
    ensures nx * nx + ny * ny == 1.0 ==> Dot(r.x, r.y, nx, ny) == -Dot(ix, iy, nx, ny)
  {
    var d := nx * ix + ny * iy;
    var r := Vec2(ix - 2.0 * d * nx, iy - 2.0 * d * ny);
    assert Dot(r.x, r.y, nx, ny) == d - 2.0 * d * (nx * nx + ny * ny);
    r
  }

  /** For a unit normal, reflecting twice gives back the incident vector. */
  lemma ReflectInvolution(ix: real, iy: real, nx: real, ny: real)
    requires nx * nx + ny * ny == 1.0
    ensures var r := Reflect(ix, iy, nx, ny); Reflect(r.x, r.y, nx, ny) == Vec2(ix, iy)
  {
    var r := Reflect(ix, iy, nx, ny);
    var d := nx * ix + ny * iy;
    var d' := nx * r.x + ny * r.y;
    ReflectTwice(ix, iy, nx, ny, d, r.x, r.y, d');
  }

  /** `reflect` applied twice to plain numbers, with the dot products named. */
  lemma ReflectTwice(ix: real, iy: real, nx: real, ny: real, d: real, rx: real, ry: real, d': real)
    requires nx * nx + ny * ny == 1.0
    requires d == nx * ix + ny * iy && rx == ix - 2.0 * d * nx && ry == iy - 2.0 * d * ny
    requires d' == nx * rx + ny * ry
    ensures rx - 2.0 * d' * nx == ix && ry - 2.0 * d' * ny == iy
  {
    assert d' == d - 2.0 * d * (nx * nx + ny * ny);
  }

  /** For a unit normal, reflecting preserves length. */
  lemma ReflectPreservesLength(ix: real, iy: real, nx: real, ny: real)
    requires nx * nx + ny * ny == 1.0
    ensures var r := Reflect(ix, iy, nx, ny); Dot(r.x, r.y, r.x, r.y) == Dot(ix, iy, ix, iy)
  {
    var d := nx * ix + ny * iy;
    var r := Reflect(ix, iy, nx, ny);
    assert Dot(r.x, r.y, r.x, r.y)
      == Dot(ix, iy, ix, iy) - 4.0 * d * d + 4.0 * d * d * (nx * nx + ny * ny);
  }

  /** `identity`. */
  const Identity: Matrix3 := Matrix3(1.0, 0.0, 0.0, 0.0, 1.0, 0.0, 0.0, 0.0, 1.0)

  /** The identity leaves every column unchanged. */
  lemma ApplyIdentity(v: V.Vec3)
    ensures Apply(Identity, v) == v
  {
  }

  /** `multiply(a, b)`: entry `(r, c)` of the result pairs row `r` of `a`
      with column `c` of `b`. */
  function Multiply(a: Matrix3, b: Matrix3): (r: Matrix3)
  {
    Matrix3(b.m0 * a.m0 + b.m1 * a.m3 + b.m2 * a.m6,
            b.m0 * a.m1 + b.m1 * a.m4 + b.m2 * a.m7,
            b.m0 * a.m2 + b.m1 * a.m5 + b.m2 * a.m8,
            b.m3 * a.m0 + b.m4 * a.m3 + b.m5 * a.m6,
            b.m3 * a.m1 + b.m4 * a.m4 + b.m5 * a.m7,
            b.m3 * a.m2 + b.m4 * a.m5 + b.m5 * a.m8,
            b.m6 * a.m0 + b.m7 * a.m3 + b.m8 * a.m6,
            b.m6 * a.m1 + b.m7 * a.m4 + b.m8 * a.m7,
            b.m6 * a.m2 + b.m7 * a.m5 + b.m8 * a.m8)
  }

  /** The product `a * b` applies `b` first and `a` second. */
  lemma MultiplyApply(a: Matrix3, b: Matrix3, v: V.Vec3)
    ensures Apply(Multiply(a, b), v) == Apply(a, Apply(b, v))
  {
    ApplyMultiplyShape0(a, b, v);
    ApplyMultiplyShape1(a, b, v);
    ApplyMultiplyPolynomial(a.m0, a.m1, a.m2, a.m3, a.m4, a.m5, a.m6, a.m7, a.m8,
                            b.m0, b.m1, b.m2, b.m3, b.m4, b.m5, b.m6, b.m7, b.m8,
                            v.x, v.y, v.z);
  }

  /** Column `c` of `m`: array entries `3c`, `3c + 1`, `3c + 2`. */
  function Column(m: Matrix3, c: int): (v: V.Vec3)
    requires 0 <= c < 3
  {
    if c == 0 then V.Vec3(m.m0, m.m1, m.m2)
    else if c == 1 then V.Vec3(m.m3, m.m4, m.m5)
    else V.Vec3(m.m6, m.m7, m.m8)
  }

  /** Row `r` of `m`: array entries `r`, `r + 3`, `r + 6`. */
  function Row(m: Matrix3, r: int): (v: V.Vec3)
    requires 0 <= r < 3
  {
    if r == 0 then V.Vec3(m.m0, m.m3, m.m6)
    else if r == 1 then V.Vec3(m.m1, m.m4, m.m7)
    else V.Vec3(m.m2, m.m5, m.m8)
  }

  /** The unit column `e_c`. */
  function Unit(c: int): (v: V.Vec3)
    requires 0 <= c < 3
  {
    if c == 0 then V.Vec3(1.0, 0.0, 0.0)
    else if c == 1 then V.Vec3(0.0, 1.0, 0.0)
    else V.Vec3(0.0, 0.0, 1.0)
  }

  /** Applying a matrix to `e_c` picks out column `c`. */
  lemma ApplyUnit(m: Matrix3, c: int)
    requires 0 <= c < 3
    ensures Apply(m, Unit(c)) == Column(m, c)
  {
  }

  /** A matrix is determined by what it does to the three unit columns. */
  lemma ApplyDeterminesMatrix(a: Matrix3, b: Matrix3)
    requires Apply(a, Unit(0)) == Apply(b, Unit(0))
    requires Apply(a, Unit(1)) == Apply(b, Unit(1))
    requires Apply(a, Unit(2)) == Apply(b, Unit(2))
    ensures a == b
  {
    ApplyUnit(a, 0);
    ApplyUnit(a, 1);
    ApplyUnit(a, 2);
    ApplyUnit(b, 0);
    ApplyUnit(b, 1);
    ApplyUnit(b, 2);
  }

  /** The identity is a two-sided unit of `multiply`. */
  lemma MultiplyIdentity(m: Matrix3)
    ensures Multiply(Identity, m) == m
    ensures Multiply(m, Identity) == m
  {
    forall c | 0 <= c < 3
      ensures Apply(Multiply(Identity, m), Unit(c)) == Apply(m, Unit(c))
      ensures Apply(Multiply(m, Identity), Unit(c)) == Apply(m, Unit(c))
    {
      MultiplyApply(Identity, m, Unit(c));
      ApplyIdentity(Apply(m, Unit(c)));
      MultiplyApply(m, Identity, Unit(c));
      ApplyIdentity(Unit(c));
    }
    ApplyDeterminesMatrix(Multiply(Identity, m), m);
    ApplyDeterminesMatrix(Multiply(m, Identity), m);
  }

  /** `multiply` is associative. */
  lemma MultiplyAssociative(a: Matrix3, b: Matrix3, c: Matrix3)
    ensures Multiply(Multiply(a, b), c) == Multiply(a, Multiply(b, c))
  {
    var l := Multiply(Multiply(a, b), c);
    var r := Multiply(a, Multiply(b, c));
    forall i | 0 <= i < 3
      ensures Apply(l, Unit(i)) == Apply(r, Unit(i))
    {
      MultiplyApply(Multiply(a, b), c, Unit(i));
      MultiplyApply(a, b, Apply(c, Unit(i)));
      MultiplyApply(a, Multiply(b, c), Unit(i));
      MultiplyApply(b, c, Unit(i));
    }
    ApplyDeterminesMatrix(l, r);
  }

  /** Each coordinate of `m v` is a row of `m` against `v`. */
  lemma ApplyByRows(m: Matrix3, v: V.Vec3)
    ensures Apply(m, v) == V.Vec3(V.Dot(Row(m, 0), v), V.Dot(Row(m, 1), v), V.Dot(Row(m, 2), v))
  {
    ApplyByRowsShape0(m, v);
    ApplyByRowsShape1(m, v);
    ApplyByRowsPolynomial(m.m0, m.m1, m.m2, m.m3, m.m4, m.m5, m.m6, m.m7, m.m8, v.x, v.y, v.z);
  }

  /** The adjugate `inverse` computes (its entries before the division by
      `det`). */
  function Adjugate(m: Matrix3): (r: Matrix3)
  {
    Matrix3(m.m8 * m.m4 - m.m5 * m.m7,
            -m.m8 * m.m1 + m.m2 * m.m7,
            m.m5 * m.m1 - m.m2 * m.m4,
            -m.m8 * m.m3 + m.m5 * m.m6,
            m.m8 * m.m0 - m.m2 * m.m6,
            -m.m5 * m.m0 + m.m2 * m.m3,
            m.m7 * m.m3 - m.m4 * m.m6,
            -m.m7 * m.m0 + m.m1 * m.m6,
            m.m4 * m.m0 - m.m1 * m.m3)
  }

  /** The columns of the adjugate are cross products of the rows of `m`. */
  lemma AdjugateColumns(m: Matrix3)
    ensures Column(Adjugate(m), 0) == V.Cross(Row(m, 1), Row(m, 2))
    ensures Column(Adjugate(m), 1) == V.Cross(Row(m, 2), Row(m, 0))
    ensures Column(Adjugate(m), 2) == V.Cross(Row(m, 0), Row(m, 1))
  {
    AdjugateColumnsShape0(m);
    AdjugateColumnsShape1(m);
    AdjugateColumnsShape2(m);
    AdjugateColumnsShape3(m);
    AdjugateColumnsShape4(m);
    AdjugateColumnsShape5(m);
    AdjugateColumnsPolynomial(m.m0, m.m1, m.m2, m.m3, m.m4, m.m5, m.m6, m.m7, m.m8);
  }

  /** The rows of the adjugate are cross products of the columns of `m`. */
  lemma AdjugateRows(m: Matrix3)
    ensures Row(Adjugate(m), 0) == V.Cross(Column(m, 1), Column(m, 2))
    ensures Row(Adjugate(m), 1) == V.Cross(Column(m, 2), Column(m, 0))
    ensures Row(Adjugate(m), 2) == V.Cross(Column(m, 0), Column(m, 1))
  {
    AdjugateRowsShape0(m);
    AdjugateRowsShape1(m);
    AdjugateRowsShape2(m);
    AdjugateRowsShape3(m);
    AdjugateRowsShape4(m);
    AdjugateRowsShape5(m);
    AdjugateRowsPolynomial(m.m0, m.m1, m.m2, m.m3, m.m4, m.m5, m.m6, m.m7, m.m8);
  }

  /** The determinant `inverse` computes: column 0 of `m` against row 0 of
      the adjugate. */
  function Determinant(m: Matrix3): (d: real)
  {
    var b := Adjugate(m);
    m.m0 * b.m0 + m.m1 * b.m3 + m.m2 * b.m6
  }

  /** The determinant is the triple product of the columns, and equally of
      the rows. */
  lemma DeterminantIsTripleProduct(m: Matrix3)
    ensures Determinant(m) == V.Dot(Column(m, 0), V.Cross(Column(m, 1), Column(m, 2)))
    ensures Determinant(m) == V.Dot(Row(m, 0), V.Cross(Row(m, 1), Row(m, 2)))
  {
    DeterminantByAdjugateRow(m);
    AdjugateRows(m);
    V.TripleProductTranspose(Column(m, 0), Column(m, 1), Column(m, 2));
  }

  /** The determinant pairs column 0 of `m` with row 0 of its adjugate. */
  lemma DeterminantByAdjugateRow(m: Matrix3)
    ensures Determinant(m) == V.Dot(Column(m, 0), Row(Adjugate(m), 0))
  {
  }

  /** Every entry of `m` multiplied by `k`. */
  function ScaleEntries(m: Matrix3, k: real): (r: Matrix3)
  {
    Matrix3(m.m0 * k, m.m1 * k, m.m2 * k, m.m3 * k, m.m4 * k, m.m5 * k, m.m6 * k, m.m7 * k, m.m8 * k)
  }

  /** Scaling the matrix, or the column it is applied to, scales the image. */
  lemma ApplyScale(m: Matrix3, k: real, v: V.Vec3)
    ensures Apply(ScaleEntries(m, k), v) == V.ScaleVector(Apply(m, v), k)
    ensures Apply(m, V.ScaleVector(v, k)) == V.ScaleVector(Apply(m, v), k)
  {
    ApplyScaleShape0(m, k, v);
    ApplyScaleShape1(m, k, v);
    ApplyScaleShape2(m, k, v);
    ApplyScalePolynomial(m.m0, m.m1, m.m2, m.m3, m.m4, m.m5, m.m6, m.m7, m.m8, v.x, v.y, v.z, k);
  }

  /** `m` times its adjugate sends `e_c` to `det * e_c`. */
  lemma MultiplyAdjugateRightColumn(m: Matrix3, c: int)
    requires 0 <= c < 3
    ensures Apply(Multiply(m, Adjugate(m)), Unit(c)) == V.ScaleVector(Unit(c), Determinant(m))
  {
    var r0, r1, r2 := Row(m, 0), Row(m, 1), Row(m, 2);
    MultiplyApply(m, Adjugate(m), Unit(c));
    ApplyUnit(Adjugate(m), c);
    AdjugateColumns(m);
    DeterminantIsTripleProduct(m);
    V.TripleProductCyclic(r0, r1, r2);
    if c == 0 {
      ApplyByRows(m, V.Cross(r1, r2));
      V.CrossPerpendicular(r1, r2);
    } else if c == 1 {
      ApplyByRows(m, V.Cross(r2, r0));
      V.CrossPerpendicular(r2, r0);
    } else {
      ApplyByRows(m, V.Cross(r0, r1));
      V.CrossPerpendicular(r0, r1);
    }
  }

  /** The adjugate times `m` sends `e_c` to `det * e_c`. */
  lemma MultiplyAdjugateLeftColumn(m: Matrix3, c: int)
    requires 0 <= c < 3
    ensures Apply(Multiply(Adjugate(m), m), Unit(c)) == V.ScaleVector(Unit(c), Determinant(m))
  {
    var c0, c1, c2 := Column(m, 0), Column(m, 1), Column(m, 2);
    var a := Adjugate(m);
    MultiplyApply(a, m, Unit(c));
    ApplyUnit(m, c);
    AdjugateRows(m);
    DeterminantIsTripleProduct(m);
    V.TripleProductCyclic(c0, c1, c2);
    ApplyByRows(a, Column(m, c));
    V.CrossPerpendicular(c1, c2);
    V.CrossPerpendicular(c2, c0);
    V.CrossPerpendicular(c0, c1);
    V.DotSymmetric(V.Cross(c1, c2), Column(m, c));
    V.DotSymmetric(V.Cross(c2, c0), Column(m, c));
    V.DotSymmetric(V.Cross(c0, c1), Column(m, c));
  }

  /** `m` times its adjugate, in either order, is `det` times the identity. */
  lemma MultiplyAdjugate(m: Matrix3)
    ensures Multiply(m, Adjugate(m)) == ScaleEntries(Identity, Determinant(m))
    ensures Multiply(Adjugate(m), m) == ScaleEntries(Identity, Determinant(m))
  {
    var d := Determinant(m);
    forall c | 0 <= c < 3
      ensures Apply(Multiply(m, Adjugate(m)), Unit(c)) == Apply(ScaleEntries(Identity, d), Unit(c))
      ensures Apply(Multiply(Adjugate(m), m), Unit(c)) == Apply(ScaleEntries(Identity, d), Unit(c))
    {
      MultiplyAdjugateRightColumn(m, c);
      MultiplyAdjugateLeftColumn(m, c);
      ApplyScale(Identity, d, Unit(c));
      ApplyIdentity(Unit(c));
    }
    ApplyDeterminesMatrix(Multiply(m, Adjugate(m)), ScaleEntries(Identity, d));
    ApplyDeterminesMatrix(Multiply(Adjugate(m), m), ScaleEntries(Identity, d));
  }

  /** `inverse`: the adjugate divided by the determinant. The library does
      not guard against a zero determinant, where it would produce
      infinities; the model requires a non-zero one. */
  function Inverse(m: Matrix3): (r: Matrix3)
    requires Determinant(m) != 0.0
  {
    ScaleEntries(Adjugate(m), 1.0 / Determinant(m))
  }

  /** Scaling `e_c` by `d` and then by `1 / d` gives `e_c` back. */
  lemma ScaleUnitBack(c: int, d: real)
    requires 0 <= c < 3 && d != 0.0
    ensures V.ScaleVector(V.ScaleVector(Unit(c), d), 1.0 / d) == Unit(c)
  {
    assert d * (1.0 / d) == 1.0;
  }

  /** `m` times its inverse sends `e_c` to `e_c`, in either order. */
  lemma InverseColumn(m: Matrix3, c: int)
    requires Determinant(m) != 0.0 && 0 <= c < 3
    ensures Apply(Multiply(m, Inverse(m)), Unit(c)) == Unit(c)
    ensures Apply(Multiply(Inverse(m), m), Unit(c)) == Unit(c)
  {
    var d := Determinant(m);
    var a := Adjugate(m);
    var e := Unit(c);
    MultiplyApply(m, Inverse(m), e);
    ApplyScale(a, 1.0 / d, e);
    ApplyScale(m, 1.0 / d, Apply(a, e));
    MultiplyApply(m, a, e);
    MultiplyAdjugateRightColumn(m, c);
    MultiplyApply(Inverse(m), m, e);
    ApplyScale(a, 1.0 / d, Apply(m, e));
    MultiplyApply(a, m, e);
    MultiplyAdjugateLeftColumn(m, c);
    ScaleUnitBack(c, d);
  }

  /** `inverse` is a two-sided inverse of `multiply`. */
  lemma InverseIsTwoSided(m: Matrix3)
    requires Determinant(m) != 0.0
    ensures Multiply(m, Inverse(m)) == Identity
    ensures Multiply(Inverse(m), m) == Identity
  {
    forall c | 0 <= c < 3
      ensures Apply(Multiply(m, Inverse(m)), Unit(c)) == Apply(Identity, Unit(c))
      ensures Apply(Multiply(Inverse(m), m), Unit(c)) == Apply(Identity, Unit(c))
    {
      InverseColumn(m, c);
      ApplyIdentity(Unit(c));
    }
    ApplyDeterminesMatrix(Multiply(m, Inverse(m)), Identity);
    ApplyDeterminesMatrix(Multiply(Inverse(m), m), Identity);
  }

  /** `projection`: maps pixel coordinates of a `width` by `height` canvas,
      origin top left, to clip space. The library divides by the sizes
      unguarded; the model requires them non-zero. */
  function Projection(width: real, height: real): (r: Matrix3)
    requires width != 0.0 && height != 0.0
  {
    Matrix3(2.0 / width, 0.0, 0.0, 0.0, -2.0 / height, 0.0, -1.0, 1.0, 1.0)
  }

  /** The projection sends pixel `(x, y)` to clip `(2x / width - 1, 1 - 2y / height)`,
      so the top-left corner goes to `(-1, 1)` and the bottom-right one to `(1, -1)`. */
  lemma ProjectionMapsCanvas(width: real, height: real, p: Vec2)
    requires width != 0.0 && height != 0.0
    ensures Apply(Projection(width, height), Lift(p))
         == V.Vec3(2.0 * p.x / width - 1.0, 1.0 - 2.0 * p.y / height, 1.0)
    ensures Apply(Projection(width, height), Lift(Vec2(0.0, 0.0))) == V.Vec3(-1.0, 1.0, 1.0)
    ensures Apply(Projection(width, height), Lift(Vec2(width, height))) == V.Vec3(1.0, -1.0, 1.0)
  {
    assert width * (2.0 / width) == 2.0;
    assert height * (-2.0 / height) == -2.0;
  }

  /** Through `transformPoint`, the top-left corner of the canvas lands on
      clip `(-1, 1)` and the bottom-right corner on `(1, -1)`, with no
      perspective divide (the weight is 1). */
  lemma ProjectionCorners(width: real, height: real)
    requires width != 0.0 && height != 0.0
    ensures Weight(Projection(width, height), Vec2(0.0, 0.0)) == 1.0
    ensures TransformPoint(Projection(width, height), Vec2(0.0, 0.0)) == Vec2(-1.0, 1.0)
    ensures Weight(Projection(width, height), Vec2(width, height)) == 1.0
    ensures TransformPoint(Projection(width, height), Vec2(width, height)) == Vec2(1.0, -1.0)
  {
    ProjectionMapsCanvas(width, height, Vec2(0.0, 0.0));
    ProjectionMapsCanvas(width, height, Vec2(width, height));
  }

  /** `project`: `m` times the projection. */
  function Project(m: Matrix3, width: real, height: real): (r: Matrix3)
    requires width != 0.0 && height != 0.0
  {
    Multiply(m, Projection(width, height))
  }

  /** A point passed through `project(m, ...)` is first projected to clip
      space and then transformed by `m`. */
  lemma ProjectApply(m: Matrix3, width: real, height: real, p: Vec2)
    requires width != 0.0 && height != 0.0
    ensures Apply(Project(m, width, height), Lift(p))
         == Apply(m, V.Vec3(2.0 * p.x / width - 1.0, 1.0 - 2.0 * p.y / height, 1.0))
  {
    MultiplyApply(m, Projection(width, height), Lift(p));
    ProjectionMapsCanvas(width, height, p);
  }

  /** `rotation`, given the cosine `c` and sine `s` of the angle (the library
      computes them with `Math.cos` and `Math.sin`). */
  function Rotation(c: real, s: real): (r: Matrix3)
  {
    Matrix3(c, -s, 0.0, s, c, 0.0, 0.0, 0.0, 1.0)
  }

  /** Rotations compose by the angle-addition formulas: rotating by `b` and
      then by `a` is rotating by `a + b`. */
  lemma RotationCompose(ca: real, sa: real, cb: real, sb: real)
    ensures Multiply(Rotation(ca, sa), Rotation(cb, sb))
         == Rotation(ca * cb - sa * sb, sa * cb + ca * sb)
  {
  }

  /** The rotation by angle zero is the identity, and for a genuine angle
      (`c * c + s * s == 1`) the rotation by the opposite angle undoes it. */
  lemma RotationInverse(c: real, s: real)
    requires c * c + s * s == 1.0
    ensures Rotation(1.0, 0.0) == Identity
    ensures Multiply(Rotation(c, s), Rotation(c, -s)) == Identity
    ensures Multiply(Rotation(c, -s), Rotation(c, s)) == Identity
  {
    RotationCompose(c, s, c, -s);
    RotationCompose(c, -s, c, s);
    assert c * c - s * -s == 1.0;
    assert -s * c + c * s == 0.0;
  }

  /** For a genuine angle a rotation keeps points on the plane z = 1 and
      preserves their distance from the origin. */
  lemma RotationPreservesLength(c: real, s: real, p: Vec2)
    requires c * c + s * s == 1.0
    ensures var q := Apply(Rotation(c, s), Lift(p));
      q.z == 1.0 && Dot(q.x, q.y, q.x, q.y) == Dot(p.x, p.y, p.x, p.y)
  {
    var q := Apply(Rotation(c, s), Lift(p));
    assert q.x == p.x * c + p.y * s && q.y == p.x * -s + p.y * c;
    RotationLength(p.x, p.y, c, s, q.x, q.y);
  }

  /** The length identity behind `RotationPreservesLength`, on plain numbers. */
  lemma RotationLength(x: real, y: real, c: real, s: real, qx: real, qy: real)
    requires c * c + s * s == 1.0
    requires qx == x * c + y * s && qy == x * -s + y * c
    ensures qx * qx + qy * qy == x * x + y * y
  {
    assert qx * qx + qy * qy == (x * x + y * y) * (c * c + s * s);
  }

  /** `rotate(m, angle)`: `m` times the rotation. */
  function Rotate(m: Matrix3, c: real, s: real): (r: Matrix3)
  {
    Multiply(m, Rotation(c, s))
  }

  /** Rotating by `a` and then by `b` is rotating once by `a + b`. */
  lemma RotateTwice(m: Matrix3, ca: real, sa: real, cb: real, sb: real)
    ensures Rotate(Rotate(m, ca, sa), cb, sb) == Rotate(m, ca * cb - sa * sb, sa * cb + ca * sb)
  {
    MultiplyAssociative(m, Rotation(ca, sa), Rotation(cb, sb));
    RotationCompose(ca, sa, cb, sb);
  }

  /** `scaling`. */
  function Scaling(sx: real, sy: real): (r: Matrix3)
  {
    Matrix3(sx, 0.0, 0.0, 0.0, sy, 0.0, 0.0, 0.0, 1.0)
  }

  /** A scaling multiplies each coordinate of a point by its factor. */
  lemma ScalingApply(sx: real, sy: real, p: Vec2)
    ensures Apply(Scaling(sx, sy), Lift(p)) == Lift(Vec2(p.x * sx, p.y * sy))
  {
  }

  /** Scalings compose by multiplying the factors. */
  lemma ScalingCompose(x1: real, y1: real, x2: real, y2: real)
    ensures Multiply(Scaling(x1, y1), Scaling(x2, y2)) == Scaling(x1 * x2, y1 * y2)
  {
  }

  /** `scale(m, sx, sy)`: `m` times the scaling. */
  function Scale(m: Matrix3, sx: real, sy: real): (r: Matrix3)
  {
    Multiply(m, Scaling(sx, sy))
  }

  /** Scaling twice is scaling once by the products of the factors. */
  lemma ScaleTwice(m: Matrix3, x1: real, y1: real, x2: real, y2: real)
    ensures Scale(Scale(m, x1, y1), x2, y2) == Scale(m, x1 * x2, y1 * y2)
  {
    MultiplyAssociative(m, Scaling(x1, y1), Scaling(x2, y2));
    ScalingCompose(x1, y1, x2, y2);
  }

  /** `translation`. */
  function Translation(tx: real, ty: real): (r: Matrix3)
  {
    Matrix3(1.0, 0.0, 0.0, 0.0, 1.0, 0.0, tx, ty, 1.0)
  }

  /** A translation adds its offsets to a point. */
  lemma TranslationApply(tx: real, ty: real, p: Vec2)
    ensures Apply(Translation(tx, ty), Lift(p)) == Lift(Vec2(p.x + tx, p.y + ty))
  {
  }

  /** Translations compose by adding the offsets. */
  lemma TranslationCompose(x1: real, y1: real, x2: real, y2: real)
    ensures Multiply(Translation(x1, y1), Translation(x2, y2)) == Translation(x1 + x2, y1 + y2)
  {
  }

  /** `translate(m, tx, ty)`: `m` times the translation. */
  function Translate(m: Matrix3, tx: real, ty: real): (r: Matrix3)
  {
    Multiply(m, Translation(tx, ty))
  }

  /** Translating twice is translating once by the summed offsets. */
  lemma TranslateTwice(m: Matrix3, x1: real, y1: real, x2: real, y2: real)
    ensures Translate(Translate(m, x1, y1), x2, y2) == Translate(m, x1 + x2, y1 + y2)
  {
    MultiplyAssociative(m, Translation(x1, y1), Translation(x2, y2));
    TranslationCompose(x1, y1, x2, y2);
  }

  /** The homogeneous weight `transformPoint` divides by. */
  function Weight(m: Matrix3, p: Vec2): (w: real)
  {
    p.x * m.m2 + p.y * m.m5 + m.m8
  }

  /** `transformPoint`: the image of the lifted point, divided by its
      homogeneous coordinate. The library divides unguarded; the model
      requires a non-zero weight. */
  function TransformPoint(m: Matrix3, p: Vec2): (r: Vec2)
    requires Weight(m, p) != 0.0
    ensures var h := Apply(m, Lift(p)); h.z != 0.0 && r == Vec2(h.x / h.z, h.y / h.z)
  {
    var d := p.x * m.m2 + p.y * m.m5 + m.m8;
    Vec2((p.x * m.m0 + p.y * m.m3 + m.m6) / d, (p.x * m.m1 + p.y * m.m4 + m.m7) / d)
  }

  /** A matrix whose bottom row is `(0, 0, 1)`: it keeps points on the plane z = 1. */
  predicate IsAffine(m: Matrix3)
  {
    m.m2 == 0.0 && m.m5 == 0.0 && m.m8 == 1.0
  }

  /** The identity, rotations, scalings and translations are affine. */
  lemma BuildersAreAffine(c: real, s: real, sx: real, sy: real, tx: real, ty: real)
    ensures IsAffine(Identity) && IsAffine(Rotation(c, s)) && IsAffine(Scaling(sx, sy))
    ensures IsAffine(Translation(tx, ty))
  {
  }

  /** Products of affine matrices are affine, and for them `transformPoint`
      turns a product into composition: transforming by `a * b` is
      transforming by `b` and then by `a`. */
  lemma TransformPointMultiply(a: Matrix3, b: Matrix3, p: Vec2)
    requires IsAffine(a) && IsAffine(b)
    ensures IsAffine(Multiply(a, b))
    ensures Weight(Multiply(a, b), p) == 1.0 && Weight(b, p) == 1.0
    ensures TransformPoint(Multiply(a, b), p) == TransformPoint(a, TransformPoint(b, p))
  {
    var q := TransformPoint(b, p);
    MultiplyApply(a, b, Lift(p));
    assert Apply(b, Lift(p)) == Lift(q);
  }

  /* Shape lemmas unfold a matrix expression into its explicit entries;
     polynomial lemmas prove the matching identity on plain reals. Keeping
     the two apart keeps each proof obligation small. */

  lemma ApplyMultiplyShape0(a: Matrix3, b: Matrix3, v: V.Vec3)
    ensures Apply(Multiply(a, b), v)
         == V.Vec3(v.x * (b.m0 * a.m0 + b.m1 * a.m3 + b.m2 * a.m6) + v.y * (b.m3 * a.m0 + b.m4 * a.m3 + b.m5 * a.m6) + v.z * (b.m6 * a.m0 + b.m7 * a.m3 + b.m8 * a.m6), v.x * (b.m0 * a.m1 + b.m1 * a.m4 + b.m2 * a.m7) + v.y * (b.m3 * a.m1 + b.m4 * a.m4 + b.m5 * a.m7) + v.z * (b.m6 * a.m1 + b.m7 * a.m4 + b.m8 * a.m7), v.x * (b.m0 * a.m2 + b.m1 * a.m5 + b.m2 * a.m8) + v.y * (b.m3 * a.m2 + b.m4 * a.m5 + b.m5 * a.m8) + v.z * (b.m6 * a.m2 + b.m7 * a.m5 + b.m8 * a.m8))
  {
  }

  lemma ApplyMultiplyShape1(a: Matrix3, b: Matrix3, v: V.Vec3)
    ensures Apply(a, Apply(b, v))
         == V.Vec3((v.x * b.m0 + v.y * b.m3 + v.z * b.m6) * a.m0 + (v.x * b.m1 + v.y * b.m4 + v.z * b.m7) * a.m3 + (v.x * b.m2 + v.y * b.m5 + v.z * b.m8) * a.m6, (v.x * b.m0 + v.y * b.m3 + v.z * b.m6) * a.m1 + (v.x * b.m1 + v.y * b.m4 + v.z * b.m7) * a.m4 + (v.x * b.m2 + v.y * b.m5 + v.z * b.m8) * a.m7, (v.x * b.m0 + v.y * b.m3 + v.z * b.m6) * a.m2 + (v.x * b.m1 + v.y * b.m4 + v.z * b.m7) * a.m5 + (v.x * b.m2 + v.y * b.m5 + v.z * b.m8) * a.m8)
  {
  }

  lemma ApplyMultiplyPolynomial(a0: real, a1: real, a2: real, a3: real, a4: real, a5: real, a6: real, a7: real, a8: real, b0: real, b1: real, b2: real, b3: real, b4: real, b5: real, b6: real, b7: real, b8: real, v0: real, v1: real, v2: real)
    ensures V.Vec3(v0 * (b0 * a0 + b1 * a3 + b2 * a6) + v1 * (b3 * a0 + b4 * a3 + b5 * a6) + v2 * (b6 * a0 + b7 * a3 + b8 * a6), v0 * (b0 * a1 + b1 * a4 + b2 * a7) + v1 * (b3 * a1 + b4 * a4 + b5 * a7) + v2 * (b6 * a1 + b7 * a4 + b8 * a7), v0 * (b0 * a2 + b1 * a5 + b2 * a8) + v1 * (b3 * a2 + b4 * a5 + b5 * a8) + v2 * (b6 * a2 + b7 * a5 + b8 * a8))
         == V.Vec3((v0 * b0 + v1 * b3 + v2 * b6) * a0 + (v0 * b1 + v1 * b4 + v2 * b7) * a3 + (v0 * b2 + v1 * b5 + v2 * b8) * a6, (v0 * b0 + v1 * b3 + v2 * b6) * a1 + (v0 * b1 + v1 * b4 + v2 * b7) * a4 + (v0 * b2 + v1 * b5 + v2 * b8) * a7, (v0 * b0 + v1 * b3 + v2 * b6) * a2 + (v0 * b1 + v1 * b4 + v2 * b7) * a5 + (v0 * b2 + v1 * b5 + v2 * b8) * a8)
  {
  }

  lemma AdjugateColumnsShape0(m: Matrix3)
    ensures Column(Adjugate(m), 0)
         == V.Vec3(m.m8 * m.m4 - m.m5 * m.m7, -m.m8 * m.m1 + m.m2 * m.m7, m.m5 * m.m1 - m.m2 * m.m4)
  {
  }

  lemma AdjugateColumnsShape1(m: Matrix3)
    ensures V.Cross(Row(m, 1), Row(m, 2))
         == V.Vec3(m.m4 * m.m8 - m.m7 * m.m5, m.m7 * m.m2 - m.m1 * m.m8, m.m1 * m.m5 - m.m4 * m.m2)
  {
  }

  lemma AdjugateColumnsShape2(m: Matrix3)
    ensures Column(Adjugate(m), 1)
         == V.Vec3(-m.m8 * m.m3 + m.m5 * m.m6, m.m8 * m.m0 - m.m2 * m.m6, -m.m5 * m.m0 + m.m2 * m.m3)
  {
  }

  lemma AdjugateColumnsShape3(m: Matrix3)
    ensures V.Cross(Row(m, 2), Row(m, 0))
         == V.Vec3(m.m5 * m.m6 - m.m8 * m.m3, m.m8 * m.m0 - m.m2 * m.m6, m.m2 * m.m3 - m.m5 * m.m0)
  {
  }

  lemma AdjugateColumnsShape4(m: Matrix3)
    ensures Column(Adjugate(m), 2)
         == V.Vec3(m.m7 * m.m3 - m.m4 * m.m6, -m.m7 * m.m0 + m.m1 * m.m6, m.m4 * m.m0 - m.m1 * m.m3)
  {
  }

  lemma AdjugateColumnsShape5(m: Matrix3)
    ensures V.Cross(Row(m, 0), Row(m, 1))
         == V.Vec3(m.m3 * m.m7 - m.m6 * m.m4, m.m6 * m.m1 - m.m0 * m.m7, m.m0 * m.m4 - m.m3 * m.m1)
  {
  }

  lemma AdjugateColumnsPolynomial(m0: real, m1: real, m2: real, m3: real, m4: real, m5: real, m6: real, m7: real, m8: real)
    ensures V.Vec3(m8 * m4 - m5 * m7, -m8 * m1 + m2 * m7, m5 * m1 - m2 * m4)
         == V.Vec3(m4 * m8 - m7 * m5, m7 * m2 - m1 * m8, m1 * m5 - m4 * m2)
    ensures V.Vec3(-m8 * m3 + m5 * m6, m8 * m0 - m2 * m6, -m5 * m0 + m2 * m3)
         == V.Vec3(m5 * m6 - m8 * m3, m8 * m0 - m2 * m6, m2 * m3 - m5 * m0)
    ensures V.Vec3(m7 * m3 - m4 * m6, -m7 * m0 + m1 * m6, m4 * m0 - m1 * m3)
         == V.Vec3(m3 * m7 - m6 * m4, m6 * m1 - m0 * m7, m0 * m4 - m3 * m1)
  {
  }

  lemma AdjugateRowsShape0(m: Matrix3)
    ensures Row(Adjugate(m), 0)
         == V.Vec3(m.m8 * m.m4 - m.m5 * m.m7, -m.m8 * m.m3 + m.m5 * m.m6, m.m7 * m.m3 - m.m4 * m.m6)
  {
  }

  lemma AdjugateRowsShape1(m: Matrix3)
    ensures V.Cross(Column(m, 1), Column(m, 2))
         == V.Vec3(m.m4 * m.m8 - m.m5 * m.m7, m.m5 * m.m6 - m.m3 * m.m8, m.m3 * m.m7 - m.m4 * m.m6)
  {
  }

  lemma AdjugateRowsShape2(m: Matrix3)
    ensures Row(Adjugate(m), 1)
         == V.Vec3(-m.m8 * m.m1 + m.m2 * m.m7, m.m8 * m.m0 - m.m2 * m.m6, -m.m7 * m.m0 + m.m1 * m.m6)
  {
  }

  lemma AdjugateRowsShape3(m: Matrix3)
    ensures V.Cross(Column(m, 2), Column(m, 0))
         == V.Vec3(m.m7 * m.m2 - m.m8 * m.m1, m.m8 * m.m0 - m.m6 * m.m2, m.m6 * m.m1 - m.m7 * m.m0)
  {
  }

  lemma AdjugateRowsShape4(m: Matrix3)
    ensures Row(Adjugate(m), 2)
         == V.Vec3(m.m5 * m.m1 - m.m2 * m.m4, -m.m5 * m.m0 + m.m2 * m.m3, m.m4 * m.m0 - m.m1 * m.m3)
  {
  }

  lemma AdjugateRowsShape5(m: Matrix3)
    ensures V.Cross(Column(m, 0), Column(m, 1))
         == V.Vec3(m.m1 * m.m5 - m.m2 * m.m4, m.m2 * m.m3 - m.m0 * m.m5, m.m0 * m.m4 - m.m1 * m.m3)
  {
  }

  lemma AdjugateRowsPolynomial(m0: real, m1: real, m2: real, m3: real, m4: real, m5: real, m6: real, m7: real, m8: real)
    ensures V.Vec3(m8 * m4 - m5 * m7, -m8 * m3 + m5 * m6, m7 * m3 - m4 * m6)
         == V.Vec3(m4 * m8 - m5 * m7, m5 * m6 - m3 * m8, m3 * m7 - m4 * m6)
    ensures V.Vec3(-m8 * m1 + m2 * m7, m8 * m0 - m2 * m6, -m7 * m0 + m1 * m6)
         == V.Vec3(m7 * m2 - m8 * m1, m8 * m0 - m6 * m2, m6 * m1 - m7 * m0)
    ensures V.Vec3(m5 * m1 - m2 * m4, -m5 * m0 + m2 * m3, m4 * m0 - m1 * m3)
         == V.Vec3(m1 * m5 - m2 * m4, m2 * m3 - m0 * m5, m0 * m4 - m1 * m3)
  {
  }

  lemma ApplyScaleShape0(m: Matrix3, k: real, v: V.Vec3)
    ensures Apply(ScaleEntries(m, k), v)
         == V.Vec3(v.x * (m.m0 * k) + v.y * (m.m3 * k) + v.z * (m.m6 * k), v.x * (m.m1 * k) + v.y * (m.m4 * k) + v.z * (m.m7 * k), v.x * (m.m2 * k) + v.y * (m.m5 * k) + v.z * (m.m8 * k))
  {
  }

  lemma ApplyScaleShape1(m: Matrix3, k: real, v: V.Vec3)
    ensures V.ScaleVector(Apply(m, v), k)
         == V.Vec3((v.x * m.m0 + v.y * m.m3 + v.z * m.m6) * k, (v.x * m.m1 + v.y * m.m4 + v.z * m.m7) * k, (v.x * m.m2 + v.y * m.m5 + v.z * m.m8) * k)
  {
  }

  lemma ApplyScaleShape2(m: Matrix3, k: real, v: V.Vec3)
    ensures Apply(m, V.ScaleVector(v, k))
         == V.Vec3((v.x * k) * m.m0 + (v.y * k) * m.m3 + (v.z * k) * m.m6, (v.x * k) * m.m1 + (v.y * k) * m.m4 + (v.z * k) * m.m7, (v.x * k) * m.m2 + (v.y * k) * m.m5 + (v.z * k) * m.m8)
  {
  }

  lemma ApplyScalePolynomial(m0: real, m1: real, m2: real, m3: real, m4: real, m5: real, m6: real, m7: real, m8: real, v0: real, v1: real, v2: real, k: real)
    ensures V.Vec3(v0 * (m0 * k) + v1 * (m3 * k) + v2 * (m6 * k), v0 * (m1 * k) + v1 * (m4 * k) + v2 * (m7 * k), v0 * (m2 * k) + v1 * (m5 * k) + v2 * (m8 * k))
         == V.Vec3((v0 * m0 + v1 * m3 + v2 * m6) * k, (v0 * m1 + v1 * m4 + v2 * m7) * k, (v0 * m2 + v1 * m5 + v2 * m8) * k)
    ensures V.Vec3((v0 * k) * m0 + (v1 * k) * m3 + (v2 * k) * m6, (v0 * k) * m1 + (v1 * k) * m4 + (v2 * k) * m7, (v0 * k) * m2 + (v1 * k) * m5 + (v2 * k) * m8)
         == V.Vec3((v0 * m0 + v1 * m3 + v2 * m6) * k, (v0 * m1 + v1 * m4 + v2 * m7) * k, (v0 * m2 + v1 * m5 + v2 * m8) * k)
  {
  }

  lemma ApplyByRowsShape0(m: Matrix3, v: V.Vec3)
    ensures Apply(m, v)
         == V.Vec3(v.x * m.m0 + v.y * m.m3 + v.z * m.m6, v.x * m.m1 + v.y * m.m4 + v.z * m.m7, v.x * m.m2 + v.y * m.m5 + v.z * m.m8)
  {
  }

  lemma ApplyByRowsShape1(m: Matrix3, v: V.Vec3)
    ensures V.Vec3(V.Dot(Row(m, 0), v), V.Dot(Row(m, 1), v), V.Dot(Row(m, 2), v))
         == V.Vec3(m.m0 * v.x + m.m3 * v.y + m.m6 * v.z, m.m1 * v.x + m.m4 * v.y + m.m7 * v.z, m.m2 * v.x + m.m5 * v.y + m.m8 * v.z)
  {
  }

  lemma ApplyByRowsPolynomial(m0: real, m1: real, m2: real, m3: real, m4: real, m5: real, m6: real, m7: real, m8: real, v0: real, v1: real, v2: real)
    ensures V.Vec3(v0 * m0 + v1 * m3 + v2 * m6, v0 * m1 + v1 * m4 + v2 * m7, v0 * m2 + v1 * m5 + v2 * m8)
         == V.Vec3(m0 * v0 + m3 * v1 + m6 * v2, m1 * v0 + m4 * v1 + m7 * v2, m2 * v0 + m5 * v1 + m8 * v2)
  {
  }
}
