/** The projection builders of `m4`: `orthographic`, `frustum` and
    `perspective`. Each fills a fresh zero-filled array, so every entry it
    does not write is zero. A division by zero in the library yields an
    infinite or NaN entry, which `real` cannot express; the builders
    therefore require the divisors to be nonzero. `perspective` takes the
    focal value `f`, the cotangent of half the field of view that the
    library computes with `Math.tan`, as a parameter. */
module M4Projections {
  import opened M4
  import V = Vectors

  /** `orthographic(left, right, bottom, top, near, far)`. */
  function Orthographic(left: real, right: real, bottom: real, top: real, near: real, far: real): Matrix4
    requires right != left && top != bottom && near != far
  {
    Matrix4(2.0 / (right - left), 0.0, 0.0, 0.0,
            0.0, 2.0 / (top - bottom), 0.0, 0.0,
            0.0, 0.0, 2.0 / (near - far), 0.0,
            (left + right) / (left - right), (bottom + top) / (bottom - top), (near + far) / (near - far), 1.0)
  }

  /** `frustum(left, right, bottom, top, near, far)`. */
  function Frustum(left: real, right: real, bottom: real, top: real, near: real, far: real): Matrix4
    requires right != left && top != bottom && far != near
  {
    var dx, dy, dz := right - left, top - bottom, far - near;
    Matrix4(2.0 * near / dx, 0.0, 0.0, 0.0,
            0.0, 2.0 * near / dy, 0.0, 0.0,
            (left + right) / dx, (top + bottom) / dy, -(far + near) / dz, -1.0,
            0.0, 0.0, -2.0 * near * far / dz, 0.0)
  }

  /** `perspective(fieldOfView, aspect, near, far)` with `f` the focal value
      `tan(pi / 2 - fieldOfView / 2)`. */
  function Perspective(f: real, aspect: real, near: real, far: real): Matrix4
    requires aspect != 0.0 && near != far
  {
    var rangeInv := 1.0 / (near - far);
    Matrix4(f / aspect, 0.0, 0.0, 0.0,
            0.0, f, 0.0, 0.0,
            0.0, 0.0, (near + far) * rangeInv, -1.0,
            0.0, 0.0, near * far * rangeInv * 2.0, 0.0)
  }

  // Orthographic projection

  /** An orthographic projection is affine: it never divides. */
  lemma OrthographicIsAffine(left: real, right: real, bottom: real, top: real, near: real, far: real)
    requires right != left && top != bottom && near != far
    ensures IsAffine(Orthographic(left, right, bottom, top, near, far))
  {
  }

  /** The near bottom-left corner of the box goes to `(-1, -1, -1)`. */
  lemma OrthographicNearCorner(left: real, right: real, bottom: real, top: real, near: real, far: real)
    requires right != left && top != bottom && near != far
    ensures TransformPoint(Orthographic(left, right, bottom, top, near, far), V.Vec3(left, bottom, -near))
         == V.Vec3(-1.0, -1.0, -1.0)
  {
    var m := Orthographic(left, right, bottom, top, near, far);
    var p := V.Vec3(left, bottom, -near);
    OrthographicApplied(m, p, left, right, bottom, top, near, far);
    EdgeLow(left, right, m.m0, m.m12);
    EdgeLow(bottom, top, m.m5, m.m13);
    DepthNear(near, far, m.m10, m.m14);
  }

  /** The far top-right corner of the box goes to `(1, 1, 1)`. */
  lemma OrthographicFarCorner(left: real, right: real, bottom: real, top: real, near: real, far: real)
    requires right != left && top != bottom && near != far
    ensures TransformPoint(Orthographic(left, right, bottom, top, near, far), V.Vec3(right, top, -far))
         == V.Vec3(1.0, 1.0, 1.0)
  {
    var m := Orthographic(left, right, bottom, top, near, far);
    var p := V.Vec3(right, top, -far);
    OrthographicApplied(m, p, left, right, bottom, top, near, far);
    EdgeHigh(left, right, m.m0, m.m12);
    EdgeHigh(bottom, top, m.m5, m.m13);
    DepthFar(near, far, m.m10, m.m14);
  }

  lemma OrthographicApplied(m: Matrix4, p: V.Vec3, left: real, right: real, bottom: real, top: real, near: real, far: real)
    requires right != left && top != bottom && near != far
    requires m == Orthographic(left, right, bottom, top, near, far)
    ensures TransformPoint(m, p) == V.Vec3(p.x * m.m0 + m.m12, p.y * m.m5 + m.m13, p.z * m.m10 + m.m14)
  {
  }

  lemma EdgeLow(lo: real, hi: real, a: real, b: real)
    requires hi != lo && a == 2.0 / (hi - lo) && b == (lo + hi) / (lo - hi)
    ensures lo * a + b == -1.0
  {
    assert b == -(lo + hi) / (hi - lo);
  }

  lemma EdgeHigh(lo: real, hi: real, a: real, b: real)
    requires hi != lo && a == 2.0 / (hi - lo) && b == (lo + hi) / (lo - hi)
    ensures hi * a + b == 1.0
  {
    assert b == -(lo + hi) / (hi - lo);
  }

  lemma DepthNear(near: real, far: real, a: real, b: real)
    requires near != far && a == 2.0 / (near - far) && b == (near + far) / (near - far)
    ensures -near * a + b == -1.0
  {
  }

  lemma DepthFar(near: real, far: real, a: real, b: real)
    requires near != far && a == 2.0 / (near - far) && b == (near + far) / (near - far)
    ensures -far * a + b == 1.0
  {
  }

  // Perspective projections

  /** The shape both perspective builders share: `-z` in the weight, and
      each of `x`, `y`, `z` mapped on its own. */
  predicate PerspectiveShape(m: Matrix4)
  {
    m.m1 == 0.0 && m.m2 == 0.0 && m.m3 == 0.0 && m.m4 == 0.0 && m.m6 == 0.0 && m.m7 == 0.0 && m.m11 == -1.0 && m.m12 == 0.0 && m.m13 == 0.0 && m.m15 == 0.0
  }

  /** The weight of a perspective matrix is `-z`. */
  lemma PerspectiveWeight(m: Matrix4, x: real, y: real, z: real)
    requires PerspectiveShape(m)
    ensures Weight(m, V.Vec3(x, y, z)) == -z
  {
  }

  /** A perspective matrix maps `x` to `q` when the numerator is `q` times the weight. */
  lemma PerspectiveX(m: Matrix4, x: real, y: real, z: real, d: real, q: real)
    requires PerspectiveShape(m) && d == -z && d != 0.0
    requires x * m.m0 + z * m.m8 == q * d
    ensures TransformPoint(m, V.Vec3(x, y, z)).x == q
  {
    Quotient(x * m.m0 + z * m.m8, d, q);
  }

  /** The same for `y`. */
  lemma PerspectiveY(m: Matrix4, x: real, y: real, z: real, d: real, q: real)
    requires PerspectiveShape(m) && d == -z && d != 0.0
    requires y * m.m5 + z * m.m9 == q * d
    ensures TransformPoint(m, V.Vec3(x, y, z)).y == q
  {
    Quotient(y * m.m5 + z * m.m9, d, q);
  }

  /** The same for the depth `z`. */
  lemma PerspectiveZ(m: Matrix4, x: real, y: real, z: real, d: real, q: real)
    requires PerspectiveShape(m) && d == -z && d != 0.0
    requires z * m.m10 + m.m14 == q * d
    ensures TransformPoint(m, V.Vec3(x, y, z)).z == q
  {
    Quotient(z * m.m10 + m.m14, d, q);
  }

  /** Every point of the near plane `z = -near` gets depth -1. */
  lemma FrustumNearPlane(left: real, right: real, bottom: real, top: real, near: real, far: real, x: real, y: real)
    requires right != left && top != bottom && far != near && near != 0.0
    ensures Weight(Frustum(left, right, bottom, top, near, far), V.Vec3(x, y, -near)) == near
    ensures TransformPoint(Frustum(left, right, bottom, top, near, far), V.Vec3(x, y, -near)).z == -1.0
  {
    var m := Frustum(left, right, bottom, top, near, far);
    PerspectiveWeight(m, x, y, -near);
    FrustumDepthNear(near, far, m.m10, m.m14);
    PerspectiveZ(m, x, y, -near, near, -1.0);
  }

  /** Every point of the far plane `z = -far` gets depth 1. */
  lemma FrustumFarPlane(left: real, right: real, bottom: real, top: real, near: real, far: real, x: real, y: real)
    requires right != left && top != bottom && far != near && far != 0.0
    ensures Weight(Frustum(left, right, bottom, top, near, far), V.Vec3(x, y, -far)) == far
    ensures TransformPoint(Frustum(left, right, bottom, top, near, far), V.Vec3(x, y, -far)).z == 1.0
  {
    var m := Frustum(left, right, bottom, top, near, far);
    PerspectiveWeight(m, x, y, -far);
    FrustumDepthFar(near, far, m.m10, m.m14);
    PerspectiveZ(m, x, y, -far, far, 1.0);
  }

  /** The bottom-left corner of the near rectangle goes to `(-1, -1, -1)`. */
  lemma FrustumNearLowCorner(left: real, right: real, bottom: real, top: real, near: real, far: real)
    requires right != left && top != bottom && far != near && near != 0.0
    ensures TransformPoint(Frustum(left, right, bottom, top, near, far), V.Vec3(left, bottom, -near))
         == V.Vec3(-1.0, -1.0, -1.0)
  {
    var m := Frustum(left, right, bottom, top, near, far);
    FrustumEdge(left, right, left, near, m.m0, m.m8, -1.0);
    FrustumEdge(bottom, top, bottom, near, m.m5, m.m9, -1.0);
    FrustumDepthNear(near, far, m.m10, m.m14);
    PerspectiveX(m, left, bottom, -near, near, -1.0);
    PerspectiveY(m, left, bottom, -near, near, -1.0);
    PerspectiveZ(m, left, bottom, -near, near, -1.0);
  }

  /** The top-right corner of the near rectangle goes to `(1, 1, -1)`. */
  lemma FrustumNearHighCorner(left: real, right: real, bottom: real, top: real, near: real, far: real)
    requires right != left && top != bottom && far != near && near != 0.0
    ensures TransformPoint(Frustum(left, right, bottom, top, near, far), V.Vec3(right, top, -near))
         == V.Vec3(1.0, 1.0, -1.0)
  {
    var m := Frustum(left, right, bottom, top, near, far);
    FrustumEdge(left, right, right, near, m.m0, m.m8, 1.0);
    FrustumEdge(bottom, top, top, near, m.m5, m.m9, 1.0);
    FrustumDepthNear(near, far, m.m10, m.m14);
    PerspectiveX(m, right, top, -near, near, 1.0);
    PerspectiveY(m, right, top, -near, near, 1.0);
    PerspectiveZ(m, right, top, -near, near, -1.0);
  }

  lemma Quotient(x: real, d: real, q: real)
    requires d != 0.0 && x == q * d
    ensures x / d == q
  {
  }

  lemma Cancel(x: real, y: real, k: real)
    requires k != 0.0 && x * k == y * k
    ensures x == y
  {
    assert (x - y) * k == 0.0;
  }

  /** On the near plane an edge `e` (`lo` or `hi`) of the near rectangle
      goes to `q * near` (`q` is -1 or 1) before the divide. */
  lemma FrustumEdge(lo: real, hi: real, e: real, near: real, a: real, b: real, q: real)
    requires hi != lo && near != 0.0
    requires (e == lo && q == -1.0) || (e == hi && q == 1.0)
    requires a == 2.0 * near / (hi - lo) && b == (lo + hi) / (hi - lo)
    ensures e * a + -near * b == q * near
  {
    var k := hi - lo;
    assert a * k == 2.0 * near;
    assert b * k == lo + hi;
    assert (e * a + -near * b) * k == e * (a * k) - near * (b * k);
    assert (e * a + -near * b) * k == (q * near) * k;
    Cancel(e * a + -near * b, q * near, k);
  }

  lemma FrustumDepthNear(near: real, far: real, a: real, b: real)
    requires far != near
    requires a == -(far + near) / (far - near) && b == -2.0 * near * far / (far - near)
    ensures -near * a + b == -1.0 * near
  {
    var k := far - near;
    assert a * k == -(far + near);
    assert b * k == -2.0 * near * far;
    assert (-near * a + b) * k == -near * (a * k) + b * k;
    assert (-near * a + b) * k == (-1.0 * near) * k;
    Cancel(-near * a + b, -1.0 * near, k);
  }

  lemma FrustumDepthFar(near: real, far: real, a: real, b: real)
    requires far != near
    requires a == -(far + near) / (far - near) && b == -2.0 * near * far / (far - near)
    ensures -far * a + b == 1.0 * far
  {
    var k := far - near;
    assert a * k == -(far + near);
    assert b * k == -2.0 * near * far;
    assert (-far * a + b) * k == -far * (a * k) + b * k;
    assert (-far * a + b) * k == (1.0 * far) * k;
    Cancel(-far * a + b, 1.0 * far, k);
  }

  /** `perspective` gives depth -1 on the near plane. */
  lemma PerspectiveNearPlane(f: real, aspect: real, near: real, far: real, x: real, y: real)
    requires aspect != 0.0 && near != far && near != 0.0
    ensures Weight(Perspective(f, aspect, near, far), V.Vec3(x, y, -near)) == near
    ensures TransformPoint(Perspective(f, aspect, near, far), V.Vec3(x, y, -near)).z == -1.0
  {
    var m := Perspective(f, aspect, near, far);
    PerspectiveWeight(m, x, y, -near);
    PerspectiveDepth(near, far, near, m.m10, m.m14, -1.0);
    PerspectiveZ(m, x, y, -near, near, -1.0);
  }

  /** `perspective` gives depth 1 on the far plane. */
  lemma PerspectiveFarPlane(f: real, aspect: real, near: real, far: real, x: real, y: real)
    requires aspect != 0.0 && near != far && far != 0.0
    ensures Weight(Perspective(f, aspect, near, far), V.Vec3(x, y, -far)) == far
    ensures TransformPoint(Perspective(f, aspect, near, far), V.Vec3(x, y, -far)).z == 1.0
  {
    var m := Perspective(f, aspect, near, far);
    PerspectiveWeight(m, x, y, -far);
    PerspectiveDepth(near, far, far, m.m10, m.m14, 1.0);
    PerspectiveZ(m, x, y, -far, far, 1.0);
  }

  /** At depth `-e` (`e` is `near` or `far`) the depth numerator is `q * e`. */
  lemma PerspectiveDepth(near: real, far: real, e: real, a: real, b: real, q: real)
    requires near != far
    requires (e == near && q == -1.0) || (e == far && q == 1.0)
    requires a == (near + far) * (1.0 / (near - far)) && b == near * far * (1.0 / (near - far)) * 2.0
    ensures -e * a + b == q * e
  {
    var k := near - far;
    var rangeInv := 1.0 / k;
    assert rangeInv * k == 1.0;
    assert a * k == (near + far) * (rangeInv * k);
    assert b * k == near * far * 2.0 * (rangeInv * k);
    assert (-e * a + b) * k == -e * (a * k) + b * k;
    assert (-e * a + b) * k == (q * e) * k;
    Cancel(-e * a + b, q * e, k);
  }

  /** `perspective` is the frustum symmetric about the view axis whose near
      rectangle reaches `near * aspect / f` to either side and `near / f`
      up and down. */
  lemma PerspectiveIsFrustum(f: real, aspect: real, near: real, far: real)
    requires f != 0.0 && aspect != 0.0 && near != 0.0 && near != far
    ensures near * aspect / f != -near * aspect / f && near / f != -near / f
    ensures Perspective(f, aspect, near, far)
         == Frustum(-near * aspect / f, near * aspect / f, -near / f, near / f, near, far)
  {
    PerspectiveSpan(near, aspect, f, -near * aspect / f, near * aspect / f);
    PerspectiveSpan(near, 1.0, f, -near / f, near / f);
    SymmetricDepth(near, far);
  }

  /** The horizontal (`aspect`) or vertical (`aspect == 1`) half of the
      relation between `perspective` and `frustum`. */
  lemma PerspectiveSpan(near: real, aspect: real, f: real, lo: real, hi: real)
    requires f != 0.0 && aspect != 0.0 && near != 0.0
    requires lo == -near * aspect / f && hi == near * aspect / f
    ensures hi != lo && (lo + hi) / (hi - lo) == 0.0
    ensures 2.0 * near / (hi - lo) == f / aspect
  {
    TimesDivisor(-near * aspect, f);
    TimesDivisor(near * aspect, f);
    SymmetricSpan(near, aspect, f, lo, hi);
  }

  lemma TimesDivisor(x: real, d: real)
    requires d != 0.0
    ensures x / d * d == x
  {
  }

  /** A span `[lo, hi]` symmetric about 0 with `hi * f == near * aspect`. */
  lemma SymmetricSpan(near: real, aspect: real, f: real, lo: real, hi: real)
    requires f != 0.0 && aspect != 0.0 && near != 0.0
    requires lo * f == -near * aspect && hi * f == near * aspect
    ensures hi != lo && (lo + hi) / (hi - lo) == 0.0
    ensures 2.0 * near / (hi - lo) == f / aspect
  {
    var k := hi - lo;
    assert k * f == 2.0 * (near * aspect);
    assert (lo + hi) * f == 0.0;
    var a := 2.0 * near / k;
    assert a * k == 2.0 * near;
    assert a * aspect * (2.0 * near) == a * (k * f) ;
    assert (a * aspect) * (2.0 * near) == f * (2.0 * near);
    Cancel(a * aspect, f, 2.0 * near);
    Quotient(f, aspect, a);
  }

  lemma SymmetricDepth(near: real, far: real)
    requires near != far
    ensures -(far + near) / (far - near) == (near + far) * (1.0 / (near - far))
    ensures -2.0 * near * far / (far - near) == near * far * (1.0 / (near - far)) * 2.0
  {
  }
}
