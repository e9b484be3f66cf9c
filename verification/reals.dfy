/** Scalar helpers shared by the vector and matrix modules.

    The library calls `Math.sqrt`, which Dafny's `real` cannot compute.
    Every operation that takes a square root therefore receives the square
    root as a function parameter `sqrt`, and the properties that depend on
    it being a true square root require `IsSqrtAt(sqrt, x)` at exactly the
    points where it is applied. */
module Reals {

  /** `Math.abs`. */
  function Abs(x: real): (r: real)
    ensures r >= 0.0
    ensures r == x || r == -x
  {
    if x < 0.0 then -x else x
  }

  /** `sqrt` behaves as the non-negative square root at `x`. */
  ghost predicate IsSqrtAt(sqrt: real -> real, x: real)
  {
    0.0 <= sqrt(x) && sqrt(x) * sqrt(x) == x
  }

  /* The nonlinear facts below take the product they speak about as a
     parameter `q`; callers pass the product expression itself. */

  /** A product of positive numbers is positive. */
  lemma MulPos(a: real, b: real, q: real)
    requires a > 0.0 && b > 0.0 && q == a * b
    ensures q > 0.0
  {
  }

  /** A square is non-negative, and positive off zero. */
  lemma Square(x: real, q: real)
    requires q == x * x
    ensures q >= 0.0
    ensures x != 0.0 ==> q > 0.0
  {
    if x < 0.0 {
      MulPos(-x, -x, q);
    } else if x > 0.0 {
      MulPos(x, x, q);
    }
  }

  /** Multiplying by a non-negative factor preserves `<=`. */
  lemma MulLeMono(a: real, b: real, c: real, p: real, q: real)
    requires a <= b && 0.0 <= c && p == a * c && q == b * c
    ensures p <= q
  {
    if c > 0.0 && b > a {
      MulPos(b - a, c, q - p);
    }
  }

  /** Dividing is multiplying by the reciprocal. */
  lemma QuotientIsProduct(x: real, d: real)
    requires d != 0.0
    ensures x / d == x * (1.0 / d)
  {
    assert (x * (1.0 / d)) * d == x * ((1.0 / d) * d);
  }

  /** Squaring is monotone on non-negative numbers, strictly so where the arguments differ. */
  lemma SquareMono(a: real, b: real, p: real, q: real)
    requires 0.0 <= a <= b && p == a * a && q == b * b
    ensures p <= q
    ensures a < b ==> p < q
  {
    MulLeMono(a, b, a, p, b * a);
    MulLeMono(a, b, b, a * b, q);
    if a < b {
      MulPos(b - a, b, q - a * b);
    }
  }

  /** A true square root vanishes exactly at zero. */
  lemma SqrtZero(sqrt: real -> real, x: real)
    ensures IsSqrtAt(sqrt, x) ==> (sqrt(x) == 0.0 <==> x == 0.0)
  {
    if IsSqrtAt(sqrt, x) {
      Square(sqrt(x), x);
    }
  }

  /** A non-negative square root of `a * a` is `a` itself when `a >= 0`. */
  lemma SqrtOfSquare(sqrt: real -> real, a: real)
    requires a >= 0.0
    requires IsSqrtAt(sqrt, a * a)
    ensures sqrt(a * a) == a
  {
    var r := sqrt(a * a);
    if r > a {
      MulLeMono(a, r, a, a * a, r * a);
      MulPos(r, r - a, r * r - r * a);
    } else if r < a {
      MulLeMono(r, a, r, r * r, a * r);
      MulPos(a, a - r, a * a - a * r);
    }
  }

  /** The non-negative square root of `a * a` is the magnitude of `a`. */
  lemma SqrtOfSquareAbs(sqrt: real -> real, a: real, q: real)
    requires q == a * a && IsSqrtAt(sqrt, q)
    ensures sqrt(q) == Abs(a)
  {
    var b, r := Abs(a), sqrt(q);
    assert b * b == q;
    if r > b {
      MulLeMono(b, r, b, b * b, r * b);
      MulPos(r, r - b, r * r - r * b);
    } else if r < b {
      MulLeMono(r, b, r, r * r, b * r);
      MulPos(b, b - r, b * b - b * r);
    }
  }

  /** A non-negative square root of `x >= 1` is at least 1. */
  lemma SqrtAtLeastOne(sqrt: real -> real, x: real)
    requires x >= 1.0
    requires IsSqrtAt(sqrt, x)
    ensures sqrt(x) >= 1.0
  {
    var r := sqrt(x);
    if r < 1.0 {
      MulLeMono(r, 1.0, r, r * r, r);
    }
  }
}
