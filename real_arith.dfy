/** Small facts about exact real arithmetic used by the filter proofs: the
    two-argument minimum and maximum, absolute value, and sign and ordering
    facts about products and quotients that the solver does not find unaided. */
module RealArith {

  /** Python's built-in `abs` on a number. */
  function Abs(x: real): (r: real)
    ensures r >= 0.0 && (r == x || r == -x)
  {
    if x < 0.0 then -x else x
  }

  /** Python's built-in `max` of two numbers. */
  function MaxOf(a: real, b: real): (r: real)
    ensures r >= a && r >= b && (r == a || r == b)
  {
    if a >= b then a else b
  }

  function MinOf(a: real, b: real): (r: real)
    ensures r <= a && r <= b && (r == a || r == b)
  {
    if a <= b then a else b
  }

  /** `v` lies in the closed interval spanned by `a` and `b`, in either order. */
  predicate Between(a: real, b: real, v: real)
  {
    MinOf(a, b) <= v <= MaxOf(a, b)
  }

  // The lemmas below are stated over plain variables. Callers instantiate them
  // with the very expressions their goals contain, so that each use needs no
  // algebra beyond matching terms and linear reasoning.

  /** The sign of a product, for factors of any sign. */
  lemma ProductSign(a: real, b: real)
    ensures a >= 0.0 && b >= 0.0 ==> a * b >= 0.0
    ensures a > 0.0 && b > 0.0 ==> a * b > 0.0
    ensures a >= 0.0 && b <= 0.0 ==> a * b <= 0.0
    ensures a > 0.0 && b < 0.0 ==> a * b < 0.0
  {
  }

  /** Multiplying a strict inequality by a positive factor. */
  lemma MulMono(c: real, a: real, b: real)
    ensures c > 0.0 && a < b ==> c * a < c * b
  {
    if c > 0.0 && a < b {
      assert c * b - c * a == c * (b - a);
      ProductSign(c, b - a);
    }
  }

  /** `(1 - t) * d == d - t * d`. */
  lemma Complement(t: real, d: real)
    ensures (1.0 - t) * d == d - t * d
  {
  }

  /** `k * (p + m) == k * p + k * m`. */
  lemma Distrib(k: real, p: real, m: real)
    ensures k * (p + m) == k * p + k * m
  {
  }

  lemma MulComm(x: real, y: real)
    ensures x * y == y * x
  {
  }

  /** Multiplying both sides of an equation by the same factor. */
  lemma MulEq(x: real, y: real, z: real)
    requires x == y
    ensures x * z == y * z
  {
  }

  lemma SquareEq(u: real, w: real)
    requires u == w
    ensures u * u == w * w
  {
  }

  lemma SquareMono(d: real, v: real)
    requires 0.0 <= d <= v
    ensures d * d <= v * v
  {
    ProductSign(v - d, v + d);
    assert (v - d) * (v + d) == v * v - d * d;
  }

  /** The defining property of real division. */
  lemma DivMul(x: real, y: real)
    requires y != 0.0
    ensures (x / y) * y == x
  {
  }

  /** A number `q` with `q * y == x` for a positive `y` has the sign of `x`, and
      is below 1 when `x < y`. */
  lemma QuotientBounds(q: real, x: real, y: real)
    requires y > 0.0 && q * y == x
    ensures x >= 0.0 ==> q >= 0.0
    ensures x > 0.0 ==> q > 0.0
    ensures x < y ==> q < 1.0
  {
    MulMono(y, q, 0.0);
    MulMono(y, 0.0, q);
    MulMono(y, 1.0, q);
  }

  /** Sign and size of a quotient by a positive number. */
  lemma Quotient(x: real, y: real)
    requires y > 0.0
    ensures (x / y) * y == x
    ensures x >= 0.0 ==> x / y >= 0.0
    ensures x > 0.0 ==> x / y > 0.0
    ensures x < y ==> x / y < 1.0
  {
    DivMul(x, y);
    QuotientBounds(x / y, x, y);
  }

  /** A number `q` with `q * n == total` lies in [lo, hi] when `n * lo <= total
      <= n * hi` for a positive `n`. */
  lemma ScaledBetween(q: real, total: real, n: real, lo: real, hi: real)
    requires n > 0.0 && q * n == total && n * lo <= total <= n * hi
    ensures lo <= q <= hi
  {
    MulMono(n, q, lo);
    MulMono(n, hi, q);
  }

  /** Dividing `n * lo <= total <= n * hi` by a positive `n`. */
  lemma DivBetween(total: real, n: real, lo: real, hi: real)
    requires n > 0.0 && n * lo <= total <= n * hi
    ensures lo <= total / n <= hi
  {
    DivMul(total, n);
    ScaledBetween(total / n, total, n, lo, hi);
  }

  /** One step of a sum bound: from `n * prevLo <= prevSum` and a new element
      `last >= lo` with `lo <= prevLo`, `(n + 1) * lo <= prevSum + last`. */
  lemma StepLower(size: real, n: real, lo: real, prevLo: real, prevSum: real, last: real)
    requires size == n + 1.0 && n >= 0.0 && lo <= prevLo && lo <= last && n * prevLo <= prevSum
    ensures size * lo <= prevSum + last
  {
    ProductSign(n, prevLo - lo);
    assert n * (prevLo - lo) == n * prevLo - n * lo;
    assert size * lo == n * lo + lo;
  }

  /** The upper counterpart of `StepLower`. */
  lemma StepUpper(size: real, n: real, hi: real, prevHi: real, prevSum: real, last: real)
    requires size == n + 1.0 && n >= 0.0 && prevHi <= hi && last <= hi && prevSum <= n * prevHi
    ensures prevSum + last <= size * hi
  {
    ProductSign(n, hi - prevHi);
    assert n * (hi - prevHi) == n * hi - n * prevHi;
    assert size * hi == n * hi + hi;
  }

  /** `a + t * (b - a)` for `0 <= t <= 1` is a point of the segment from `a` to
      `b`, and an inner point when `0 < t < 1` and `a != b`. */
  lemma Interpolate(a: real, b: real, t: real)
    requires 0.0 <= t <= 1.0
    ensures Between(a, b, a + t * (b - a))
    ensures 0.0 < t < 1.0 && a != b ==> a + t * (b - a) != a && a + t * (b - a) != b
  {
    ProductSign(t, b - a);
    ProductSign(1.0 - t, b - a);
    Complement(t, b - a);
  }
}
