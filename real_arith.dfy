/**
 * The C math-library operations the floating-point code relies on, over exact reals:
 * `fabsf`, `std::min`/`std::max`, the truncating float-to-int cast, `fmodf` and `floor`.
 * Rounding is not modelled.
 */
module RealArith {
  function Abs(x: real): (r: real)
    ensures r >= 0.0 && (r == x || r == -x)
  {
    if x < 0.0 then -x else x
  }

  function Min(a: real, b: real): (r: real)
    ensures r <= a && r <= b && (r == a || r == b)
  {
    if a < b then a else b
  }

  function Max(a: real, b: real): (r: real)
    ensures r >= a && r >= b && (r == a || r == b)
  {
    if a < b then b else a
  }

  /** The integer part of `q`, rounding toward zero (a C cast from float to int). */
  function Trunc(q: real): (n: int)
    ensures q >= 0.0 ==> n as real <= q < n as real + 1.0
    ensures q < 0.0 ==> n as real - 1.0 < q <= n as real
  {
    if q >= 0.0 then q.Floor else -((-q).Floor)
  }

  /**
   * `fmodf(x, y)` for a positive divisor: what is left of `x` after taking away the
   * whole number of `y`s that the quotient truncated toward zero gives, so the remainder
   * has the sign of `x` and is smaller than `y` in magnitude.
   */
  function Fmod(x: real, y: real): (r: real)
    requires y > 0.0
    ensures x == (Trunc(x / y) as real) * y + r
    ensures x >= 0.0 ==> 0.0 <= r < y
    ensures x < 0.0 ==> -y < r <= 0.0
  {
    var q := x / y;
    var n := Trunc(q) as real;
    var r := x - n * y;
    assert q * y == x;
    SubMul(q, n, y);
    SignOfQuotient(x, y);
    if x >= 0.0 then UnitFraction(q - n, y, r); r else NegativeUnitFraction(q - n, y, r); r
  }

  /** `floor(x / y)` as an integer. */
  function FloorDiv(x: real, y: real): int
    requires y > 0.0
  {
    (x / y).Floor
  }

  /** `compareFloatClose(a, b, epsilon)`. */
  predicate CompareFloatClose(a: real, b: real, epsilon: real)
  {
    Abs(a - b) < epsilon
  }

  lemma MulStrict(a: real, b: real, c: real)
    requires a < b && c > 0.0
    ensures a * c < b * c
  {
  }

  lemma MulWeak(a: real, b: real, c: real)
    requires a <= b && c > 0.0
    ensures a * c <= b * c
  {
  }

  lemma SubMul(a: real, b: real, c: real)
    ensures (a - b) * c == a * c - b * c
  {
  }

  lemma AddMul(a: real, b: real, c: real)
    ensures (a + b) * c == a * c + b * c
  {
  }

  /** A fraction in [0, 1) of a positive `y` lies in [0, y). */
  lemma UnitFraction(f: real, y: real, r: real)
    requires y > 0.0 && r == f * y && 0.0 <= f < 1.0
    ensures 0.0 <= r < y
  {
    MulWeak(0.0, f, y);
    MulStrict(f, 1.0, y);
  }

  /** A fraction in (-1, 0] of a positive `y` lies in (-y, 0]. */
  lemma NegativeUnitFraction(f: real, y: real, r: real)
    requires y > 0.0 && r == f * y && -1.0 < f <= 0.0
    ensures -y < r <= 0.0
  {
    MulStrict(-1.0, f, y);
    MulWeak(f, 0.0, y);
  }

  /** Conversely, a part of `y` in [0, y) is a fraction in [0, 1) of it. */
  lemma UnitFractionInverse(f: real, y: real, r: real)
    requires y > 0.0 && r == f * y && 0.0 <= r < y
    ensures 0.0 <= f < 1.0
  {
    if f < 0.0 {
      MulStrict(f, 0.0, y);
    }
    if f >= 1.0 {
      MulWeak(1.0, f, y);
    }
  }

  lemma SignOfQuotient(x: real, y: real)
    requires y > 0.0
    ensures x >= 0.0 <==> x / y >= 0.0
  {
    var q := x / y;
    assert q * y == x;
    if q < 0.0 {
      MulStrict(q, 0.0, y);
    }
    if x < 0.0 && q >= 0.0 {
      MulWeak(0.0, q, y);
    }
  }

  /** `floor(x / d)` is the one integer `k` with `k * d <= x < k * d + d`. */
  lemma FloorDivUnique(x: real, d: real, k: int)
    requires d > 0.0 && (k as real) * d <= x < (k as real) * d + d
    ensures FloorDiv(x, d) == k
  {
    var q := x / d;
    assert q * d == x;
    SubMul(q, k as real, d);
    UnitFractionInverse(q - k as real, d, x - (k as real) * d);
  }

  /** A positive whole multiple of a positive `d` is at least `d`; its negation is at most `-d`. */
  lemma WholeMultiple(k: int, d: real)
    requires k >= 1 && d > 0.0
    ensures (k as real) * d >= d && ((-k) as real) * d <= -d
  {
    MulWeak(1.0, k as real, d);
  }

  /** `k` intervals above `u - d` is `-k` intervals below `u + (-d)`. */
  lemma NegatedMultiple(u: real, d: real, interval: real, k: int, y: real)
    requires u - d + interval * (k as real) == y
    ensures u + -d == y + interval * ((-k) as real)
  {
    assert interval * ((-k) as real) == -(interval * (k as real));
  }

  /** Two points of the same half-open window of width `d` that differ by a multiple of `d` coincide. */
  lemma SameResidue(x: real, y: real, lo: real, d: real, k: int)
    requires d > 0.0 && lo <= x < lo + d && lo <= y < lo + d
    requires x - y == (k as real) * d
    ensures x == y && k == 0
  {
    if k >= 1 {
      WholeMultiple(k, d);
      assert false;
    } else if k <= -1 {
      WholeMultiple(-k, d);
      assert false;
    }
  }
}
