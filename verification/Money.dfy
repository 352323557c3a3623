/**
 Money in whole cents. Amounts that may carry fractions of a cent are reals,
 counted in cents; rates are whole hundredths of a percent.
 */
module Money {

  /** Rounds to the nearest whole cent, halves upwards. */
  function Round(cents: real): (r: int)
    ensures r as real - 0.5 <= cents < r as real + 0.5
  {
    (cents + 0.5).Floor
  }

  lemma RoundUnique(cents: real, r: int)
    requires r as real - 0.5 <= cents < r as real + 0.5
    ensures Round(cents) == r
  {
    var q := Round(cents);
    assert (q as real) < r as real + 1.0 && (r as real) < q as real + 1.0;
    assert q as real - r as real == (q - r) as real;
  }

  /** Rounds n / d to the nearest integer, halves upwards. */
  function RoundDiv(n: int, d: int): (r: int)
    requires d > 0
    ensures 2 * (d * r) - d <= 2 * n < 2 * (d * r) + d
  {
    var r := (2 * n + d) / (2 * d);
    assert 2 * (d * r) == 2 * d * r;
    r
  }

  lemma MulNonNegative(a: int, b: int)
    requires a >= 0 && b >= 0
    ensures a * b >= 0
  {
  }

  lemma MulStep(d: int, a: int, b: int)
    requires d > 0
    ensures a < b ==> d * a + d <= d * b
  {
    if a < b {
      MulNonNegative(d, b - a - 1);
      assert d * (b - a - 1) == d * b - d * a - d;
    }
  }

  /** Only one integer is nearest. */
  lemma RoundDivUnique(n: int, d: int, r: int)
    requires d > 0
    requires 2 * (d * r) - d <= 2 * n < 2 * (d * r) + d
    ensures RoundDiv(n, d) == r
  {
    MulStep(d, RoundDiv(n, d), r);
    MulStep(d, r, RoundDiv(n, d));
  }

  /** Rounding a fraction in integer arithmetic is rounding its real value. */
  lemma RoundDivIsRound(n: int, d: int)
    requires d > 0
    ensures RoundDiv(n, d) == Round(n as real / d as real)
  {
    var q := n as real / d as real;
    var r := Round(q);
    RealBounds(n as real, q, d as real, r as real);
    assert (d as real) * (r as real) == (d * r) as real;
    RoundDivUnique(n, d, r);
  }

  lemma RealBounds(n: real, q: real, d: real, r: real)
    requires d > 0.0 && q == n / d && r - 0.5 <= q < r + 0.5
    ensures 2.0 * (d * r) - d <= 2.0 * n < 2.0 * (d * r) + d
  {
    var low, high := q - r + 0.5, r + 0.5 - q;
    PositiveProduct(d, low);
    PositiveProduct(d, high);
    assert q * d == n;
    assert d * low == n - d * r + 0.5 * d;
    assert d * high == d * r + 0.5 * d - n;
    assert n < d * r + 0.5 * d;
  }

  lemma PositiveProduct(a: real, b: real)
    requires a > 0.0 && b >= 0.0
    ensures a * b >= 0.0
    ensures b > 0.0 ==> a * b > 0.0
  {
  }

  /** Rounding keeps a share between nothing and the whole. */
  lemma RoundDivWithin(n: int, d: int, top: int)
    requires d > 0 && 0 <= n <= top * d
    ensures 0 <= RoundDiv(n, d) <= top
  {
    MulStep(d, RoundDiv(n, d), 0);
    MulStep(d, top, RoundDiv(n, d));
    assert top * d == d * top;
  }

  lemma RoundDivExact(q: int, d: int)
    requires d > 0
    ensures RoundDiv(q * d, d) == q
  {
    assert d * q == q * d;
    RoundDivUnique(q * d, d, q);
  }
}
