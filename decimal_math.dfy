/**
 * The part of java.math.BigDecimal arithmetic the services rely on. Amounts are
 * exact rationals: `add`, `subtract` and `multiply` of BigDecimals are exact.
 * The one rounding operation, `divide(divisor, 4, RoundingMode.HALF_UP)`, is
 * written out here.
 */
module DecimalMath {
  /**
   * The unscaled value of `x` rounded to four fractional digits with HALF_UP:
   * `x * 10000` moved to the nearest integer, a tie going away from zero.
   */
  function Round4(x: real): (k: int)
    ensures x >= 0.0 ==> k >= 0 && (k as real) - 0.5 <= x * 10000.0 < (k as real) + 0.5
    ensures x < 0.0 ==> k <= 0 && (k as real) - 0.5 < x * 10000.0 <= (k as real) + 0.5
  {
    if x >= 0.0 then (x * 10000.0 + 0.5).Floor else -((-x) * 10000.0 + 0.5).Floor
  }

  /** Rounding never reverses the order of two quotients. */
  lemma Round4Monotone(x: real, y: real)
    requires x <= y
    ensures Round4(x) <= Round4(y)
  {
    var kx, ky := Round4(x), Round4(y);
    if x >= 0.0 || y < 0.0 {
      assert (kx as real) - 0.5 <= x * 10000.0 && y * 10000.0 <= (ky as real) + 0.5;
      assert x * 10000.0 <= y * 10000.0;
    }
  }

  /** A quotient that already has at most four fractional digits is left as it is. */
  lemma Round4Exact(k: int)
    ensures Round4((k as real) / 10000.0) == k
  {
  }

  /**
   * `n.divide(d, 4, HALF_UP).multiply(100)`: the ratio `n / d` rounded half-up
   * to four places and shown as a percentage. It is within 0.005 percentage
   * points of the exact percentage and is a whole number of hundredths.
   */
  function RatePercent(n: real, d: real): (p: real)
    requires d != 0.0
    ensures -0.005 <= p - 100.0 * (n / d) <= 0.005
    ensures (p * 100.0).Floor as real == p * 100.0
  {
    (Round4(n / d) as real) / 100.0
  }

  /** A factor of a non-negative product with a positive factor is non-negative. */
  lemma FactorSign(a: real, c: real)
    requires c > 0.0 && a * c >= 0.0
    ensures a >= 0.0
  {
  }

  /** A numerator of zero gives a rate of exactly zero. */
  lemma RatePercentOfZero(d: real)
    requires d != 0.0
    ensures RatePercent(0.0, d) == 0.0
  {
  }

  /** Reaching the divisor is shown as at least 100 percent, and staying under it as at most 100. */
  lemma RatePercentAgainstWhole(n: real, d: real)
    requires d > 0.0
    ensures n >= d ==> RatePercent(n, d) >= 100.0
    ensures 0.0 <= n <= d ==> 0.0 <= RatePercent(n, d) <= 100.0
  {
    if n >= d {
      var q := n / d;
      assert (q - 1.0) * d == n - d;
      FactorSign(q - 1.0, d);
      Round4Monotone(1.0, q);
      Round4Exact(10000);
    }
    if 0.0 <= n <= d {
      var q := n / d;
      assert (1.0 - q) * d == d - n;
      FactorSign(1.0 - q, d);
      Round4Monotone(n / d, 1.0);
      Round4Exact(10000);
      Round4Monotone(0.0, n / d);
      Round4Exact(0);
    }
  }
}
