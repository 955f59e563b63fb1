/**
 * Exact model of `Number.prototype.toFixed(2)` as used by the search: the
 * value is rounded to the nearest hundredth, a tie going upwards.
 * Binary floating point is not modelled: the argument is an exact real.
 */
module Rounding {

  /**
   * The number of hundredths nearest to a non-negative x, ties upwards:
   * the digits toFixed(2) prints, read without the decimal point.
   */
  function Hundredths(x: real): (n: int)
    requires x >= 0.0
    ensures n >= 0
    ensures n as real - 0.5 <= x * 100.0 < n as real + 0.5
  {
    (x * 100.0 + 0.5).Floor
  }

  /**
   * toFixed(2) of a non-negative value (the search only rounds products of
   * positive quantities).
   */
  function Round2(x: real): (r: real)
    requires x >= 0.0
    ensures r >= 0.0 && r - 0.005 <= x < r + 0.005
  {
    Hundredths(x) as real / 100.0
  }

  /** r is a whole number of hundredths, i.e. what a two-decimal string denotes. */
  predicate IsHundredths(r: real)
  {
    (r * 100.0).Floor as real == r * 100.0
  }

  /** Every rounded value has exactly two decimals. */
  lemma Round2Hundredths(x: real)
    requires x >= 0.0
    ensures IsHundredths(Round2(x))
  {
    var n := Hundredths(x);
    assert Round2(x) * 100.0 == n as real;
    assert (n as real).Floor == n;
  }

  /** The rounding of a non-negative x is the only hundredth in [x - 0.005, x + 0.005). */
  lemma Round2Unique(x: real, y: real)
    requires x >= 0.0 && IsHundredths(y)
    requires y - 0.005 <= x < y + 0.005
    ensures Round2(x) == y
  {
    var n, m := Hundredths(x), (y * 100.0).Floor;
    assert Round2(x) * 100.0 == n as real && m as real == y * 100.0;
    assert -1 < n - m < 1;
  }

  /** Rounding a value that already has two decimals gives it back. */
  lemma Round2Exact(y: real)
    requires y >= 0.0 && IsHundredths(y)
    ensures Round2(y) == y
  {
    Round2Unique(y, y);
  }

  /** Rounding twice is rounding once. */
  lemma Round2Idempotent(x: real)
    requires x >= 0.0
    ensures Round2(Round2(x)) == Round2(x)
  {
    Round2Hundredths(x);
    Round2Exact(Round2(x));
  }

  /** Rounding never reverses the order of two non-negative values. */
  lemma Round2Monotone(x: real, y: real)
    requires 0.0 <= x <= y
    ensures Round2(x) <= Round2(y)
  {
    assert Hundredths(x) < Hundredths(y) + 1;
  }
}
