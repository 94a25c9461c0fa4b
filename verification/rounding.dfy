/**
 * `.round(2)` on the cluster score metric (generate_wallet_scores.py line 83):
 * NumPy rounds `x * 100` to the nearest integer, ties to even, and divides
 * by 100. Here the arithmetic is exact.
 */
module Rounding {

  /** The nearest integer to `x`; a value exactly halfway goes to the even neighbour. */
  function RoundHalfEven(x: real): (n: int)
    ensures -0.5 <= n as real - x <= 0.5
    ensures n as real - x == 0.5 || n as real - x == -0.5 ==> n % 2 == 0
  {
    var f := x.Floor;
    var frac := x - f as real;
    if frac < 0.5 then f
    else if frac > 0.5 then f + 1
    else if f % 2 == 0 then f
    else f + 1
  }

  /** Rounding to the nearest integer never reverses the order of two values. */
  lemma RoundHalfEvenMonotone(x: real, y: real)
    requires x <= y
    ensures RoundHalfEven(x) <= RoundHalfEven(y)
  {
    var fx, fy := x.Floor, y.Floor;
    if fx < fy {
      assert RoundHalfEven(x) <= fx + 1 <= fy <= RoundHalfEven(y);
    }
  }

  /** A value rounded to two decimals: a whole number of hundredths. */
  function Round2(x: real): (r: real)
    ensures -0.005 <= r - x <= 0.005
    ensures (r * 100.0).Floor as real == r * 100.0
    ensures r - x == 0.005 || x - r == 0.005 ==> (r * 100.0).Floor % 2 == 0
  {
    RoundHalfEven(x * 100.0) as real / 100.0
  }

  /** Rounding to two decimals never reverses the order of two values. */
  lemma Round2Monotone(x: real, y: real)
    requires x <= y
    ensures Round2(x) <= Round2(y)
  {
    RoundHalfEvenMonotone(x * 100.0, y * 100.0);
  }

  /** Two different metrics can round to the same value, so they then tie. */
  lemma Round2Merges()
    ensures Round2(0.001) == Round2(0.004) == 0.0
  {
    assert (0.1).Floor == 0;
    assert (0.4).Floor == 0;
  }

  /** A halfway value goes to the even hundredth: 0.125 rounds down, 0.375 up. */
  lemma Round2TiesToEven()
    ensures Round2(0.125) == 0.12
    ensures Round2(0.375) == 0.38
  {
    assert (12.5).Floor == 12;
    assert (37.5).Floor == 37;
  }
}
