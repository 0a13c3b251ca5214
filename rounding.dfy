/**
 * Python's built-in `round(x, 2)` over exact reals: the result is the
 * number with two decimals nearest to x, and a tie goes to the even
 * neighbour ("banker's rounding").
 */
module Rounding {

  /** The integer nearest to y; a tie goes to the even integer. */
  function RoundHalfEven(y: real): (n: int)
    ensures n as real - 0.5 <= y <= n as real + 0.5
    ensures (y == n as real - 0.5 || y == n as real + 0.5) ==> n % 2 == 0
  {
    var f := y.Floor;
    var frac := y - f as real;
    if frac < 0.5 then f
    else if frac > 0.5 then f + 1
    else if f % 2 == 0 then f
    else f + 1
  }

  /** The two properties above pin the rounded integer down. */
  lemma RoundHalfEvenUnique(y: real, m: int)
    requires m as real - 0.5 <= y <= m as real + 0.5
    requires (y == m as real - 0.5 || y == m as real + 0.5) ==> m % 2 == 0
    ensures m == RoundHalfEven(y)
  {
  }

  lemma RoundHalfEvenMonotone(x: real, y: real)
    requires x <= y
    ensures RoundHalfEven(x) <= RoundHalfEven(y)
  {
  }

  /** Python's `round(x, 2)`: x rounded to a multiple of 0.01. */
  function Round2(x: real): (r: real)
    ensures x - 0.005 <= r <= x + 0.005
    ensures (r * 100.0).Floor as real == r * 100.0
    ensures (x == r - 0.005 || x == r + 0.005) ==> (r * 100.0).Floor % 2 == 0
  {
    RoundHalfEven(x * 100.0) as real / 100.0
  }

  lemma Round2Monotone(x: real, y: real)
    requires x <= y
    ensures Round2(x) <= Round2(y)
  {
    RoundHalfEvenMonotone(x * 100.0, y * 100.0);
  }

  /** A value that already has at most two decimals is left as it is. */
  lemma Round2OfHundredths(k: int)
    ensures Round2(k as real / 100.0) == k as real / 100.0
  {
    var y := k as real / 100.0 * 100.0;
    assert y == k as real;
    RoundHalfEvenUnique(y, k);
  }

  /** Rounding never makes a non-negative value negative. */
  lemma Round2NonNegative(x: real)
    requires 0.0 <= x
    ensures 0.0 <= Round2(x)
  {
    assert RoundHalfEven(x * 100.0) >= 0;
  }

  /** Values below half a hundredth round to zero. */
  lemma Round2OfTiny(x: real)
    requires 0.0 <= x < 0.005
    ensures Round2(x) == 0.0
  {
    RoundHalfEvenUnique(x * 100.0, 0);
  }
}
