/** Python's built-in round(x, n) on values held exactly: the nearest multiple of 10^-n, a
    value exactly half-way going to the even neighbour. */
module Rounding {

  /** round(y): the nearest integer, a tie going to the even one. */
  function RoundHalfEven(y: real): (k: int)
    ensures -0.5 <= k as real - y <= 0.5
    ensures (k as real - y == 0.5 || y - k as real == 0.5) ==> k % 2 == 0
  {
    var f := y.Floor;
    var frac := y - f as real;
    if frac < 0.5 then f
    else if frac > 0.5 then f + 1
    else if f % 2 == 0 then f
    else f + 1
  }

  /** The two properties above leave no choice: any integer meeting them is round(y). */
  lemma RoundHalfEvenUnique(y: real, k: int)
    requires -0.5 <= k as real - y <= 0.5
    requires (k as real - y == 0.5 || y - k as real == 0.5) ==> k % 2 == 0
    ensures k == RoundHalfEven(y)
  {
  }

  /** An integer is its own rounding. */
  lemma RoundHalfEvenOfInt(k: int)
    ensures RoundHalfEven(k as real) == k
  {
    RoundHalfEvenUnique(k as real, k);
  }

  /** Rounding never reverses the order of two values. */
  lemma RoundHalfEvenMonotone(x: real, y: real)
    requires x <= y
    ensures RoundHalfEven(x) <= RoundHalfEven(y)
  {
  }

  /** round(x, 1). */
  function Round1(x: real): (r: real)
    ensures -0.05 <= r - x <= 0.05
  {
    RoundHalfEven(x * 10.0) as real / 10.0
  }

  /** round(x, 2). */
  function Round2(x: real): (r: real)
    ensures -0.005 <= r - x <= 0.005
  {
    RoundHalfEven(x * 100.0) as real / 100.0
  }

  /** A whole number of hundredths is left as it is by round(x, 2). */
  lemma Round2OfHundredths(k: int)
    ensures Round2(k as real / 100.0) == k as real / 100.0
  {
    assert (k as real / 100.0) * 100.0 == k as real;
    RoundHalfEvenOfInt(k);
  }

  lemma Round2Monotone(x: real, y: real)
    requires x <= y
    ensures Round2(x) <= Round2(y)
  {
    RoundHalfEvenMonotone(x * 100.0, y * 100.0);
  }

  /** round(x, 1) of a non-negative value is 0.0 exactly when the value is at most 0.05
      (0.05 itself is a tie and goes to the even 0). */
  lemma Round1IsZero(x: real)
    requires x >= 0.0
    ensures Round1(x) == 0.0 <==> x <= 0.05
  {
    var k := RoundHalfEven(x * 10.0);
    if x <= 0.05 {
      RoundHalfEvenUnique(x * 10.0, 0);
    } else {
      assert k >= 1;
    }
  }
}
