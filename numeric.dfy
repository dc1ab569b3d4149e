/**
 * Rounding as the two code bases use it on money and scores:
 * `parseFloat(x.toFixed(n))` in the browser engine, `round(x, n)` in the backend,
 * and `Math.round` for whole numbers.
 */
module Numeric {

  /** Rounds to the nearest integer, halves away from zero (the rule `toFixed` applies). */
  function RoundHalfAway(y: real): (n: int)
    ensures y - 0.5 <= n as real <= y + 0.5
  {
    if y >= 0.0 then (y + 0.5).Floor else -((-y + 0.5).Floor)
  }

  /** Two decimal places: money. */
  function Round2(x: real): (r: real)
    ensures x - 0.005 <= r <= x + 0.005
  {
    RoundHalfAway(x * 100.0) as real / 100.0
  }

  /** One decimal place: scores and percentages. */
  function Round1(x: real): (r: real)
    ensures x - 0.05 <= r <= x + 0.05
  {
    RoundHalfAway(x * 10.0) as real / 10.0
  }

  /** `Math.round`: nearest integer, halves towards positive infinity. */
  function JsMathRound(x: real): (n: int)
    ensures x - 0.5 < n as real <= x + 0.5
  {
    (x + 0.5).Floor
  }

  lemma RoundHalfAwayMonotone(y: real, z: real)
    requires y <= z
    ensures RoundHalfAway(y) <= RoundHalfAway(z)
  {
    if y >= 0.0 {
      assert (y + 0.5).Floor as real <= y + 0.5 <= z + 0.5 < (z + 0.5).Floor as real + 1.0;
    } else if z < 0.0 {
      assert (-z + 0.5).Floor as real <= -z + 0.5 <= -y + 0.5 < (-y + 0.5).Floor as real + 1.0;
    }
  }

  /** Rounding never reorders two values. */
  lemma Round2Monotone(x: real, y: real)
    requires x <= y
    ensures Round2(x) <= Round2(y)
  {
    RoundHalfAwayMonotone(x * 100.0, y * 100.0);
  }

  lemma Round1Monotone(x: real, y: real)
    requires x <= y
    ensures Round1(x) <= Round1(y)
  {
    RoundHalfAwayMonotone(x * 10.0, y * 10.0);
  }

  /** A whole number of cents is left as it is. */
  lemma Round2Cents(n: int)
    ensures Round2(n as real / 100.0) == n as real / 100.0
  {
    assert (n as real / 100.0) * 100.0 == n as real;
    if n >= 0 {
      assert (n as real + 0.5).Floor == n;
    } else {
      assert (-(n as real) + 0.5).Floor == -n;
    }
  }

  /** A whole number of tenths is left as it is. */
  lemma Round1Tenths(n: int)
    ensures Round1(n as real / 10.0) == n as real / 10.0
  {
    assert (n as real / 10.0) * 10.0 == n as real;
    if n >= 0 {
      assert (n as real + 0.5).Floor == n;
    } else {
      assert (-(n as real) + 0.5).Floor == -n;
    }
  }

  lemma Round2Integer(n: int)
    ensures Round2(n as real) == n as real
  {
    Round2Cents(n * 100);
    assert (n * 100) as real / 100.0 == n as real;
  }

  /** Rounding an amount already rounded to cents leaves it as it is. */
  lemma Round2Idempotent(x: real)
    ensures Round2(Round2(x)) == Round2(x)
  {
    Round2Cents(RoundHalfAway(x * 100.0));
  }

  function Min(a: real, b: real): (m: real)
    ensures m <= a && m <= b && (m == a || m == b)
  {
    if a <= b then a else b
  }
}
