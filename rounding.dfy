/**
 * Rounding to two decimal places, the role Python's `round(x, 2)` plays in
 * the scoring engine. The model rounds exact reals half-up to the nearest
 * hundredth; it promises what the engine relies on (monotone, idempotent,
 * within half a hundredth, exact on hundredths) rather than the bit-exact
 * behaviour of binary floating point.
 */
module Rounding {

  /** The nearest hundredth of `x`, halves rounded up. */
  function Round2(x: real): (r: real)
    ensures x - 0.005 < r <= x + 0.005
  {
    var n := (x * 100.0 + 0.5).Floor;
    (n as real) / 100.0
  }

  /** A multiple of one hundredth is left as it is. */
  lemma Round2Exact(n: int)
    ensures Round2((n as real) / 100.0) == (n as real) / 100.0
  {
    var x := (n as real) / 100.0;
    assert x * 100.0 + 0.5 == (n as real) + 0.5;
    assert (x * 100.0 + 0.5).Floor == n;
  }

  /** Whole numbers are left as they are. */
  lemma Round2Integer(k: int)
    ensures Round2(k as real) == k as real
  {
    Round2Exact(k * 100);
    assert ((k * 100) as real) / 100.0 == k as real;
  }

  /** Rounding never reverses the order of two values. */
  lemma Round2Monotone(x: real, y: real)
    requires x <= y
    ensures Round2(x) <= Round2(y)
  {
    assert x * 100.0 + 0.5 <= y * 100.0 + 0.5;
    assert (x * 100.0 + 0.5).Floor <= (y * 100.0 + 0.5).Floor;
  }

  /** Rounding twice is rounding once. */
  lemma Round2Idempotent(x: real)
    ensures Round2(Round2(x)) == Round2(x)
  {
    Round2Exact((x * 100.0 + 0.5).Floor);
  }
}
