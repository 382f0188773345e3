/**
 * The probe backoff: the delay before the next probe tick grows with the square of the
 * number of consecutive probe cycles that saw no change, and is capped at one minute.
 */
module Backoff {
  import opened JavaInt

  const MULTIPLIER_MS: int := 20
  const MAX_DELAY_MS: int := 60000

  /** The largest counter whose `counter * counter * 20` still fits in a Java `int`. */
  const LAST_SAFE_COUNTER: int := 10362

  /**
   * The delay the scheduler uses: the quadratic backoff computed without overflow,
   * clipped to the maximum. It is the smaller of the two bounds and equals one of them.
   */
  function Delay(counter: int32): (d: int)
    ensures 0 <= d <= MAX_DELAY_MS
    ensures d <= counter as int * counter as int * MULTIPLIER_MS
    ensures d == MAX_DELAY_MS || d == counter as int * counter as int * MULTIPLIER_MS
  {
    var c := counter as int;
    var raw := c * c * MULTIPLIER_MS;
    if raw > MAX_DELAY_MS then MAX_DELAY_MS else raw
  }

  /**
   * `getDelay` exactly as the Java source computes it: the product is formed in 32-bit `int`
   * arithmetic (so it wraps) and only then widened to `long` and compared with the cap.
   */
  function DelayAsWritten(counter: int32): (d: int)
    ensures d <= MAX_DELAY_MS
  {
    var product := Mul(Mul(counter, counter), MULTIPLIER_MS as int32);
    if product as int > MAX_DELAY_MS then MAX_DELAY_MS else product as int
  }

  lemma SquareMonotone(a: int, b: int)
    requires 0 <= a <= b
    ensures a * a <= b * b
  {
    assert a * a <= a * b;
  }

  function Abs(x: int): nat
  {
    if x < 0 then -x else x
  }

  /** The delay never shrinks as the counter grows away from zero. */
  lemma DelayMonotone(a: int32, b: int32)
    requires Abs(a as int) <= Abs(b as int)
    ensures Delay(a) <= Delay(b)
  {
    SquareMonotone(Abs(a as int), Abs(b as int));
    assert Abs(a as int) * Abs(a as int) == a as int * a as int;
    assert Abs(b as int) * Abs(b as int) == b as int * b as int;
  }

  /** The sample points of the backoff curve: 0, 20, 80, 180 ms for counters 0..3, 2 s at 10. */
  lemma DelaySamples()
    ensures Delay(0) == 0
    ensures Delay(1) == 20
    ensures Delay(2) == 80
    ensures Delay(3) == 180
    ensures Delay(10) == 2000
    ensures Delay(54) == 58320
  {
  }

  /** From a counter of 55 on (in either sign) the delay is pinned at the cap. */
  lemma DelayCapped(counter: int32)
    requires Abs(counter as int) >= 55
    ensures Delay(counter) == MAX_DELAY_MS
  {
    SquareMonotone(55, Abs(counter as int));
    assert Abs(counter as int) * Abs(counter as int) == counter as int * counter as int;
  }

  /** Below the cap the delay is exactly the quadratic term. */
  lemma DelayBelowCap(counter: int32)
    requires Abs(counter as int) <= 54
    ensures Delay(counter) == counter as int * counter as int * MULTIPLIER_MS
  {
    SquareMonotone(Abs(counter as int), 54);
    assert Abs(counter as int) * Abs(counter as int) == counter as int * counter as int;
  }

  /** While the product fits in an `int`, the Java computation agrees with the intended delay. */
  lemma AsWrittenAgreesWhileNoOverflow(counter: int32)
    requires Abs(counter as int) <= LAST_SAFE_COUNTER
    ensures DelayAsWritten(counter) == Delay(counter)
  {
    var c := counter as int;
    SquareMonotone(Abs(c), LAST_SAFE_COUNTER);
    assert Abs(c) * Abs(c) == c * c;
    var sq := Mul(counter, counter);
    assert sq as int == c * c;
    assert 0 <= c * c * MULTIPLIER_MS <= MAX;
    assert Mul(sq, MULTIPLIER_MS as int32) as int == c * c * MULTIPLIER_MS;
  }

  /** One step past the safe range the Java product wraps and `getDelay` returns a negative delay. */
  lemma AsWrittenOverflowsAt10363()
    ensures DelayAsWritten(10363) == -2147131916
    ensures DelayAsWritten(10363) < 0 < Delay(10363)
  {
    var sq := Mul(10363, 10363);
    assert sq as int == 107391769;
    assert 107391769 * 20 == 2147835380;
    assert Mul(sq, 20) as int == 2147835380 - MODULUS;
  }

}
