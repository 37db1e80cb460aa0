/**
 * Reconnect backoff shared by the three telemetry views:
 * the delay before the next attempt is `min(10000, 1000 * 2^retry)` milliseconds.
 */
module Backoff {

  const BaseDelayMs: nat := 1000
  const MaxDelayMs: nat := 10000

  function Pow2(n: nat): (r: nat)
    ensures r >= 1
  {
    if n == 0 then 1 else 2 * Pow2(n - 1)
  }

  function Min(a: int, b: int): int {
    if a <= b then a else b
  }

  /** The timeout `handleReconnect` passes to `setTimeout` for retry counter `retry`. */
  function Delay(retry: nat): (d: nat)
    ensures BaseDelayMs <= d <= MaxDelayMs
  {
    Min(MaxDelayMs, BaseDelayMs * Pow2(retry))
  }

  lemma {:induction false} Pow2Monotone(i: nat, j: nat)
    requires i <= j
    ensures Pow2(i) <= Pow2(j)
    decreases j
  {
    if i < j {
      Pow2Monotone(i, j - 1);
    }
  }

  /** The first delays are 1 s, 2 s, 4 s and 8 s. */
  lemma DelaySchedule()
    ensures Delay(0) == 1000 && Delay(1) == 2000 && Delay(2) == 4000 && Delay(3) == 8000
  {
    assert Pow2(1) == 2;
    assert Pow2(2) == 4;
    assert Pow2(3) == 8;
  }

  /** From the fifth attempt on the delay stays at the 10 s cap. */
  lemma DelayCapped(retry: nat)
    requires retry >= 4
    ensures Delay(retry) == MaxDelayMs
  {
    assert Pow2(4) == 16;
    Pow2Monotone(4, retry);
  }

  /** A larger retry counter never gives a shorter delay. */
  lemma DelayMonotone(i: nat, j: nat)
    requires i <= j
    ensures Delay(i) <= Delay(j)
  {
    Pow2Monotone(i, j);
  }

  /** Each delay is the previous one doubled, up to the cap. */
  lemma DelayDoubles(retry: nat)
    ensures Delay(retry + 1) == Min(MaxDelayMs, 2 * Delay(retry))
  {
    assert Pow2(retry + 1) == 2 * Pow2(retry);
  }

  /** Below the cap the delay is exactly 1000 * 2^retry. */
  lemma DelayUncapped(retry: nat)
    requires retry <= 3
    ensures Delay(retry) == BaseDelayMs * Pow2(retry)
  {
    Pow2Monotone(retry, 3);
    assert Pow2(3) == 8;
  }
}
