/**
 * The resend cooldown of the login page: a counter set to 60 that a one-second
 * interval callback counts down, the callback clearing its own interval once the
 * counter runs out.
 */
module Cooldown {

  /** The seconds a user waits before another code can be requested. */
  const ResendCooldown := 60

  /**
   * One interval callback, `prev <= 1 ? 0 : prev - 1`. It never goes below zero,
   * strictly decreases a positive counter, and yields zero exactly when the
   * callback also clears its interval.
   */
  function Tick(prev: int): (next: int)
    ensures next >= 0
    ensures prev > 0 ==> next < prev
    ensures next == 0 <==> prev <= 1
    ensures next > 0 ==> next == prev - 1
  {
    if prev <= 1 then 0 else prev - 1
  }

  /** The callback clears its interval on this tick. */
  predicate ClearsInterval(prev: int)
  {
    prev <= 1
  }

  /** The counter after `k` ticks starting from `start`. */
  function AfterTicks(start: int, k: nat): int
  {
    if k == 0 then start else Tick(AfterTicks(start, k - 1))
  }

  /** After `k` ticks a non-negative counter stands at `start - k`, or at zero once that is used up. */
  lemma {:induction false} AfterTicksValue(start: int, k: nat)
    requires start >= 0
    ensures AfterTicks(start, k) == if k <= start then start - k else 0
  {
    if k > 0 {
      AfterTicksValue(start, k - 1);
    }
  }

  /** Ticking a counter that has reached zero leaves it at zero. */
  lemma ZeroIsStable(k: nat)
    ensures AfterTicks(0, k) == 0
  {
    AfterTicksValue(0, k);
  }

  /**
   * From a fresh cooldown the counter is still positive after 59 ticks and the
   * 60th tick brings it to zero and clears the interval.
   */
  lemma FullCooldown()
    ensures AfterTicks(ResendCooldown, ResendCooldown - 1) == 1
    ensures ClearsInterval(AfterTicks(ResendCooldown, ResendCooldown - 1))
    ensures AfterTicks(ResendCooldown, ResendCooldown) == 0
    ensures forall k: nat :: k < ResendCooldown ==> AfterTicks(ResendCooldown, k) > 0
  {
    forall k: nat | k <= ResendCooldown ensures AfterTicks(ResendCooldown, k) == ResendCooldown - k {
      AfterTicksValue(ResendCooldown, k);
    }
  }
}
