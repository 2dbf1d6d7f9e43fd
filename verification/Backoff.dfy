/**
 The retry schedule of a dead-letter event: exponential backoff, the second
 precision at which its due time is stored, and the delay asked of the broker
 for an event that is not due yet.
 */
module Backoff {
  import opened Prelude

  const SECOND := 1_000_000_000
  const MAX_DURATION := 0x7FFF_FFFF_FFFF_FFFF
  const MIN_DURATION := -0x8000_0000_0000_0000
  const EXPONENT_CAP := 40

  // What converting an out-of-range float64 to int64 yields depends on the
  // processor architecture.
  datatype FloatOverflow = WrapsToMinimum | Saturates

  datatype Schedule = Schedule(
    interval: int,
    base: int,
    multiplier: real,
    max: int,
    overflow: FloatOverflow
  ) {
    // The settings under which the schedule is meant to be used.
    ghost predicate Sensible() {
      base >= 0 && MAX_DURATION >= max >= 0 && multiplier >= 1.0
    }
  }

  function Pow(m: real, k: nat): real {
    if k == 0 then 1.0 else m * Pow(m, k - 1)
  }

  // Conversion of a float64 to a duration: truncation toward zero in range.
  function ToDuration(x: real, overflow: FloatOverflow): int {
    if x >= (MAX_DURATION + 1) as real || x <= (MIN_DURATION - 1) as real then
      if overflow == WrapsToMinimum then MIN_DURATION
      else if x > 0.0 then MAX_DURATION else MIN_DURATION
    else if x >= 0.0 then x.Floor
    else -(-x).Floor
  }

  function CalculateBackoff(s: Schedule, retryCount: nat): int {
    if retryCount > EXPONENT_CAP then s.max
    else
      Capped(s, Product(s, retryCount))
  }

  // A negative duration can only be an overflow, so it means the maximum too.
  function Capped(s: Schedule, product: real): int {
    var backoff := ToDuration(product, s.overflow);
    if backoff > s.max || backoff < 0 then s.max else backoff
  }

  // Times are stored as RFC 3339 with whole seconds.
  function Stored(t: int): int {
    t - t % SECOND
  }

  // The redelivery delay of an event whose backoff has not expired.
  function DeferralDelay(s: Schedule, nextRetryAfter: Option<int>, clock: int): int {
    var delay :=
      if nextRetryAfter.Some? && nextRetryAfter.value - clock > 0 then nextRetryAfter.value - clock
      else s.base;
    if delay > s.interval then s.interval else delay
  }

  predicate BackoffExpired(nextRetryAfter: Option<int>, now: int) {
    nextRetryAfter.None? || now > nextRetryAfter.value
  }

  lemma {:induction false} PowAtLeastOne(m: real, k: nat)
    requires m >= 1.0
    ensures Pow(m, k) >= 1.0
  {
    if k > 0 {
      PowAtLeastOne(m, k - 1);
    }
  }

  lemma {:induction false} PowMonotone(m: real, k: nat, l: nat)
    requires m >= 1.0 && k <= l
    ensures Pow(m, k) <= Pow(m, l)
    decreases l - k
  {
    if k < l {
      PowAtLeastOne(m, k);
      PowMonotone(m, k + 1, l);
    }
  }

  function Product(s: Schedule, retryCount: nat): real {
    s.base as real * Pow(s.multiplier, retryCount)
  }

  lemma ProductMonotone(s: Schedule, k: nat, l: nat)
    requires s.Sensible() && k <= l
    ensures 0.0 <= Product(s, k) <= Product(s, l)
  {
    var a, x, y := s.base as real, Pow(s.multiplier, k), Pow(s.multiplier, l);
    PowMonotone(s.multiplier, k, l);
    PowAtLeastOne(s.multiplier, k);
    assert a * (y - x) >= 0.0;
  }

  // The wait is never negative and never above the configured maximum.
  lemma BackoffBounded(s: Schedule, retryCount: nat)
    requires s.Sensible()
    ensures 0 <= CalculateBackoff(s, retryCount) <= s.max
  {
  }

  // More retries never shorten the wait, also across the exponent cap and when
  // the product leaves the int64 range on either architecture.
  lemma BackoffMonotone(s: Schedule, k: nat, l: nat)
    requires s.Sensible() && k <= l
    ensures CalculateBackoff(s, k) <= CalculateBackoff(s, l)
  {
    BackoffBounded(s, k);
    if l <= EXPONENT_CAP {
      ProductMonotone(s, k, l);
    }
  }

  function IntPow(m: nat, k: nat): nat {
    if k == 0 then 1 else m * IntPow(m, k - 1)
  }

  lemma {:induction false} PowIsInt(m: nat, k: nat)
    ensures Pow(m as real, k) == IntPow(m, k) as real
  {
    if k > 0 {
      PowIsInt(m, k - 1);
    }
  }

  lemma CappedIs(s: Schedule, product: real)
    requires MAX_DURATION >= s.max >= 0 && product >= 0.0
    ensures Capped(s, product) == if product.Floor > s.max then s.max else product.Floor
  {
  }

  // The wait is the documented one: base * multiplier^retryCount in whole
  // nanoseconds, up to the maximum, and the maximum beyond 40 retries.
  lemma BackoffExact(s: Schedule, retryCount: nat, product: real)
    requires s.Sensible() && product == s.base as real * Pow(s.multiplier, retryCount)
    ensures CalculateBackoff(s, retryCount) == if retryCount > 40 || product.Floor > s.max then s.max else product.Floor
  {
    var same := ProductIs(s, retryCount, product);
    if retryCount <= 40 {
      CappedIs(s, same);
    }
  }

  lemma ProductIs(s: Schedule, retryCount: nat, product: real) returns (same: real)
    requires s.Sensible() && product == s.base as real * Pow(s.multiplier, retryCount)
    ensures same == product == Product(s, retryCount) && same >= 0.0
  {
    ProductMonotone(s, 0, retryCount);
    same := product;
  }

  lemma WholeProduct(a: int, x: int, y: real)
    requires y == x as real
    ensures a as real * y == (a * x) as real
  {
  }

  // With a whole multiplier it is exact; by default one minute doubles ten
  // times and then stays at a day.
  lemma BackoffDoubles(s: Schedule, m: nat, retryCount: nat)
    requires s.Sensible() && s.multiplier == m as real && retryCount <= 40
    ensures CalculateBackoff(s, retryCount) ==
      if s.base * IntPow(m, retryCount) > s.max then s.max else s.base * IntPow(m, retryCount)
  {
    PowIsInt(m, retryCount);
    var product := s.base * IntPow(m, retryCount);
    WholeProduct(s.base, IntPow(m, retryCount), Pow(s.multiplier, retryCount));
    BackoffExact(s, retryCount, product as real);
  }

  lemma {:induction false} TwoToTheEleventh(k: nat)
    ensures IntPow(2, 10) == 1024
    ensures k >= 11 ==> IntPow(2, k) >= 2048
  {
    assert IntPow(2, 5) == 2 * IntPow(2, 4) == 4 * IntPow(2, 3) == 8 * IntPow(2, 2) == 16 * IntPow(2, 1) == 32;
    assert IntPow(2, 10) == 2 * IntPow(2, 9) == 4 * IntPow(2, 8) == 8 * IntPow(2, 7) == 16 * IntPow(2, 6) == 32 * IntPow(2, 5);
    assert IntPow(2, 11) == 2 * IntPow(2, 10);
    if k > 11 {
      TwoToTheEleventh(k - 1);
    }
  }

  lemma {:induction false} IntPowMonotone(k: nat, l: nat)
    requires k <= l
    ensures IntPow(2, k) <= IntPow(2, l)
    decreases l - k
  {
    if k < l {
      IntPowMonotone(k + 1, l);
    }
  }

  lemma DefaultWaits(s: Schedule, retryCount: nat)
    requires s.base == 60_000_000_000 && s.multiplier == 2.0 && s.max == 86_400_000_000_000
    ensures CalculateBackoff(s, retryCount) == if retryCount <= 10 then 60_000_000_000 * IntPow(2, retryCount) else 86_400_000_000_000
  {
    if retryCount <= 40 {
      BackoffDoubles(s, 2, retryCount);
      TwoToTheEleventh(retryCount);
      if retryCount <= 10 {
        IntPowMonotone(retryCount, 10);
      }
      WithinDay(retryCount, IntPow(2, retryCount), CalculateBackoff(s, retryCount));
    } else {
      BeyondCap(s, retryCount);
    }
  }

  lemma WithinDay(k: nat, p: nat, wait: int)
    requires if k <= 10 then p <= 1024 else p >= 2048
    requires wait == if 60_000_000_000 * p > 86_400_000_000_000 then 86_400_000_000_000 else 60_000_000_000 * p
    ensures wait == if k <= 10 then 60_000_000_000 * p else 86_400_000_000_000
  {
  }

  lemma BeyondCap(s: Schedule, retryCount: nat)
    requires retryCount > 40
    ensures CalculateBackoff(s, retryCount) == s.max
  {
  }

  // A time is stored as the second it lies in.
  lemma StoredSecond(t: int)
    ensures Stored(t) % 1_000_000_000 == 0 && Stored(t) <= t < Stored(t) + 1_000_000_000
  {
  }

  // With a multiplier below one the schedule does shrink.
  lemma BackoffShrinksBelowOne()
    ensures var s := Schedule(1, 4, 0.5, 100, Saturates);
            CalculateBackoff(s, 1) > CalculateBackoff(s, 2)
  {
    var m := 0.5;
    assert Pow(m, 1) == 0.5 * Pow(m, 0) == 0.5;
    assert Pow(m, 2) == 0.5 * Pow(m, 1) == 0.25;
    assert 4.0 * 0.5 == 2.0 && 4.0 * 0.25 == 1.0;
  }

  // An event deferred by the periodic drain comes back after a positive delay
  // and within one polling interval, so a policy fix is never hidden for longer.
  // It comes back when it is due, or else after a whole interval; if it fell due
  // while its batch was handled, after the base wait.
  lemma DeferralWithinInterval(s: Schedule, nextRetryAfter: Option<int>, clock: int)
    requires s.base > 0 && s.interval > 0
    ensures 0 < DeferralDelay(s, nextRetryAfter, clock) <= s.interval
    ensures nextRetryAfter.Some? && clock < nextRetryAfter.value ==>
              clock + DeferralDelay(s, nextRetryAfter, clock) <= nextRetryAfter.value
    ensures nextRetryAfter.Some? && clock < nextRetryAfter.value && DeferralDelay(s, nextRetryAfter, clock) < s.interval ==>
              clock + DeferralDelay(s, nextRetryAfter, clock) == nextRetryAfter.value
    ensures nextRetryAfter.Some? && nextRetryAfter.value <= clock ==>
              DeferralDelay(s, nextRetryAfter, clock) == if s.base < s.interval then s.base else s.interval
  {
  }

  // Second-precision storage lets an event become due less than a second
  // early, and never after more than the full wait.
  lemma StoredBackoffDue(s: Schedule, retryCount: nat, failedAt: int, now: int)
    requires s.Sensible()
    ensures BackoffExpired(Some(Stored(failedAt + CalculateBackoff(s, retryCount))), now) ==>
              now > failedAt + CalculateBackoff(s, retryCount) - SECOND
    ensures now > failedAt + CalculateBackoff(s, retryCount) ==>
              BackoffExpired(Some(Stored(failedAt + CalculateBackoff(s, retryCount))), now)
  {
  }
}
