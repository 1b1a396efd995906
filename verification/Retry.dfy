/** How long the loop waits before it asks the provider again (`backoff_delay`).
    Durations are nanoseconds. */
module Retry {
  import opened Wrappers

  /** Retries after the first attempt of one request. */
  const MAX_PROVIDER_RETRIES: nat := 4

  const MILLISECOND: nat := 1_000_000
  const MAX_BACKOFF: nat := 30_000 * MILLISECOND
  const MAX_RETRY_AFTER: nat := 60_000 * MILLISECOND

  /** What the classifiers say of a provider failure. */
  datatype Failure = Failure(overflow: bool, retryable: bool, retryAfter: Option<nat>)

  function Min(a: nat, b: nat): nat { if a < b then a else b }

  function Power2(n: nat): (p: nat)
    ensures p >= 1
  {
    if n == 0 then 1 else 2 * Power2(n - 1)
  }

  /** The exponential part, before jitter. */
  function Exponential(base: nat, attempt: nat): nat {
    Min(base * Power2(Min(if attempt > 0 then attempt - 1 else 0, 16)), MAX_BACKOFF)
  }

  /** From the base on it doubles with every attempt, up to the seventeenth and up to
      the cap. */
  lemma ExponentialDoubles(base: nat, attempt: nat)
    ensures Exponential(base, 0) == Exponential(base, 1) == if base < MAX_BACKOFF then base else MAX_BACKOFF
    ensures 0 < attempt < 17 ==>
              Exponential(base, attempt + 1) ==
              if 2 * Exponential(base, attempt) < MAX_BACKOFF then 2 * Exponential(base, attempt) else MAX_BACKOFF
    ensures attempt >= 17 ==> Exponential(base, attempt + 1) == Exponential(base, attempt)
  {
    if 0 < attempt < 17 {
      Doubled(base, Power2(attempt - 1));
    }
  }

  lemma Doubled(base: nat, p: nat)
    ensures base * (2 * p) == 2 * (base * p)
  {}

  /** `random` is the draw behind the jitter. */
  function BackoffDelay(base: nat, attempt: nat, retryAfter: Option<nat>, random: nat): (delay: nat)
    ensures retryAfter.Some? && retryAfter.value <= MAX_RETRY_AFTER ==> delay == retryAfter.value
    ensures retryAfter.Some? && retryAfter.value > MAX_RETRY_AFTER ==> delay == MAX_RETRY_AFTER
    ensures retryAfter.None? ==> Exponential(base, attempt) / 2 <= delay <= Exponential(base, attempt) <= MAX_BACKOFF
    ensures base == 0 && retryAfter.None? ==> delay == 0
  {
    if retryAfter.Some? then Min(retryAfter.value, MAX_RETRY_AFTER)
    else
      var half := Exponential(base, attempt) / 2;
      var jitter := half / MILLISECOND;
      half + if jitter == 0 then 0 else random % (jitter + 1) * MILLISECOND
  }

  /** Without a hint from the provider, a later retry never waits less than half
      of what an earlier one at most waited. */
  lemma DelaysGrow(base: nat, attempt: nat, later: nat, random: nat, draw: nat)
    requires attempt <= later
    ensures BackoffDelay(base, later, None, draw) >= BackoffDelay(base, attempt, None, random) / 2
  {
    ExponentialGrows(base, attempt, later);
  }

  lemma ExponentialGrows(base: nat, attempt: nat, later: nat)
    requires attempt <= later
    ensures Exponential(base, attempt) <= Exponential(base, later)
  {
    hide Power2;
    var m, n := Min(if attempt > 0 then attempt - 1 else 0, 16), Min(if later > 0 then later - 1 else 0, 16);
    Power2Grows(m, n);
    TimesGrows(base, Power2(m), Power2(n));
  }

  lemma {:induction false} Power2Grows(m: nat, n: nat)
    requires m <= n
    ensures Power2(m) <= Power2(n)
  {
    if m < n {
      Power2Grows(m, n - 1);
    }
  }

  lemma {:induction false} TimesGrows(base: nat, p: nat, q: nat)
    requires p <= q
    ensures base * p <= base * q
  {
    if p < q {
      TimesGrows(base, p, q - 1);
      OneMoreTime(base, q - 1);
    }
  }

  lemma OneMoreTime(base: nat, q: nat)
    ensures base * (q + 1) == base * q + base
  {}
}
