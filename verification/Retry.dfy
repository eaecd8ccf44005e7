/** Retry policies and backoff with 64-bit saturation (`retry.rs`). */
module Retry {
  import opened Prelude

  const TICKS_PER_SECOND: nat := 1_000_000_000
  const I64_MAX: nat := 0x7FFF_FFFF_FFFF_FFFF
  /** `chrono::Duration::seconds` panics beyond this many seconds. */
  const DURATION_MAX_SECONDS: nat := I64_MAX / 1000

  datatype BackoffStrategy =
    | Fixed(seconds: U64)
    | Exponential(baseSeconds: U64, maxSeconds: U64)
    | Linear(baseSeconds: U64, stepSeconds: U64, maxSeconds: U64)

  /** Attempts count from 1. */
  type Attempt = n: int | 1 <= n <= U32_MAX witness 1

  datatype RetryPolicy = RetryPolicy(maxAttempts: U32, backoff: BackoffStrategy)

  /** The outcome of asking for another attempt; `Panic` is chrono refusing the duration. */
  datatype NextAttempt = NoMore | RetryAt(at: Time) | Panic

  function Min(a: int, b: int): int {
    if a <= b then a else b
  }

  function Saturate(n: nat): U64 {
    Min(n, U64_MAX)
  }

  function SaturatingMul(a: U64, b: U64): U64 {
    Saturate(a * b)
  }

  function SaturatingAdd(a: U64, b: U64): U64 {
    Saturate(a + b)
  }

  function SaturatingPow(base: U64, exponent: nat): U64 {
    if exponent == 0 then 1 else SaturatingMul(base, SaturatingPow(base, exponent - 1))
  }

  /** The source's `attempt - 1` would underflow for a linear backoff at attempt 0. */
  function DelaySeconds(backoff: BackoffStrategy, attempt: Attempt): U64
  {
    match backoff
    case Fixed(seconds) => seconds
    case Exponential(base, max) =>
      Min(SaturatingMul(base, SaturatingPow(2, attempt - 1)), max)
    case Linear(base, step, max) =>
      Min(SaturatingAdd(base, SaturatingMul(step, attempt - 1)), max)
  }

  /** The cast `as i64`. */
  function AsI64(n: U64): int {
    if n <= I64_MAX then n else n - U64_MAX - 1
  }

  /** The seconds that chrono is asked for after a failed attempt. */
  function Wait(policy: RetryPolicy, attempt: Attempt): int {
    AsI64(DelaySeconds(policy.backoff, attempt))
  }

  predicate IsDuration(seconds: int) {
    0 - DURATION_MAX_SECONDS as int <= seconds <= DURATION_MAX_SECONDS
  }

  function NextRetryAt(policy: RetryPolicy, from: Time, attempt: Attempt): NextAttempt
  {
    if attempt >= policy.maxAttempts then NoMore
    else if IsDuration(Wait(policy, attempt)) then RetryAt(from + Wait(policy, attempt) * TICKS_PER_SECOND)
    else Panic
  }

  // ----- The formulas over the unbounded integers -----

  function Pow2(n: nat): (p: nat)
    ensures p >= 1
  {
    if n == 0 then 1 else 2 * Pow2(n - 1)
  }

  function ExactDelay(backoff: BackoffStrategy, attempt: nat): nat
    requires attempt >= 1
  {
    match backoff
    case Fixed(seconds) => seconds
    case Exponential(base, max) => Min(max, base * Pow2(attempt - 1))
    case Linear(base, step, max) => Min(max, base + step * (attempt - 1))
  }

  /** The cap of a strategy, if it has one. */
  function Cap(backoff: BackoffStrategy): nat {
    match backoff
    case Fixed(seconds) => seconds
    case Exponential(_, max) => max
    case Linear(_, _, max) => max
  }

  lemma {:induction false} PowSaturates(exponent: nat)
    ensures SaturatingPow(2, exponent) == Min(Pow2(exponent), U64_MAX)
  {
    if exponent > 0 {
      PowSaturates(exponent - 1);
    }
  }

  lemma MulMonotone(a: nat, b: nat, c: nat)
    requires b <= c
    ensures a * b <= a * c
  {
  }

  /** Saturating a factor changes nothing below the cap. */
  lemma SaturatesEnough(base: U64, max: U64, p: nat)
    ensures Min(SaturatingMul(base, Min(p, U64_MAX)), max) == Min(max, base * p)
  {
    if base > 0 && p > U64_MAX {
      MulMonotone(p, 1, base);
      MulMonotone(U64_MAX, 1, base);
    }
  }

  /** Saturating arithmetic never changes the delay, for any parameters. */
  lemma DelayIsExact(backoff: BackoffStrategy, attempt: Attempt)
    ensures DelaySeconds(backoff, attempt) == ExactDelay(backoff, attempt)
  {
    match backoff
    case Fixed(_) =>
    case Exponential(base, max) =>
      PowSaturates(attempt - 1);
      hide SaturatingPow, Pow2;
      SaturatesEnough(base, max, Pow2(attempt - 1));
    case Linear(base, step, max) =>
  }

  lemma {:induction false} Pow2Monotone(m: nat, n: nat)
    requires m <= n
    ensures Pow2(m) <= Pow2(n)
    decreases n
  {
    if m < n {
      Pow2Monotone(m, n - 1);
    }
  }

  /** Delays never shrink from one attempt to a later one, and respect the cap. */
  lemma DelayMonotone(backoff: BackoffStrategy, attempt: Attempt, later: Attempt)
    requires attempt <= later
    ensures DelaySeconds(backoff, attempt) <= DelaySeconds(backoff, later) <= Cap(backoff)
  {
    DelayIsExact(backoff, attempt);
    DelayIsExact(backoff, later);
    match backoff
    case Fixed(_) =>
    case Exponential(base, _) =>
      Pow2Monotone(attempt - 1, later - 1);
      MulMonotone(base, Pow2(attempt - 1), Pow2(later - 1));
    case Linear(_, step, _) =>
      MulMonotone(step, attempt - 1, later - 1);
  }

  // ----- One run's retries -----

  /** The time spent waiting if attempts `attempt`, `attempt + 1`, ... all fail, in seconds. */
  function TotalWait(policy: RetryPolicy, attempt: Attempt): nat
    decreases policy.maxAttempts - attempt
  {
    if attempt >= policy.maxAttempts then 0
    else DelaySeconds(policy.backoff, attempt) + TotalWait(policy, attempt + 1)
  }

  lemma OneMore(n: nat, c: nat)
    requires n > 0
    ensures n * c == (n - 1) * c + c
  {
  }

  /** All the waiting of one run is bounded by the cap times the number of retries. */
  lemma {:induction false} TotalWaitBound(policy: RetryPolicy, attempt: Attempt)
    ensures TotalWait(policy, attempt)
         <= if attempt >= policy.maxAttempts then 0 else (policy.maxAttempts - attempt) * Cap(policy.backoff)
    decreases policy.maxAttempts - attempt
  {
    if attempt < policy.maxAttempts {
      TotalWaitBound(policy, attempt + 1);
      DelayMonotone(policy.backoff, attempt, attempt);
      OneMore(policy.maxAttempts - attempt, Cap(policy.backoff));
    }
  }

  // ----- When the retry time is what the delay says -----

  /**
   A failed attempt below the limit is retried exactly its delay later if and only if the delay
   fits a chrono duration.
   */
  lemma RetryTimeExact(policy: RetryPolicy, from: Time, attempt: Attempt)
    ensures NextRetryAt(policy, from, attempt).NoMore? <==> attempt >= policy.maxAttempts
    ensures attempt < policy.maxAttempts ==>
      (NextRetryAt(policy, from, attempt) == RetryAt(from + DelaySeconds(policy.backoff, attempt) * TICKS_PER_SECOND)
       <==> DelaySeconds(policy.backoff, attempt) <= DURATION_MAX_SECONDS)
  {
  }

  /** A very long delay wraps around in the cast: the retry is due before the failure. */
  lemma LongDelayWraps(from: Time)
    ensures NextRetryAt(RetryPolicy(2, Fixed(U64_MAX)), from, 1) == RetryAt(from - TICKS_PER_SECOND)
  {
  }

  // ----- Retries that lie before the first attempt -----

  /** The delay casts to a negative number of seconds that chrono accepts. */
  predicate WaitsBackwards(policy: RetryPolicy, attempt: Attempt) {
    attempt < policy.maxAttempts && IsDuration(Wait(policy, attempt)) && Wait(policy, attempt) < 0
  }

  /**
   Attempts that fail at once lead to a retry before the first attempt: the first delay is negative, or
   the second outweighs it. A delay chrono refuses ends the run before.
   */
  predicate FiresEarly(policy: RetryPolicy) {
    && 1 < policy.maxAttempts && IsDuration(Wait(policy, 1))
    && (Wait(policy, 1) < 0
        || (2 < policy.maxAttempts && IsDuration(Wait(policy, 2)) && Wait(policy, 1) + Wait(policy, 2) < 0))
  }

  lemma CapDoubles(max: nat, m: nat, n: nat)
    requires m <= 2 * n
    ensures Min(max, m) <= 2 * Min(max, n)
  {
  }

  lemma PowerDoubles(base: nat, exponent: nat)
    ensures base * Pow2(exponent + 1) <= 2 * (base * Pow2(exponent))
  {
    assert base * (2 * Pow2(exponent)) == 2 * (base * Pow2(exponent));
  }

  lemma StepsDouble(base: nat, step: nat, n: nat)
    requires 1 <= n
    ensures base + step * (n + 1) <= 2 * (base + step * n)
  {
    MulMonotone(step, 1, n);
    assert step * (n + 1) == step * n + step;
  }

  /** From the second attempt on a delay at most doubles. */
  lemma DelayDoubles(backoff: BackoffStrategy, attempt: Attempt)
    requires 3 <= attempt
    ensures DelaySeconds(backoff, attempt) <= 2 * DelaySeconds(backoff, attempt - 1)
  {
    DelayIsExact(backoff, attempt);
    DelayIsExact(backoff, attempt - 1);
    hide DelaySeconds, Pow2, Min;
    match backoff
    case Fixed(_) =>
    case Exponential(base, max) =>
      PowerDoubles(base, attempt - 2);
      CapDoubles(max, base * Pow2(attempt - 1), base * Pow2(attempt - 2));
    case Linear(base, step, max) =>
      StepsDouble(base, step, attempt - 2);
      CapDoubles(max, base + step * (attempt - 1), base + step * (attempt - 2));
  }

  /** Delays that chrono accepts and that start out positive stay positive. */
  lemma {:induction false} DelayStaysShort(policy: RetryPolicy, attempt: Attempt)
    requires 2 <= attempt && 0 <= Wait(policy, 2) && forall b: Attempt :: b <= attempt ==> IsDuration(Wait(policy, b))
    ensures Wait(policy, attempt) == DelaySeconds(policy.backoff, attempt)
  {
    if attempt > 2 {
      DelayStaysShort(policy, attempt - 1);
      DelayDoubles(policy.backoff, attempt);
    }
  }

  /** Unless a policy fires early, each delay is covered by the first one. */
  lemma CoveredByFirst(policy: RetryPolicy, attempt: Attempt)
    requires !FiresEarly(policy) && attempt < policy.maxAttempts
    requires forall b: Attempt :: b <= attempt ==> IsDuration(Wait(policy, b))
    ensures 0 <= Wait(policy, 1) && 0 <= Wait(policy, attempt) + if attempt == 1 then 0 else Wait(policy, 1)
  {
    assert IsDuration(Wait(policy, 1));
    if attempt > 1 {
      assert IsDuration(Wait(policy, 2));
      if 0 <= Wait(policy, 2) {
        DelayStaysShort(policy, attempt);
      } else {
        DelayMonotone(policy.backoff, 2, attempt);
      }
    }
  }
}
