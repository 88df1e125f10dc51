/** Retry policies: merging a step's options with the worker default, and the delay between attempts. */
module Retries {
  import opened Values

  datatype BackoffKind = Fixed | Exponential

  /** The accepted backoff forms, durations already in milliseconds. */
  datatype Backoff =
    | Every(ms: nat)
    | Bare(bare: BackoffKind)
    | Shaped(kind: Option<BackoffKind>, delay: Option<nat>, jitter: Option<real>, maxDelay: Option<nat>)

  /** `delay` and `maxDelay` are the older flat fields; they rank below `backoff` on their own level. */
  datatype RetryOptions =
    RetryOptions(attempts: Option<real>, backoff: Option<Backoff>, delay: Option<nat>, maxDelay: Option<nat>)

  datatype ResolvedRetry =
    ResolvedRetry(attempts: nat, kind: BackoffKind, delayMs: nat, jitter: real, maxDelayMs: Option<nat>)

  /** A draw from the random source. */
  type Chance = r: real | 0.0 <= r < 1.0 witness 0.0

  const DEFAULT_MAX_BACKOFF_MS: nat := 3_600_000

  const NO_RETRY := RetryOptions(None, None, None, None)

  function Normalize(backoff: Option<Backoff>): Backoff {
    match backoff
    case None => Shaped(None, None, None, None)
    case Some(Every(ms)) => Shaped(Some(Fixed), Some(ms), None, None)
    case Some(Bare(kind)) => Shaped(Some(kind), None, None, None)
    case Some(shaped) => shaped
  }

  function MaxInt(a: int, b: int): int {
    if a < b then b else a
  }

  function MinInt(a: int, b: int): int {
    if a < b then a else b
  }

  function Clamp01(r: real): (c: real)
    ensures 0.0 <= c <= 1.0
  {
    if r < 0.0 then 0.0 else if r > 1.0 then 1.0 else r
  }

  /** Merge a step's policy with the worker default, field by field. */
  function ResolveRetry(step: Option<RetryOptions>, fallback: Option<RetryOptions>): (r: ResolvedRetry)
    ensures r.attempts >= 1 && 0.0 <= r.jitter <= 1.0
  {
    var own := step.GetOr(NO_RETRY);
    var other := fallback.GetOr(NO_RETRY);
    var Shaped(ownKind, ownDelay, ownJitter, ownMax) := AsShaped(own.backoff);
    var Shaped(otherKind, otherDelay, otherJitter, otherMax) := AsShaped(other.backoff);
    ResolvedRetry(
      MaxInt(1, own.attempts.OrElse(other.attempts).GetOr(1.0).Floor),
      ownKind.OrElse(otherKind).GetOr(Fixed),
      ownDelay.OrElse(own.delay).OrElse(otherDelay).OrElse(other.delay).GetOr(0),
      Clamp01(ownJitter.OrElse(otherJitter).GetOr(0.0)),
      ownMax.OrElse(own.maxDelay).OrElse(otherMax).OrElse(other.maxDelay))
  }

  function AsShaped(backoff: Option<Backoff>): (b: Backoff)
    ensures b.Shaped?
  {
    Normalize(backoff)
  }

  function Pow2(n: nat): (p: nat)
    ensures p >= 1
  {
    if n == 0 then 1 else 2 * Pow2(n - 1)
  }

  /** The ceiling that applies to a policy: its own, or one hour for exponential growth. */
  function Cap(retry: ResolvedRetry): Option<nat> {
    if retry.maxDelayMs.Some? then retry.maxDelayMs
    else if retry.kind.Exponential? then Some(DEFAULT_MAX_BACKOFF_MS)
    else None
  }

  /** The capped delay before jitter. */
  function Base(retry: ResolvedRetry, failedAttempt: nat): nat {
    var grown := if retry.kind.Exponential? then retry.delayMs * Pow2(MaxInt(0, failedAttempt - 1)) else retry.delayMs;
    if Cap(retry).Some? then MinInt(grown, Cap(retry).value) else grown
  }

  /** The delay before the next attempt once attempt `failedAttempt` has failed. */
  method ComputeBackoff(retry: ResolvedRetry, failedAttempt: nat, random: Chance) returns (delay: nat)
    requires 0.0 <= retry.jitter <= 1.0
    ensures delay == Delay(retry, failedAttempt, random)
  {
    var base := retry.delayMs;
    if retry.kind.Exponential? {
      base := retry.delayMs * Pow2(MaxInt(0, failedAttempt - 1));
    }
    var cap := Cap(retry);
    if cap.Some? {
      base := MinInt(base, cap.value);
    }
    if retry.jitter > 0.0 {
      var least := base as real * (1.0 - retry.jitter);
      JitterBounds(base, retry.jitter, random);
      return (random * base as real * retry.jitter + least).Floor;
    }
    return base;
  }

  function Jittered(base: nat, jitter: real, random: Chance): int {
    (random * base as real * jitter + base as real * (1.0 - jitter)).Floor
  }

  lemma {:induction false} JitterBounds(base: nat, jitter: real, random: Chance)
    requires 0.0 <= jitter <= 1.0
    ensures 0 <= (base as real * (1.0 - jitter)).Floor <= Jittered(base, jitter, random) <= base
  {
    var b := base as real;
    var spread := b * jitter;
    assert 0.0 <= spread <= b;
    assert 0.0 <= random * spread <= spread;
    assert random * b * jitter == random * spread;
    assert b * (1.0 - jitter) == b - spread;
    var low, mid := b - spread, random * spread + (b - spread);
    assert low <= mid <= b;
    FloorMonotone(low, mid);
    FloorMonotone(mid, b);
    FloorMonotone(0.0, low);
  }

  lemma FloorMonotone(x: real, y: real)
    requires x <= y
    ensures x.Floor <= y.Floor
  {
  }

  function Delay(retry: ResolvedRetry, failedAttempt: nat, random: Chance): (delay: nat)
    requires 0.0 <= retry.jitter <= 1.0
    ensures delay <= Base(retry, failedAttempt)
    ensures Cap(retry).Some? ==> delay <= Cap(retry).value
  {
    var base := Base(retry, failedAttempt);
    JitterBounds(base, retry.jitter, random);
    if retry.jitter > 0.0 then Jittered(base, retry.jitter, random) else base
  }

  lemma {:induction false} Pow2Monotone(m: nat, n: nat)
    requires m <= n
    ensures Pow2(m) <= Pow2(n)
  {
    if m < n {
      Pow2Monotone(m, n - 1);
    }
  }

  /** Without jitter, exponential delays double until they meet the cap, and never shrink. */
  lemma {:induction false} ExponentialGrowth(retry: ResolvedRetry, n: nat, m: nat, random: Chance, other: Chance)
    requires retry.kind.Exponential? && retry.jitter == 0.0
    requires 1 <= n <= m
    ensures Delay(retry, n, random) ==
            MinInt(retry.delayMs * Pow2(n - 1), retry.maxDelayMs.GetOr(DEFAULT_MAX_BACKOFF_MS))
    ensures Delay(retry, n, random) <= Delay(retry, m, other)
  {
    Pow2Monotone(n - 1, m - 1);
    MulMonotone(retry.delayMs, Pow2(n - 1), Pow2(m - 1));
  }

  lemma MulMonotone(k: nat, a: nat, b: nat)
    requires a <= b
    ensures k * a <= k * b
  {
  }

  /** With jitter, a delay stays between the floor of `base * (1 - jitter)` and the base. */
  lemma JitterRange(retry: ResolvedRetry, failedAttempt: nat, random: Chance)
    requires 0.0 <= retry.jitter <= 1.0
    ensures (Base(retry, failedAttempt) as real * (1.0 - retry.jitter)).Floor
            <= Delay(retry, failedAttempt, random) <= Base(retry, failedAttempt)
  {
    JitterBounds(Base(retry, failedAttempt), retry.jitter, random);
  }

  /** What a step that fails at every one of its attempts waits in all. */
  function TotalWait(retry: ResolvedRetry, failures: nat, random: nat -> Chance): nat
    requires 0.0 <= retry.jitter <= 1.0
  {
    if failures == 0 then 0
    else TotalWait(retry, failures - 1, random) + Delay(retry, failures, random(failures))
  }

  lemma OneMore(n: nat, cap: nat)
    ensures (n + 1) * cap == n * cap + cap
  {
  }

  lemma {:induction false} WaitsAdd(retry: ResolvedRetry, failures: nat, cap: nat, random: nat -> Chance)
    requires 0.0 <= retry.jitter <= 1.0 && Cap(retry) == Some(cap)
    ensures TotalWait(retry, failures, random) <= failures * cap
  {
    hide Cap, Delay;
    if failures > 0 {
      WaitsAdd(retry, failures - 1, cap, random);
      OneMore(failures - 1, cap);
    }
  }

  /** The total wait of a whole retry run is bounded by one cap per retry. */
  lemma TotalWaitBounded(retry: ResolvedRetry, failures: nat, random: nat -> Chance)
    requires 0.0 <= retry.jitter <= 1.0
    requires Cap(retry).Some? && failures < retry.attempts
    ensures TotalWait(retry, failures, random) <= (retry.attempts - 1) * Cap(retry).value
  {
    hide Cap, TotalWait;
    WaitsAdd(retry, failures, Cap(retry).value, random);
    MulMonotone(Cap(retry).value, failures, retry.attempts - 1);
  }
}
