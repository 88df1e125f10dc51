/** Which of several retry policies wins, field by field, and what the delays come to. */
module Policies {
  import opened Values
  import opened Retries
  import opened Processors
  import opened Steps
  import opened Ticks

  // -- What one level says -----------------------------------------------------------------

  /** The growth one level of options asks for: a bare number means a fixed delay. */
  predicate AsksKind(o: RetryOptions, kind: BackoffKind) {
    match o.backoff
    case None => false
    case Some(Every(_)) => kind.Fixed?
    case Some(Bare(k)) => kind == k
    case Some(Shaped(k, _, _, _)) => k == Some(kind)
  }

  /** The delay it asks for; the flat field only counts when `backoff` names none. */
  predicate AsksDelay(o: RetryOptions, ms: nat) {
    match o.backoff
    case Some(Every(n)) => ms == n
    case Some(Shaped(_, Some(n), _, _)) => ms == n
    case _ => o.delay == Some(ms)
  }

  predicate AsksCap(o: RetryOptions, ms: nat) {
    match o.backoff
    case Some(Shaped(_, _, _, Some(n))) => ms == n
    case _ => o.maxDelay == Some(ms)
  }

  predicate AsksJitter(o: RetryOptions, j: real) {
    match o.backoff
    case Some(Shaped(_, _, Some(x), _)) => j == x
    case _ => false
  }

  /** `r` has the attempts that `attempts` asks for: rounded down, and at least one. */
  predicate Grants(r: ResolvedRetry, attempts: real) {
    r.attempts >= 1 && (attempts >= 1.0 ==> r.attempts as real <= attempts < r.attempts as real + 1.0)
    && (attempts < 1.0 ==> r.attempts == 1)
  }

  predicate Within01(j: real, asked: real) {
    0.0 <= j <= 1.0 && (0.0 <= asked <= 1.0 ==> j == asked) && (asked < 0.0 ==> j == 0.0) && (asked > 1.0 ==> j == 1.0)
  }

  // -- Who wins ----------------------------------------------------------------------------

  /** A field the first level asks for is the resolved one, whatever the second says. */
  ghost predicate Wins(r: ResolvedRetry, own: RetryOptions) {
    && (own.attempts.Some? ==> Grants(r, own.attempts.value))
    && (forall kind :: AsksKind(own, kind) ==> r.kind == kind)
    && (forall ms: nat :: AsksDelay(own, ms) ==> r.delayMs == ms)
    && (forall ms: nat :: AsksCap(own, ms) ==> r.maxDelayMs == Some(ms))
    && (forall j :: AsksJitter(own, j) ==> Within01(r.jitter, j))
  }

  /** A field the first level leaves out is as the second has it. */
  ghost predicate Yields(r: ResolvedRetry, own: RetryOptions, other: ResolvedRetry) {
    && (own.attempts.None? ==> r.attempts == other.attempts)
    && ((forall kind :: !AsksKind(own, kind)) ==> r.kind == other.kind)
    && ((forall ms: nat :: !AsksDelay(own, ms)) ==> r.delayMs == other.delayMs)
    && ((forall ms: nat :: !AsksCap(own, ms)) ==> r.maxDelayMs == other.maxDelayMs)
    && ((forall j :: !AsksJitter(own, j)) ==> r.jitter == other.jitter)
  }

  /** With no options at all: one attempt, a fixed delay of nothing, no jitter and no cap. */
  const BASELINE := ResolvedRetry(1, Fixed, 0, 0.0, None)

  /**
   * Precedence, field by field: what the step asks for wins; what it leaves out comes from the fallback; what
   * both leave out is the baseline. A step's flat `delay` or `maxDelay` ranks below its own `backoff` and above
   * the whole fallback.
   */
  lemma StepThenFallback(step: RetryOptions, fallback: RetryOptions)
    ensures ResolveRetry(None, None) == BASELINE
    ensures ResolveRetry(None, Some(fallback)) == ResolveRetry(Some(fallback), None)
    ensures Wins(ResolveRetry(Some(fallback), None), fallback)
    ensures Yields(ResolveRetry(Some(fallback), None), fallback, BASELINE)
    ensures Wins(ResolveRetry(Some(step), Some(fallback)), step)
    ensures Yields(ResolveRetry(Some(step), Some(fallback)), step, ResolveRetry(None, Some(fallback)))
  {
    ResolvedWins(step, Some(fallback));
    ResolvedWins(fallback, None);
    ResolvedYields(step, Some(fallback));
    ResolvedYields(fallback, None);
  }

  lemma ResolvedWins(own: RetryOptions, other: Option<RetryOptions>)
    ensures Wins(ResolveRetry(Some(own), other), own)
  {
    if own.attempts.Some? {
      FloorGrants(ResolveRetry(Some(own), other), own.attempts.value);
    }
  }

  lemma FloorGrants(r: ResolvedRetry, attempts: real)
    requires r.attempts == MaxInt(1, attempts.Floor)
    ensures Grants(r, attempts)
  {
    if attempts >= 1.0 {
      FloorMonotone(1.0, attempts);
    } else {
      FloorMonotone(attempts, 1.0);
    }
  }

  lemma ResolvedYields(own: RetryOptions, other: Option<RetryOptions>)
    ensures Yields(ResolveRetry(Some(own), other), own, ResolveRetry(other, None))
  {
    var b := own.backoff;
    if b.Some? && b.value.Every? {
      assert AsksKind(own, Fixed) && AsksDelay(own, b.value.ms);
    } else if b.Some? && b.value.Bare? {
      assert AsksKind(own, b.value.bare);
    } else if b.Some? {
      if b.value.kind.Some? {
        assert AsksKind(own, b.value.kind.value);
      }
      if b.value.delay.Some? {
        assert AsksDelay(own, b.value.delay.value);
      }
      if b.value.jitter.Some? {
        assert AsksJitter(own, b.value.jitter.value);
      }
      if b.value.maxDelay.Some? {
        assert AsksCap(own, b.value.maxDelay.value);
      }
    }
    if own.delay.Some? {
      assert AsksDelay(own, own.delay.value) || exists ms: nat :: AsksDelay(own, ms);
    }
    if own.maxDelay.Some? {
      assert AsksCap(own, own.maxDelay.value) || exists ms: nat :: AsksCap(own, ms);
    }
  }

  // -- Steps and compensations ---------------------------------------------------------------

  /** The policy of a step is its own, then the worker's. */
  lemma StepPolicy(app: App, o: StepOptions)
    ensures o.retry.Some? ==>
              && Wins(Policy(app, o), o.retry.value)
              && Yields(Policy(app, o), o.retry.value, ResolveRetry(app.defaultRetry, None))
    ensures o.retry.None? ==> Policy(app, o) == ResolveRetry(app.defaultRetry, None)
  {
    hide Wins, Yields;
    if o.retry.Some? {
      ResolvedWins(o.retry.value, app.defaultRetry);
      ResolvedYields(o.retry.value, app.defaultRetry);
    }
  }

  /**
   * The policy of a compensation is the one its step registered, else the worker's for compensations, else five
   * attempts that back off exponentially from a second to half a minute; each as a whole, and then completed
   * from the worker's policy for steps.
   */
  lemma RollbackPolicy(app: App, r: Rollback)
    ensures var p := Policy(app, RollbackOptions(app, r));
            && (r.retry.Some? ==>
                  Wins(p, r.retry.value) && Yields(p, r.retry.value, ResolveRetry(app.defaultRetry, None)))
            && (r.retry.None? && app.defaultRollbackRetry.Some? ==>
                  && Wins(p, app.defaultRollbackRetry.value)
                  && Yields(p, app.defaultRollbackRetry.value, ResolveRetry(app.defaultRetry, None)))
            && (r.retry.None? && app.defaultRollbackRetry.None? ==>
                  && p.attempts == 5 && p.kind == Exponential && p.delayMs == 1_000 && p.maxDelayMs == Some(30_000)
                  && p.jitter == ResolveRetry(app.defaultRetry, None).jitter)
  {
    hide Wins, Yields, ResolveRetry;
    StepPolicy(app, RollbackOptions(app, r));
    if r.retry.None? && app.defaultRollbackRetry.None? {
      BuiltIn(app.defaultRetry);
    }
  }

  lemma BuiltIn(other: Option<RetryOptions>)
    ensures var p := ResolveRetry(Some(DEFAULT_ROLLBACK_RETRY), other);
            && p.attempts == 5 && p.kind == Exponential && p.delayMs == 1_000 && p.maxDelayMs == Some(30_000)
            && p.jitter == ResolveRetry(other, None).jitter
  {
  }

  /**
   * How often a failing body may be tried: a poll of a live delivery for ever, if neither the step nor the
   * worker configures attempts; anything else as often as the policy says.
   */
  lemma AttemptBudget(app: App, d: Delivery, o: StepOptions, later: bool)
    ensures var free := (o.retry.None? || o.retry.value.attempts.None?)
                        && (app.defaultRetry.None? || app.defaultRetry.value.attempts.None?);
            Limit(app, d, o, later)
            == if later && d.mode.Normal? && free then None else Some(Policy(app, o).attempts)
    ensures o.retry.Some? && o.retry.value.attempts.Some? ==> Grants(Policy(app, o), o.retry.value.attempts.value)
    ensures (o.retry.None? || o.retry.value.attempts.None?) && app.defaultRetry.Some?
            && app.defaultRetry.value.attempts.Some? ==>
              Grants(Policy(app, o), app.defaultRetry.value.attempts.value)
  {
    var p := Policy(app, o);
    if o.retry.Some? && o.retry.value.attempts.Some? {
      FloorGrants(p, o.retry.value.attempts.value);
    } else if app.defaultRetry.Some? && app.defaultRetry.value.attempts.Some? {
      FloorGrants(p, app.defaultRetry.value.attempts.value);
    }
  }

  // -- Delays ------------------------------------------------------------------------------

  /** Without jitter a fixed delay is the same after every attempt, and never above a cap that was asked for. */
  lemma FixedDelays(retry: ResolvedRetry, n: nat, random: Chance)
    requires retry.kind.Fixed? && retry.jitter == 0.0
    ensures Delay(retry, n, random) == retry.delayMs
            || (retry.maxDelayMs == Some(Delay(retry, n, random)) && Delay(retry, n, random) < retry.delayMs)
    ensures retry.maxDelayMs.Some? ==> Delay(retry, n, random) <= retry.maxDelayMs.value
    ensures retry.maxDelayMs.None? ==> Delay(retry, n, random) == retry.delayMs
  {
  }

  /** Jitter places the delay, rounded down, where the draw falls between its least value and the base. */
  lemma JitterSpreads(retry: ResolvedRetry, n: nat, random: Chance)
    requires 0.0 < retry.jitter <= 1.0
    ensures var base := Base(retry, n) as real;
            var least := base - base * retry.jitter;
            var at := least + random * (base - least);
            Delay(retry, n, random) as real <= at < Delay(retry, n, random) as real + 1.0
  {
    var base := Base(retry, n) as real;
    var least := base - base * retry.jitter;
    JitterBounds(Base(retry, n), retry.jitter, random);
    assert base - least == base * retry.jitter;
    assert random * (base - least) == random * base * retry.jitter;
    assert base * (1.0 - retry.jitter) == least;
  }
}
