/** One `ctx.step` or `ctx.sleep` call: what it leaves in the store for each way it can end. */
module StepCalls {
  import opened Values
  import opened Phases
  import opened Retries
  import opened Records
  import opened Processors
  import opened Steps
  import opened Journal

  /** A live attempt: its record is running under the attempt's own number, with no scheduled time. */
  predicate OnAttempt(t: Tick, k: Key, a: Attempt) {
    && k in t.rec.steps
    && var s := t.rec.steps[k];
       s.kind.Work? && s.status.StepRunning? && s.seqNo == a.seqNo && s.attempts == a.attempts && s.nextRunAt.None?
  }

  /** Between `base` and `t` the step was taken up under attempt `a`, and its body has not started yet. */
  ghost predicate Taken(book: Book, base: Tick, t: Tick, k: Key, a: Attempt) {
    && Touches(book, base, t, k)
    && OnAttempt(t, k, a)
    && (k in base.rec.steps ==>
          && base.rec.steps[k].status.StepRunning? && base.rec.steps[k].attempts < a.attempts
          && (base.rec.steps[k].nextRunAt.Some? ==> base.rec.steps[k].nextRunAt.value <= t.now))
    && (forall i :: |base.trace| <= i < |t.trace| && t.trace[i].Started? && t.trace[i].key == k
                    ==> t.trace[i].attempt < a.attempts)
  }

  predicate SameNotes(a: Tick, b: Tick) {
    b.rollbacks == a.rollbacks && b.failedStep == a.failedStep
  }

  /** The stored error and the one the caller sees: the same, except when a poll runs out of attempts. */
  ghost predicate ErrorSeen(stored: Option<Err>, seen: Err, key: string) {
    || stored == Some(seen)
    || (stored.None? && seen == MissingError(key))
    || (stored.Some? && stored.value.name == "RetryLaterError" && exists n: nat :: seen == Exhausted(key, n))
  }

  predicate Registered(t: Tick, u: Tick, key: string, o: StepOptions, value: Value) {
    var k := Key(t.phase, key);
    && k in u.rec.steps
    && u.failedStep == t.failedStep
    && u.rollbacks == if t.phase == Main && o.onRollback.Some?
                      then t.rollbacks + [Rollback(key, u.rec.steps[k].seqNo, value, o.onRollback.value.retry)]
                      else t.rollbacks
  }

  /** Step `k` is running, and will be due `delay` from now. */
  predicate Due(rec: Record, k: Key, now: nat, delay: nat) {
    rec.Has(k, StepRunning) && (rec.steps[k].nextRunAt.Some? ==> rec.steps[k].nextRunAt.value <= now + delay)
  }

  /** The tick has asked to be delivered again for step `k`, which will be due by then. */
  predicate Awaits(t: Tick, k: Key) {
    t.resume.Some? && t.resume.value.awaits == Some(k) && Due(t.rec, k, t.now, t.resume.value.delay)
  }

  /** The ways a step call ends, each with the record it leaves. */
  ghost predicate StepEnds(t: Tick, r: Eff<Value>, key: string, o: StepOptions) {
    var k := Key(t.phase, key);
    match r
    case Go(u, value) =>
      && u.rec.Has(k, StepCompleted) && value == Clone(u.rec.steps[k].result)
      && Registered(t, u, key, o, value) && u.resume == t.resume
    case Stop(u, Raised(err, stepScoped, _)) =>
      && u.rec.Has(k, StepFailed) && stepScoped && ErrorSeen(u.rec.steps[k].error, err, key)
      && u.rollbacks == t.rollbacks && u.resume == t.resume
      && u.failedStep == if t.phase == Main then Some(key) else t.failedStep
    case Stop(u, Yield) =>
      && u.rec.Has(k, StepRunning) && SameNotes(t, u)
      && u.resume.Some?
      && (t.resume.None? ==> Awaits(u, k))
    case Stop(u, CancelledRun) => SameNotes(t, u)
    case Stop(_, Crash) => true
    case Stop(_, SettleIncomplete) => false
  }

  /** Taking up a step whose record is already running: wait out its backoff, or begin the next attempt. */
  lemma ResumeTouches(book: Book, w: World, d: Delivery, t: Tick, key: string, o: StepOptions)
    requires Sound(book, t.rec) && !t.rec.instance.status.Cancelled?
    requires t.rec.Has(Key(t.phase, key), StepRunning) && t.rec.steps[Key(t.phase, key)].kind.Work?
    ensures var r := BeginOrReplay(w, d, t, key, o);
            var k := Key(t.phase, key);
            && Touches(book, t, r.tick, k)
            && (r.Go? ==> r.value.Live? && Taken(book, t, r.tick, k, r.value.attempt) && SameNotes(t, r.tick)
                          && r.tick.resume == t.resume)
            && (r.Stop? ==> StepEnds(t, Stop(r.tick, r.signal), key, o))
  {
    hide Follows, OnlyAt, Sound;
    var k := Key(t.phase, key);
    var r := BeginOrReplay(w, d, t, key, o);
    var s := t.rec.steps[k];
    var late := s.nextRunAt.Some? && s.nextRunAt.value > t.now;
    if late && d.mode.Normal? {
      RestTouches(book, t, r.tick, k);
    } else {
      var t1 := if late then t.(now := s.nextRunAt.value) else t;
      var a := Attempt(s.attempts + 1, s.seqNo, s.startedAt);
      assert r.tick == Save(w, t1, t1.rec.SaveStep(k, RunningStep(a))).tick;
      RestTouches(book, t, t1, k);
      OverwriteTouches(book, t1, r.tick, k, RunningStep(a), []);
      TouchesTrans(book, t, t1, r.tick, k);
    }
  }

  lemma BeginTouches(book: Book, w: World, d: Delivery, t: Tick, key: string, o: StepOptions)
    requires Sound(book, t.rec) && !NamesSleep(book, Key(t.phase, key))
    ensures var r := BeginOrReplay(w, d, t, key, o);
            var k := Key(t.phase, key);
            && Touches(book, t, r.tick, k) && r.tick.phase == t.phase
            && (r.Go? && r.value.Replayed? ==>
                  StepEnds(t, Go(r.tick, r.value.value), key, o) && r.tick.rec == t.rec && r.tick.trace == t.trace)
            && (r.Go? && r.value.Live? ==>
                  Taken(book, t, r.tick, k, r.value.attempt) && SameNotes(t, r.tick) && r.tick.resume == t.resume
                  && !t.rec.Has(k, StepCompleted) && !t.rec.Has(k, StepFailed))
            && (r.Stop? ==> StepEnds(t, Stop(r.tick, r.signal), key, o))
  {
    hide Follows, OnlyAt;
    var k := Key(t.phase, key);
    var r := BeginOrReplay(w, d, t, key, o);
    if t.rec.instance.status.Cancelled? {
      RestTouches(book, t, r.tick, k);
    } else if k !in t.rec.steps {
      CreateTouches(book, t, r.tick, k, Work, None);
    } else {
      assert StepSound(book, k, t.rec.steps[k], t.rec.Counter());
      if t.rec.steps[k].status.StepRunning? {
        ResumeTouches(book, w, d, t, key, o);
      } else {
        RestTouches(book, t, r.tick, k);
      }
    }
  }

  /** Starting the body of an attempt that has just been taken up. */
  lemma StartTouches(book: Book, base: Tick, t: Tick, u: Tick, k: Key, a: Attempt, arg: Argument)
    requires Taken(book, base, t, k, a)
    requires u.rec == t.rec && u.phase == t.phase && t.now <= u.now
    requires u.trace == t.trace + [Started(k, a.attempts, t.now, arg)]
    ensures Touches(book, base, u, k)
  {
    forall i | |base.trace| <= i < |u.trace| ensures ActFits(base, u, u.trace[i]) {
      if i < |t.trace| {
        assert ActFits(base, t, t.trace[i]);
      }
    }
    forall i, j | |base.trace| <= i < j < |u.trace| ensures Increasing(u.trace[i], u.trace[j]) {
      if j < |t.trace| {
        assert Increasing(t.trace[i], t.trace[j]);
      }
    }
  }

  lemma FailTouches(book: Book, w: World, t: Tick, key: string, a: Attempt, error: Err)
    requires Sound(book, t.rec) && OnAttempt(t, Key(t.phase, key), a)
    ensures var r := FailStep(w, t, key, a, error);
            var k := Key(t.phase, key);
            && Touches(book, t, r.tick, k)
            && r.tick.rec.Has(k, StepFailed) && r.tick.rec.steps[k].error == Some(error)
            && r.tick.rollbacks == t.rollbacks && r.tick.resume == t.resume
            && r.tick.failedStep == (if t.phase == Main then Some(key) else t.failedStep)
            && (r.Stop? ==> r.signal.Crash?)
  {
    var k := Key(t.phase, key);
    var r := FailStep(w, t, key, a, error);
    OverwriteTouches(book, t, r.tick, k, r.tick.rec.steps[k], [Ended(k, a.attempts)]);
  }

  /** A retryable failure: its record keeps running, due again no later than the tick's wake-up. */
  lemma RetryTouches(book: Book, w: World, app: App, d: Delivery, t: Tick, key: string, o: StepOptions, a: Attempt,
                     b: Body)
    requires Sound(book, t.rec) && OnAttempt(t, Key(t.phase, key), a)
    requires (b.Fails? && !b.nonRetryable) || b.RetryLater?
    requires var limit := Limit(app, d, o, b.RetryLater?); limit.None? || a.attempts < limit.value
    ensures var r := HandleStepError(w, app, d, t, key, o, a, b);
            var k := Key(t.phase, key);
            && Touches(book, t, r.tick, k)
            && (r.Go? ==> OnAttempt(r.tick, k, a) && SameNotes(t, r.tick) && r.tick.resume == t.resume)
            && (r.Stop? ==> StepEnds(t, Stop(r.tick, r.signal), key, o))
  {
    hide Follows, OnlyAt, Sound, Policy, FailStep;
    var k := Key(t.phase, key);
    var r := HandleStepError(w, app, d, t, key, o, a, b);
    var limit := Limit(app, d, o, b.RetryLater?);
    OverwriteTouches(book, t, r.tick, k, r.tick.rec.steps[k], [Retried(k, a.attempts, limit)]);
  }

  lemma ErrorTouches(book: Book, w: World, app: App, d: Delivery, t: Tick, key: string, o: StepOptions, a: Attempt,
                     b: Body)
    requires Sound(book, t.rec) && OnAttempt(t, Key(t.phase, key), a)
    requires b.Fails? || b.RetryLater?
    ensures var r := HandleStepError(w, app, d, t, key, o, a, b);
            var k := Key(t.phase, key);
            && Touches(book, t, r.tick, k)
            && (r.Go? ==> OnAttempt(r.tick, k, a) && SameNotes(t, r.tick) && r.tick.resume == t.resume)
            && (r.Stop? ==> StepEnds(t, Stop(r.tick, r.signal), key, o))
  {
    hide Follows, OnlyAt, Sound;
    var k := Key(t.phase, key);
    var r := HandleStepError(w, app, d, t, key, o, a, b);
    if b.Fails? && b.nonRetryable {
      FailTouches(book, w, t, key, a, b.err);
    } else {
      hide FailStep, Policy;
      var limit := Limit(app, d, o, b.RetryLater?);
      if limit.None? || a.attempts < limit.value {
        RetryTouches(book, w, app, d, t, key, o, a, b);
      } else {
        FailTouches(book, w, t, key, a, ErrorOf(b));
        assert !d.mode.Settle? || r.Stop?;
      }
    }
  }

  /** Settlement only: wait a recorded failure's backoff out in process, then take up the next attempt. */
  lemma RetakeTouches(book: Book, base: Tick, w: World, d: Delivery, t: Tick, k: Key, a: Attempt, delay: nat)
    requires Touches(book, base, t, k) && OnAttempt(t, k, a) && d.mode.Settle?
    requires k in base.rec.steps ==>
               && base.rec.steps[k].status.StepRunning? && base.rec.steps[k].attempts < a.attempts
               && (base.rec.steps[k].nextRunAt.Some? ==> base.rec.steps[k].nextRunAt.value <= t.now)
    ensures var r := Retake(w, d, t, k, a, delay);
            && Touches(book, base, r.tick, k) && SameNotes(t, r.tick) && r.tick.resume == t.resume
            && (r.Go? ==> Taken(book, base, r.tick, k, a.(attempts := a.attempts + 1)))
            && (r.Stop? ==> r.signal.Crash?)
  {
    hide Follows, OnlyAt, Sound;
    var next := RunningStep(a.(attempts := a.attempts + 1));
    var t1 := t.(now := t.now + delay);
    var r := Retake(w, d, t, k, a, delay);
    assert r.tick == Save(w, t1, t1.rec.SaveStep(k, next)).tick;
    StartsBelow(base, t, k);
    WaitTouches(book, base, t, t1, k);
    OverwriteTouches(book, t1, r.tick, k, next, []);
    TouchesTrans(book, base, t1, r.tick, k);
  }

  lemma TimePasses(a: Tick, b: Tick)
    requires Follows(a, b)
    ensures a.now <= b.now && a.trace <= b.trace
  {
  }

  lemma RestTouches(book: Book, t: Tick, u: Tick, k: Key)
    requires Sound(book, t.rec)
    requires u.rec == t.rec && u.trace == t.trace && u.phase == t.phase && t.now <= u.now
    ensures Touches(book, t, u, k)
  {
  }

  lemma WaitTouches(book: Book, base: Tick, t: Tick, u: Tick, k: Key)
    requires Touches(book, base, t, k)
    requires u.rec == t.rec && u.trace == t.trace && u.phase == t.phase && t.now <= u.now
    ensures Touches(book, base, u, k)
  {
    RestTouches(book, t, u, k);
    TouchesTrans(book, base, t, u, k);
  }

  lemma StartsBelow(base: Tick, t: Tick, k: Key)
    requires Follows(base, t) && k in t.rec.steps
    ensures forall i :: |base.trace| <= i < |t.trace| && t.trace[i].Started? && t.trace[i].key == k
                        ==> t.trace[i].attempt <= t.rec.steps[k].attempts
  {
    forall i | |base.trace| <= i < |t.trace| && t.trace[i].Started? && t.trace[i].key == k
      ensures t.trace[i].attempt <= t.rec.steps[k].attempts
    {
      assert ActFits(base, t, t.trace[i]);
    }
  }

  /** Saving the checkpoint of a body that succeeded. */
  lemma CheckpointTouches(book: Book, base: Tick, w: World, t: Tick, k: Key, a: Attempt, value: Value)
    requires Touches(book, base, t, k) && OnAttempt(t, k, a)
    ensures var r := Checkpoint(w, t, k, a, Clone(value));
            && Touches(book, base, r.tick, k) && SameNotes(t, r.tick) && r.tick.resume == t.resume
            && r.tick.rec.Has(k, StepCompleted) && Clone(r.tick.rec.steps[k].result) == Clone(value)
            && r.tick.rec.steps[k].seqNo == a.seqNo
            && (r.Stop? ==> r.signal.Crash?)
  {
    hide Follows, OnlyAt, Sound;
    var r := Checkpoint(w, t, k, a, Clone(value));
    CloneIdempotent(value);
    OverwriteTouches(book, t, r.tick, k, r.tick.rec.steps[k], [Ended(k, a.attempts)]);
    TouchesTrans(book, base, t, r.tick, k);
  }

  /** One turn of the attempt loop, seen from the state `base` in which the step call began. */
  lemma AttemptTouches(book: Book, base: Tick, w: World, app: App, d: Delivery, t: Tick, key: string, o: StepOptions,
                       arg: Argument, a: Attempt)
    requires Taken(book, base, t, Key(t.phase, key), a) && base.phase == t.phase
    ensures var r := RunAttempt(w, app, d, t, key, o, arg, a);
            var k := Key(t.phase, key);
            && Touches(book, base, r.tick, k) && r.tick.phase == t.phase
            && (r.Go? && r.value.Some? ==> StepEnds(t, Go(r.tick, r.value.value), key, o))
            && (r.Go? && r.value.None? ==> SameNotes(t, r.tick) && r.tick.resume == t.resume
                                           && Taken(book, base, r.tick, k, a.(attempts := a.attempts + 1)))
            && (r.Stop? ==> StepEnds(t, Stop(r.tick, r.signal), key, o))
  {
    hide Follows, OnlyAt, Sound, HandleStepError, Checkpoint, Retake, Policy, ErrorSeen;
    var k := Key(t.phase, key);
    var r := RunAttempt(w, app, d, t, key, o, arg, a);
    var p1 := Pass(w, t.(trace := t.trace + [Started(k, a.attempts, t.now, arg)]));
    var t1 := p1.tick;
    StartTouches(book, base, t, t1, k, a, arg);
    if p1.Go? {
      var b := Thrown(d, w.body(k, a.attempts));
      match b
      case Succeeds(value) =>
        CheckpointTouches(book, base, w, t1, k, a, value);
        var p2 := Checkpoint(w, t1, k, a, Clone(value));
        if p2.Go? {
          WaitTouches(book, base, p2.tick, r.tick, k);
        }
      case NestedYield(wait) =>
        WaitTouches(book, base, t1, r.tick, k);
      case NestedCancel =>
      case _ =>
        FailedAttemptTouches(book, base, w, app, d, t1, key, o, a, b);
    }
  }

  lemma FailedAttemptTouches(book: Book, base: Tick, w: World, app: App, d: Delivery, t: Tick, key: string,
                             o: StepOptions, a: Attempt, b: Body)
    requires Touches(book, base, t, Key(t.phase, key)) && OnAttempt(t, Key(t.phase, key), a)
    requires Key(t.phase, key) in base.rec.steps ==>
               var s := base.rec.steps[Key(t.phase, key)];
               s.status.StepRunning? && s.attempts < a.attempts && (s.nextRunAt.Some? ==> s.nextRunAt.value <= t.now)
    requires b.Fails? || b.RetryLater?
    ensures var p := HandleStepError(w, app, d, t, key, o, a, b);
            var k := Key(t.phase, key);
            && Touches(book, base, p.tick, k)
            && (p.Stop? ==> StepEnds(t, Stop(p.tick, p.signal), key, o))
            && (p.Go? ==>
                  var r := Retake(w, d, p.tick, k, a, p.value);
                  && Touches(book, base, r.tick, k)
                  && SameNotes(t, r.tick) && r.tick.resume == t.resume
                  && (r.Go? ==> Taken(book, base, r.tick, k, a.(attempts := a.attempts + 1)))
                  && (r.Stop? ==> r.signal.Crash?))
  {
    hide Follows, OnlyAt, Sound, HandleStepError, Retake, StepEnds;
    var k := Key(t.phase, key);
    ErrorTouches(book, w, app, d, t, key, o, a, b);
    var p := HandleStepError(w, app, d, t, key, o, a, b);
    TouchesTrans(book, base, t, p.tick, k);
    TimePasses(t, p.tick);
    if p.Go? {
      RetakeTouches(book, base, w, d, p.tick, k, a, p.value);
    }
  }

  lemma {:induction false} LoopTouches(book: Book, base: Tick, w: World, app: App, d: Delivery, t: Tick, key: string,
                                       o: StepOptions, arg: Argument, a: Attempt)
    requires Taken(book, base, t, Key(t.phase, key), a) && base.phase == t.phase
    ensures var r := AttemptLoop(w, app, d, t, key, o, arg, a);
            Touches(book, base, r.tick, Key(t.phase, key)) && StepEnds(t, r, key, o)
    decreases if a.attempts < Policy(app, o).attempts then Policy(app, o).attempts - a.attempts else 0
  {
    hide RunAttempt, Touches, Taken, StepEnds, SameNotes, Policy;
    AttemptTouches(book, base, w, app, d, t, key, o, arg, a);
    var r := RunAttempt(w, app, d, t, key, o, arg, a);
    if r.Go? && r.value.None? {
      LoopTouches(book, base, w, app, d, r.tick, key, o, arg, a.(attempts := a.attempts + 1));
      EndsFrom(t, r.tick, AttemptLoop(w, app, d, t, key, o, arg, a), key, o);
    }
  }

  lemma EndsFrom(t: Tick, u: Tick, r: Eff<Value>, key: string, o: StepOptions)
    requires SameNotes(t, u) && u.resume == t.resume && u.phase == t.phase
    requires StepEnds(u, r, key, o)
    ensures StepEnds(t, r, key, o)
  {
  }

  /** A step call that may write: it touches only its own record, and ends in one of the five ways. */
  lemma StepTouches(book: Book, w: World, app: App, d: Delivery, t: Tick, key: string, o: StepOptions, arg: Argument)
    requires Sound(book, t.rec) && !NamesSleep(book, Key(t.phase, key))
    requires !SettlementReplay(d, t)
    ensures var r := ExecuteStep(w, app, d, t, key, o, arg);
            Touches(book, t, r.tick, Key(t.phase, key)) && StepEnds(t, r, key, o)
  {
    hide Follows, OnlyAt, Touches, Taken, AttemptLoop, BeginOrReplay;
    BeginTouches(book, w, d, t, key, o);
    var begin := BeginOrReplay(w, d, t, key, o);
    if begin.Go? && begin.value.Live? {
      LoopTouches(book, t, w, app, d, begin.tick, key, o, arg, begin.value.attempt);
      EndsFrom(t, begin.tick, ExecuteStep(w, app, d, t, key, o, arg), key, o);
    }
  }

  // -- Errors ------------------------------------------------------------------

  /**
   * The error raised by a step that gave up in this very tick, against the one on record: they differ
   * exactly for a poll, which then has used up all attempts it was granted.
   */
  predicate GaveUpWith(w: World, app: App, d: Delivery, u: Tick, key: string, o: StepOptions, err: Err) {
    var k := Key(u.phase, key);
    && u.rec.Has(k, StepFailed)
    && var s := u.rec.steps[k];
       var body := w.body(k, s.attempts);
       if body.RetryLater? then
         && s.error == Some(Err("RetryLaterError", body.reason)) && err == Exhausted(key, s.attempts)
         && Limit(app, d, o, true).Some? && Policy(app, o).attempts <= s.attempts
       else s.error == Some(err)
  }

  lemma HandleErrors(w: World, app: App, d: Delivery, t: Tick, key: string, o: StepOptions, a: Attempt)
    requires var b := Thrown(d, w.body(Key(t.phase, key), a.attempts)); b.Fails? || b.RetryLater?
    ensures var r := HandleStepError(w, app, d, t, key, o, a, Thrown(d, w.body(Key(t.phase, key), a.attempts)));
            && r.tick.phase == t.phase
            && (r.Stop? && r.signal.Raised? ==> GaveUpWith(w, app, d, r.tick, key, o, r.signal.err))
            && (r.Stop? && r.signal.Yield? ==> d.mode.Normal?)
            && (r.Go? ==> d.mode.Settle?)
  {
    hide Policy, Delay, RetryStep, Exhausted;
  }

  lemma AttemptErrors(w: World, app: App, d: Delivery, t: Tick, key: string, o: StepOptions, arg: Argument, a: Attempt)
    ensures var r := RunAttempt(w, app, d, t, key, o, arg, a);
            && r.tick.phase == t.phase
            && (r.Stop? && r.signal.Raised? ==> GaveUpWith(w, app, d, r.tick, key, o, r.signal.err))
            && (r.Stop? && r.signal.Yield? ==> d.mode.Normal?)
  {
    hide Policy, HandleStepError, GaveUpWith, RunningStep;
    var t1 := Pass(w, t.(trace := t.trace + [Started(Key(t.phase, key), a.attempts, t.now, arg)])).tick;
    var b := Thrown(d, w.body(Key(t.phase, key), a.attempts));
    if b.Fails? || b.RetryLater? {
      HandleErrors(w, app, d, t1, key, o, a);
    }
  }

  lemma {:induction false} LoopErrors(w: World, app: App, d: Delivery, t: Tick, key: string, o: StepOptions,
                                      arg: Argument, a: Attempt)
    ensures var r := AttemptLoop(w, app, d, t, key, o, arg, a);
            && r.tick.phase == t.phase
            && (r.Stop? && r.signal.Raised? ==> GaveUpWith(w, app, d, r.tick, key, o, r.signal.err))
            && (r.Stop? && r.signal.Yield? ==> d.mode.Normal?)
    decreases if a.attempts < Policy(app, o).attempts then Policy(app, o).attempts - a.attempts else 0
  {
    hide RunAttempt, Policy, GaveUpWith;
    AttemptErrors(w, app, d, t, key, o, arg, a);
    var r := RunAttempt(w, app, d, t, key, o, arg, a);
    if r.Go? && r.value.None? {
      LoopErrors(w, app, d, r.tick, key, o, arg, a.(attempts := a.attempts + 1));
    }
  }

  /** In this very tick the step gave up as a poll that had run out of attempts. */
  predicate PollExhausted(w: World, t: Tick, key: string, c: Eff<Value>) {
    var k := Key(t.phase, key);
    && c.Stop? && c.signal.Raised? && !t.rec.Has(k, StepFailed)
    && k in c.tick.rec.steps && w.body(k, c.tick.rec.steps[k].attempts).RetryLater?
  }

  /** A step call raises the error its record replays, unless it is a poll that just ran out of attempts. */
  lemma StepErrors(w: World, app: App, d: Delivery, t: Tick, key: string, o: StepOptions, arg: Argument)
    ensures var c := ExecuteStep(w, app, d, t, key, o, arg);
            c.Stop? && c.signal.Yield? ==> d.mode.Normal?
    ensures var c := ExecuteStep(w, app, d, t, key, o, arg);
            c.Stop? && c.signal.Raised? ==>
              && Key(t.phase, key) in c.tick.rec.steps
              && (PollExhausted(w, t, key, c) ==>
                    GaveUpWith(w, app, d, c.tick, key, o, c.signal.err) && !SettlementReplay(d, t))
              && (c.signal.err == StoredError(c.tick.rec.steps[Key(t.phase, key)], key)
                  <==> !PollExhausted(w, t, key, c))
  {
    hide AttemptLoop, Policy;
    var c := ExecuteStep(w, app, d, t, key, o, arg);
    var begin := BeginOrReplay(w, d, t, key, o);
    if !SettlementReplay(d, t) && begin.Go? && begin.value.Live? {
      LoopErrors(w, app, d, begin.tick, key, o, arg, begin.value.attempt);
      if c.Stop? && c.signal.Raised? {
        ExhaustedApart(key, c.tick.rec.steps[Key(t.phase, key)].attempts);
      }
    }
  }

  lemma ExhaustedApart(key: string, n: nat)
    ensures Exhausted(key, n).name != "RetryLaterError"
  {
    assert |Exhausted(key, n).name| == 28;
  }

  // -- Sleeps ------------------------------------------------------------------

  /** The ways a sleep call ends. Outside the main phase a settlement rejects it. */
  ghost predicate SleepEnds(d: Delivery, t: Tick, r: Eff<()>, key: string) {
    var k := Key(t.phase, key);
    && SameNotes(t, r.tick)
    && match r
       case Go(u, _) => u.rec.Has(k, StepCompleted) && u.resume == t.resume
       case Stop(u, Yield) =>
         && u.rec.Has(k, StepRunning) && u.resume.Some?
         && (t.resume.None? ==> Awaits(u, k))
       case Stop(_, Raised(_, stepScoped, _)) => d.mode.Settle? && !stepScoped
       case Stop(_, CancelledRun) => true
       case Stop(_, Crash) => true
       case Stop(_, SettleIncomplete) => false
  }

  /** Marking a due sleep completed. */
  lemma WakeTouches(book: Book, w: World, t: Tick, key: Key, at: nat)
    requires Sound(book, t.rec) && key in t.rec.steps && t.rec.steps[key].kind.Sleep?
    requires t.rec.steps[key].status.StepRunning? && t.rec.steps[key].nextRunAt.GetOr(0) <= at <= t.now
    ensures var r := Save(w, t, t.rec.WakeStep(key, at));
            && Touches(book, t, r.tick, key) && SameNotes(t, r.tick) && r.tick.resume == t.resume
            && r.tick.rec.Has(key, StepCompleted)
            && (r.Stop? ==> r.signal.Crash?)
  {
    hide Follows, OnlyAt;
    var r := Save(w, t, t.rec.WakeStep(key, at));
    assert StepSound(book, key, t.rec.steps[key], t.rec.Counter());
    OverwriteTouches(book, t, r.tick, key, r.tick.rec.steps[key], []);
  }

  lemma SleepTouches(book: Book, w: World, d: Delivery, t: Tick, key: string, delay: int)
    requires Sound(book, t.rec) && NamesSleep(book, Key(t.phase, key))
    requires !SettlementReplay(d, t)
    ensures var r := SleepFor(w, d, t, key, delay);
            Touches(book, t, r.tick, Key(t.phase, key)) && SleepEnds(d, t, r, key)
  {
    hide Follows, OnlyAt;
    var k := Key(t.phase, key);
    var r := SleepFor(w, d, t, key, delay);
    if t.rec.instance.status.Cancelled? {
      RestTouches(book, t, r.tick, k);
    } else if k in t.rec.steps {
      assert StepSound(book, k, t.rec.steps[k], t.rec.Counter());
      if t.rec.steps[k].status.StepRunning? && t.rec.steps[k].nextRunAt.value <= t.now {
        WakeTouches(book, w, t, k, t.now);
      } else {
        RestTouches(book, t, r.tick, k);
      }
    } else {
      FirstSleepTouches(book, w, d, t, key, delay);
    }
  }

  lemma FirstSleepTouches(book: Book, w: World, d: Delivery, t: Tick, key: string, delay: int)
    requires Sound(book, t.rec) && NamesSleep(book, Key(t.phase, key))
    requires !SettlementReplay(d, t) && !t.rec.instance.status.Cancelled? && Key(t.phase, key) !in t.rec.steps
    ensures var r := SleepFor(w, d, t, key, delay);
            Touches(book, t, r.tick, Key(t.phase, key)) && SleepEnds(d, t, r, key)
  {
    hide Follows, OnlyAt, Sound;
    var k := Key(t.phase, key);
    var r := SleepFor(w, d, t, key, delay);
    var due := t.now + MaxInt(0, delay);
    var p := Save(w, t, t.rec.BeginStep(k, Sleep, t.now, Some(due)).0);
    CreateTouches(book, t, p.tick, k, Sleep, Some(due));
    if p.Go? {
      assert p.tick.rec.Has(k, StepRunning) && p.tick.rec.steps[k].nextRunAt == Some(due);
      if delay <= 0 {
        WakeTouches(book, w, p.tick, k, t.now);
        TouchesTrans(book, t, p.tick, r.tick, k);
      } else {
        WaitTouches(book, t, p.tick, r.tick, k);
      }
    }
  }
}
