/** What BullMQ is told after a delivery, against what the store says; and what a failing body leaves behind. */
module Outcomes {
  import opened Values
  import opened Phases
  import opened Retries
  import opened Records
  import opened Processors
  import opened Steps
  import opened Ticks
  import opened Journal
  import opened StepCalls
  import opened Routes
  import opened Sagas
  import opened Failures
  import opened Runs
  import opened Guarantees
  import opened Cancellations
  import opened Progress

  /** A delay from a policy's range. */
  predicate Drawn(retry: ResolvedRetry, n: nat, delay: int) {
    && 0.0 <= retry.jitter <= 1.0
    && (Base(retry, n) as real * (1.0 - retry.jitter)).Floor <= delay <= Base(retry, n)
    && (Cap(retry).Some? ==> delay <= Cap(retry).value)
  }

  lemma DrawnDelay(retry: ResolvedRetry, n: nat, random: Chance)
    requires 0.0 <= retry.jitter <= 1.0
    ensures Drawn(retry, n, Retries.Delay(retry, n, random))
  {
    hide Base;
    JitterRange(retry, n, random);
  }

  /**
   * The verdict on a failed body. It is final exactly when the error is not retryable or the budget is
   * used up. Otherwise the record keeps running, keeps the error unless it was a poll, and is due after
   * the poll's own delay, or else after one drawn from the policy's range, never beyond its cap.
   */
  lemma FailureVerdict(w: World, app: App, d: Delivery, t: Tick, key: string, o: StepOptions, a: Attempt, b: Body)
    requires b.Fails? || b.RetryLater?
    ensures var k, retry, limit := Key(t.phase, key), Policy(app, o), Limit(app, d, o, b.RetryLater?);
            var u := HandleStepError(w, app, d, t, key, o, a, b).tick;
            && k in u.rec.steps && u.rec.steps[k].attempts == a.attempts && u.rec.steps[k].seqNo == a.seqNo
            && var s := u.rec.steps[k];
               && !s.status.StepCompleted?
               && (s.status.StepFailed? <==>
                     (b.Fails? && b.nonRetryable) || (limit.Some? && limit.value <= a.attempts))
               && (s.status.StepFailed? ==> s.error == Some(ErrorOf(b)) && s.nextRunAt.None?)
               && (s.status.StepRunning? ==> s.error == (if b.Fails? then Some(b.err) else None))
               && (s.status.StepRunning? ==> (s.nextRunAt.Some? <==> d.mode.Normal?))
               && (s.nextRunAt.Some? && b.RetryLater? && b.delay.Some? ==> s.nextRunAt.value == t.now + b.delay.value)
               && (s.nextRunAt.Some? && !(b.RetryLater? && b.delay.Some?) ==>
                     Drawn(retry, a.attempts, s.nextRunAt.value - t.now))
  {
    hide Base, Cap, Delay, Limit, Policy, Exhausted, FailStep, RecordRetry, Drawn;
    var limit := Limit(app, d, o, b.RetryLater?);
    DrawnDelay(Policy(app, o), a.attempts, w.random(t.ops));
    FailStepLeaves(w, t, key, a, ErrorOf(b));
    if !(b.Fails? && b.nonRetryable) && (limit.None? || a.attempts < limit.value) {
      var delay := if b.RetryLater? && b.delay.Some? then b.delay.value
                   else Retries.Delay(Policy(app, o), a.attempts, w.random(t.ops));
      RecordRetryLeaves(w, d, t, key, a, b, delay, limit);
    }
  }

  /** A settlement waits out the same delay in process, and then takes up the very next attempt. */
  lemma SettlementWaits(w: World, app: App, d: Delivery, t: Tick, key: string, o: StepOptions, a: Attempt, b: Body)
    requires (b.Fails? || b.RetryLater?) && HandleStepError(w, app, d, t, key, o, a, b).Go?
    ensures var k := Key(t.phase, key);
            var r := HandleStepError(w, app, d, t, key, o, a, b);
            var u := Retake(w, d, r.tick, k, a, r.value).tick;
            && d.mode.Settle?
            && (if b.RetryLater? && b.delay.Some? then r.value == b.delay.value
                else Drawn(Policy(app, o), a.attempts, r.value))
            && t.now + r.value <= u.now
            && u.rec.Has(k, StepRunning) && u.rec.steps[k].attempts == a.attempts + 1
  {
    hide Base, Cap, Retries.Delay, Limit, Policy, Exhausted, Drawn;
    DrawnDelay(Policy(app, o), a.attempts, w.random(t.ops));
  }

  lemma FailStepLeaves(w: World, t: Tick, key: string, a: Attempt, error: Err)
    ensures var u := FailStep(w, t, key, a, error).tick;
            && Key(t.phase, key) in u.rec.steps
            && var s := u.rec.steps[Key(t.phase, key)];
               s.status.StepFailed? && s.error == Some(error) && s.attempts == a.attempts && s.seqNo == a.seqNo
               && s.nextRunAt.None?
  {
  }

  lemma RecordRetryLeaves(w: World, d: Delivery, t: Tick, key: string, a: Attempt, b: Body, delay: nat,
                          limit: Option<nat>)
    requires b.Fails? || b.RetryLater?
    ensures var u := RecordRetry(w, d, t, key, a, b, delay, limit).tick;
            && Key(t.phase, key) in u.rec.steps
            && var s := u.rec.steps[Key(t.phase, key)];
               && s.status.StepRunning? && s.attempts == a.attempts && s.seqNo == a.seqNo
               && s.error == (if b.Fails? then Some(b.err) else None)
               && s.nextRunAt == if d.mode.Normal? then Some(t.now + delay) else None
  {
  }

  // -- What BullMQ is told, against the store ---------------------------------------------------

  /** BullMQ is asked to try again: a live delivery, an error outside any step, attempts left. */
  predicate TriesAgain(d: Delivery, signal: Signal)
    requires signal.Raised?
  {
    && d.mode.Normal? && !signal.stepScoped && d.attempt < d.attemptsTotal
    && !(signal.unrecoverable || signal.err.name == "UnrecoverableError" || d.discarded)
  }

  /** A final error in a run that was not compensating, with nothing to undo and nobody to tell. */
  predicate FailsFast(app: App, d: Delivery, entered: bool, run: Eff<Value>) {
    && run.Stop? && run.signal.Raised? && !entered && !TriesAgain(d, run.signal)
    && run.tick.rollbacks == [] && app.onFailure.None?
  }

  /**
   * The store has what BullMQ is told. A fenced worker changes no status; `fast` are the failures it reports
   * all the same.
   */
  ghost predicate Truthful(w: World, fast: bool, r: Eff<Outcome>) {
    r.Go? ==>
      var i := r.tick.rec.instance;
      match r.value
      case RunCompleted(output) => !w.fenced && i.status.Completed? && i.output == Clone(output)
      case Suspended => w.fenced && !i.status.Terminal()
      case Retriable(_) => i.status.Yielded?
      case RunFailed(error) =>
        if w.fenced then fast && !i.status.Terminal()
        else (i.status.Failed? || i.status.CompensationFailed?) && i.error == Some(error)
      case RunCancelled => if w.fenced then !i.status.Terminal() else i.status.Cancelled?
      case Parked(_) => i.status.Yielded? || i.status.Compensating?
  }

  lemma UnwindTruthful(w: World, t: Tick, signal: Signal)
    requires t.rec.instance.status.Compensating?
    ensures Truthful(w, false, Unwind(w, t, signal))
  {
  }

  lemma SettleTruthful(w: World, t: Tick, error: Err, report: Report)
    requires t.rec.instance.status.Compensating?
    ensures Truthful(w, false, SettleTerminal(w, t, error, report))
  {
    hide SettleTerminal;
    SettleWrites(w, t, error, report);
    SettleFenced(w, t, error, report);
  }

  lemma SettleFenced(w: World, t: Tick, error: Err, report: Report)
    ensures var r := SettleTerminal(w, t, error, report);
            r.Go? ==> (r.value.Suspended? <==> w.fenced)
  {
    hide Merge;
  }

  lemma SequenceTruthful(book: Book, w: World, app: App, d: Delivery, t: Tick, error: Err)
    requires Sound(book, t.rec) && Obeys(app, book)
    ensures Truthful(w, false, FailureSequence(w, app, d, t, error))
  {
    hide Compensate, HandleFailure, Obeys, Sound, Moves, CompletedMainSteps, Unwind, SettleTerminal, Accounts, Added,
         FailureEnds, Truthful, Told, Handed;
    var entered := Enter(w, t, error);
    EnterUnderway(book, w, t, error);
    if entered.Go? {
      var trigger := TriggerOf(t.rec.instance, error);
      CompensateMoves(book, w, app, d, entered.tick, trigger);
      var undone := Compensate(w, app, d, entered.tick, trigger);
      MovesSound(book, entered.tick, undone.tick);
      if undone.Stop? {
        UnwindTruthful(w, undone.tick, undone.signal);
      } else {
        var info := FailureInfo(trigger, FailedStepOf(t), CompletedMainSteps(undone.tick.rec), undone.value);
        HandleMoves(book, w, app, d, undone.tick, info);
        var handled := HandleFailure(w, app, d, undone.tick, info);
        if handled.Stop? {
          UnwindTruthful(w, handled.tick, handled.signal);
        } else {
          SettleTruthful(w, handled.tick, trigger, undone.value);
        }
      }
    } else {
      CrashTruthful(w, FailureSequence(w, app, d, t, error));
    }
  }

  lemma CrashTruthful(w: World, r: Eff<Outcome>)
    requires r.Stop?
    ensures Truthful(w, false, r)
  {
  }

  lemma SequenceNotRetriable(w: World, app: App, d: Delivery, t: Tick, err: Err)
    ensures var r := FailureSequence(w, app, d, t, err);
            r.Go? ==> !r.value.Retriable?
  {
    hide Compensate, HandleFailure, Merge, CompletedMainSteps, SaveInstance;
  }

  /** The fast path: a failure reported whether or not it could be stored. */
  lemma FailFastReports(w: World, t: Tick, err: Err)
    requires t.rec.instance.status.Running?
    ensures var r := FailFast(w, t, err);
            && Truthful(w, true, r)
            && (r.Go? ==> r.value == RunFailed(err) && (w.fenced ==> r.tick.rec.instance.status.Running?))
  {
  }

  lemma RetryReports(w: World, d: Delivery, t: Tick, err: Err)
    ensures var saved := SaveInstance(w, t, NO_CHANGE.(status := Some(Yielded)));
            saved.Go? ==> Truthful(w, false, Go(saved.tick, Retriable(err))) && saved.tick.rec.steps == t.rec.steps
  {
  }

  lemma ClassifyTruthful(book: Book, w: World, app: App, d: Delivery, t: Tick, run: Eff<Value>)
    requires Sound(book, run.tick.rec) && Obeys(app, book) && run.tick.rec.instance.status.Running?
    requires run.Stop? && run.signal.Raised?
    ensures var s := run.signal;
            var r := Classify(w, app, d, run.tick, s.err, s.stepScoped, s.unrecoverable);
            var fast := FailsFast(app, d, false, run);
            && Truthful(w, fast, r)
            && (r.Go? && r.value.Retriable? ==>
                  r.value.error == s.err && TriesAgain(d, s) && r.tick.rec.steps == run.tick.rec.steps)
            && (r.Go? && fast ==> r.value.RunFailed?)
  {
    hide FailureSequence, Sound, Obeys, FailFast, Truthful, SaveInstance, Merge;
    var s := run.signal;
    SequenceTruthful(book, w, app, d, run.tick, s.err);
    SequenceNotRetriable(w, app, d, run.tick, s.err);
    FailFastReports(w, run.tick, s.err);
    RetryReports(w, d, run.tick, s.err);
    var saved := SaveInstance(w, run.tick, NO_CHANGE.(status := Some(Yielded)));
    if saved.Stop? {
      CrashTruthful(w, Stop(saved.tick, saved.signal));
    }
  }

  lemma CompletionTruthful(w: World, app: App, d: Delivery, run: Eff<Value>)
    requires run.Go? && run.tick.rec.instance.status.Running?
    ensures var r := Conclude(w, app, d, false, run);
            && Truthful(w, false, r)
            && (r.Go? ==> !r.value.Retriable? && (r.value.RunCompleted? ==> r.value.output == run.value))
  {
    hide FailureSequence, Classify, Clone;
  }

  lemma StopTruthful(w: World, app: App, d: Delivery, entered: bool, run: Eff<Value>)
    requires run.Stop? && !run.signal.Raised? && !run.signal.SettleIncomplete?
    requires !run.tick.rec.instance.status.Terminal()
    ensures var r := Conclude(w, app, d, entered, run);
            Truthful(w, false, r) && (r.Go? ==> !r.value.Retriable? && !r.value.RunCompleted?)
  {
    hide FailureSequence, Classify;
  }

  lemma RanStatus(book: Book, d: Delivery, t: Tick, run: Eff<Value>)
    requires Ready(t) && Ran(book, d, t, run)
    ensures Sound(book, run.tick.rec) && run.tick.rec.instance.status == t.rec.instance.status
  {
    hide Follows, Sound;
  }

  /**
   * What a delivery reports is true of the store: completions and failures are stored with the reported
   * output and error, a suspended run is live and fenced off, a parked one is waiting. Only a worker that
   * was fenced off reports an ending the store does not have, and only a cancellation or a fast failure.
   * BullMQ is asked to try again only for an error outside any step, thrown with attempts left.
   */
  lemma ReportsAreTrue(book: Book, w: World, app: App, d: Delivery, t: Tick)
    requires Sound(book, t.rec) && Obeys(app, book) && Ready(t)
    ensures var r := Execute(w, app, d, t);
            var run := Eval(w, app, d, t, app.main, []);
            var fast := FailsFast(app, d, t.rec.instance.status.Compensating?, run);
            && Truthful(w, fast, r)
            && (r.Go? && fast ==> r.value.RunFailed?)
            && (r.Go? && r.value.Retriable? ==>
                  && run.Stop? && run.signal.Raised? && r.value.error == run.signal.err && TriesAgain(d, run.signal)
                  && !t.rec.instance.status.Compensating?
                  && (!ReadsExhausted(w, app, d, t, app.main, []) ==>
                        RouteIn(app, r.tick.rec).end == Threw(r.value.error, false)))
  {
    hide Eval, Sound, Obeys, FailureSequence, Classify, RouteOf, Truthful, SettleTrigger, ReadsExhausted, Follows;
    RanHere(book, w, app, d, t);
    var run := Eval(w, app, d, t, app.main, []);
    var entered := t.rec.instance.status.Compensating?;
    RanStatus(book, d, t, run);
    if run.Stop? && run.signal.Raised? && !entered {
      ClassifyTruthful(book, w, app, d, t, run);
      if !ReadsExhausted(w, app, d, t, app.main, []) {
        RetriableRoute(book, w, app, d, t);
      }
    } else if run.Go? && !entered {
      CompletionTruthful(w, app, d, run);
    } else if run.Stop? && !run.signal.Raised? && !run.signal.SettleIncomplete? {
      StopTruthful(w, app, d, entered, run);
    } else {
      var error := if run.Stop? && run.signal.Raised? then SettleTrigger(d, Some(run.signal.err))
                     else SettleTrigger(d, None);
      SequenceTruthful(book, w, app, d, run.tick, error);
      SequenceNotRetriable(w, app, d, run.tick, error);
    }
  }

  lemma RetriableRoute(book: Book, w: World, app: App, d: Delivery, t: Tick)
    requires Sound(book, t.rec) && Obeys(app, book) && Ready(t) && !ReadsExhausted(w, app, d, t, app.main, [])
    requires var run := Eval(w, app, d, t, app.main, []); run.Stop? && run.signal.Raised?
    ensures var run := Eval(w, app, d, t, app.main, []);
            !run.signal.stepScoped ==>
              forall rec: Record :: rec.steps == run.tick.rec.steps ==>
                RouteIn(app, rec).end == Threw(run.signal.err, false)
  {
    hide Eval, Sound, Obeys, ChangesOnRoute, RouteOf, ReadsExhausted, Ran;
    ForwardEnds(book, w, app, d, t);
    var run := Eval(w, app, d, t, app.main, []);
    forall rec: Record | rec.steps == run.tick.rec.steps && !run.signal.stepScoped
      ensures RouteIn(app, rec).end == Threw(run.signal.err, false)
    {
      assert RouteIn(app, rec) == RouteIn(app, run.tick.rec);
    }
  }

  // -- Whether BullMQ is asked to try again ------------------------------------------------------

  /** Outside a settlement an error that is not a step's is one the processor threw itself. */
  lemma {:induction false} OwnErrors(book: Book, w: World, app: App, d: Delivery, t: Tick, p: Processor,
                                     seen: seq<Seen>)
    requires Sound(book, t.rec) && t.phase != Compensation && ProcessorObeys(p, t.phase, book) && d.mode.Normal?
    ensures var r := Eval(w, app, d, t, p, seen);
            var m := p.At(LiveSeen(w, app, d, t, p, seen));
            && (r.Stop? && r.signal.Raised? && !r.signal.stepScoped <==> m.Throw? && !m.marked)
            && (m.Throw? && !m.marked ==> r.signal == Raised(m.err, false, m.unrecoverable))
    decreases p.Left(seen)
  {
    hide ExecuteStep, SleepFor, Follows, Sound, OnlyAt, ErrorSeen, Registered, Awaits, SameNotes;
    match p.At(seen)
    case Return(_) =>
    case Throw(_, _, _) =>
    case Pause(key, delay) =>
      assert MoveObeys(p.At(seen), t.phase, book);
      SleepSpans(book, w, d, t, key, delay);
      var c := SleepFor(w, d, t, key, delay);
      if c.Go? {
        OwnErrors(book, w, app, d, c.tick, p, seen + [Slept]);
      }
    case Call(key, o, recovery) =>
      assert MoveObeys(p.At(seen), t.phase, book);
      StepSpans(book, w, app, d, t, key, o, Nothing);
      var c := ExecuteStep(w, app, d, t, key, o, Nothing);
      if GoesOn(recovery, c) {
        OwnErrors(book, w, app, d, c.tick, p, seen + [SeenOf(recovery, c)]);
      }
  }

  lemma ClassifyRetries(w: World, app: App, d: Delivery, t: Tick, s: Signal)
    requires s.Raised?
    ensures var r := Classify(w, app, d, t, s.err, s.stepScoped, s.unrecoverable);
            && (TriesAgain(d, s) ==> r.tick.trace == t.trace && (r.Go? ==> r.value == Retriable(s.err)))
            && (r.Go? && r.value.Retriable? ==> TriesAgain(d, s))
  {
    hide FailureSequence, FailFast, Merge;
    SequenceNotRetriable(w, app, d, t, s.err);
    FastNotRetriable(w, t, s.err);
  }

  lemma FastNotRetriable(w: World, t: Tick, err: Err)
    ensures var r := FailFast(w, t, err); r.Go? ==> !r.value.Retriable?
  {
    hide Merge;
  }

  /**
   * BullMQ is asked to try again exactly when the last thing the processor did, in a live delivery of a run
   * that was not compensating, was to throw an error of its own with attempts left, and neither the error nor
   * the job rules a retry out. The run is then yielded, as far as its steps have come, and nothing is undone
   * and nobody told.
   */
  lemma RetriableExactly(book: Book, w: World, app: App, d: Delivery, t: Tick)
    requires Sound(book, t.rec) && Obeys(app, book) && Ready(t) && Execute(w, app, d, t).Go?
    ensures var r := Execute(w, app, d, t);
            var m := app.main.At(LiveSeen(w, app, d, t, app.main, []));
            && (r.value.Retriable? <==>
                  && !t.rec.instance.status.Compensating? && d.mode.Normal? && d.attempt < d.attemptsTotal
                  && m.Throw? && !m.marked && !m.unrecoverable && m.err.name != "UnrecoverableError" && !d.discarded)
            && (r.value.Retriable? ==>
                  && r.value.error == m.err && r.tick.rec.instance.status.Yielded?
                  && r.tick.rec.steps == Eval(w, app, d, t, app.main, []).tick.rec.steps
                  && t.trace <= r.tick.trace
                  && forall i :: |t.trace| <= i < |r.tick.trace| ==> InPhase(r.tick.trace[i], Main))
  {
    hide Eval, Sound, Obeys, FailureSequence, Classify, RouteOf, SettleTrigger, ReadsExhausted, Follows, LiveSeen;
    var run := Eval(w, app, d, t, app.main, []);
    ReportsAreTrue(book, w, app, d, t);
    ObeysMain(app, book);
    if d.mode.Normal? {
      OwnErrors(book, w, app, d, t, app.main, []);
    }
    EvalActs(w, app, d, t, app.main, []);
    if run.Stop? && run.signal.Raised? && !t.rec.instance.status.Compensating? {
      ClassifyRetries(w, app, d, run.tick, run.signal);
      if TriesAgain(d, run.signal) {
        RetryKeepsSteps(w, app, d, run.tick, run.signal);
      }
    }
  }

  lemma RetryKeepsSteps(w: World, app: App, d: Delivery, t: Tick, s: Signal)
    requires s.Raised? && TriesAgain(d, s)
    ensures Classify(w, app, d, t, s.err, s.stepScoped, s.unrecoverable).tick.rec.steps == t.rec.steps
  {
    hide FailureSequence, FailFast, Merge;
  }

  /** A fast failure, stored: the error, the step it came from, and nothing undone or told. */
  lemma FastFailureStored(book: Book, w: World, app: App, d: Delivery, t: Tick)
    requires Sound(book, t.rec) && Obeys(app, book) && Ready(t) && Execute(w, app, d, t).Go? && !w.fenced
    requires FailsFast(app, d, t.rec.instance.status.Compensating?, Eval(w, app, d, t, app.main, []))
    ensures var run := Eval(w, app, d, t, app.main, []);
            var r := Execute(w, app, d, t);
            && r.value == RunFailed(run.signal.err) && r.tick.trace == run.tick.trace
            && r.tick.rec.instance.status.Failed? && r.tick.rec.instance.error == Some(run.signal.err)
            && r.tick.rec.instance.failedStep == run.tick.failedStep.OrElse(t.rec.instance.failedStep)
            && r.tick.rec.instance.failureError == t.rec.instance.failureError
  {
    hide Eval, Sound, Obeys, FailureSequence, SettleTrigger, Follows;
    RanHere(book, w, app, d, t);
  }

  /**
   * What a run that goes down is recorded to have failed of: the error that escaped the processor; or, when a
   * settlement met an unfinished step, the error its job failed with, if that is known.
   */
  lemma TriggerRecorded(book: Book, w: World, app: App, d: Delivery, t: Tick)
    requires Sound(book, t.rec) && Obeys(app, book) && Ready(t) && !t.rec.instance.status.Compensating?
    requires var run := Eval(w, app, d, t, app.main, []);
             && run.Stop?
             && (run.signal.SettleIncomplete?
                 || (run.signal.Raised? && !TriesAgain(d, run.signal) && !FailsFast(app, d, false, run)))
    ensures var run := Eval(w, app, d, t, app.main, []);
            Execute(w, app, d, t).tick.rec.instance.failureError
            == Some(if run.signal.Raised? then run.signal.err
                    else if d.settleError.Some? then d.settleError.value
                    else Err("Error", "durable run failed (resumed compensation)"))
  {
    hide Eval, Sound, Obeys, FailureSequence, Follows, Moves, Closed, Added, FailureAct;
    RanHere(book, w, app, d, t);
    var run := Eval(w, app, d, t, app.main, []);
    FailureSequenceEnds(book, w, app, d, run.tick,
                        if run.signal.Raised? then run.signal.err else SettleTrigger(d, None));
  }

  /** Once a failure or a cancellation is stored, every later delivery reports the same. */
  lemma OutcomeRepeats(book: Book, app: App, input: InitInput, s: Run, w: World, d: Delivery, w': World, d': Delivery)
    requires Obeys(app, book) && (s.stored.Some? ==> Sound(book, s.stored.value)) && Unended(s) && !Skipped(s, d)
    requires var r := RunLocked(w, app, d, s.stored, input, s.now, s.trace);
             r.Go? && (r.value.RunFailed? || r.value.RunCancelled?) && !Unstored(r)
    ensures var r := RunLocked(w, app, d, s.stored, input, s.now, s.trace);
            var n := Next(app, input, s, Deliver(w, d));
            var later := RunLocked(w', app, d', n.stored, input, n.now, n.trace);
            later.Go? && later.value == r.value && Next(app, input, n, Deliver(w', d')) == n
  {
    hide Eval, Sound, Obeys, Execute, Began, FailsFast, ReadsExhausted, RouteOf, Ready;
    LockedExecutes(app, input, s, w, d);
    BeganSound(book, app, input, s, w);
    ReportsAreTrue(book, w, app, d, Began(input, s, w));
    DeliverEnded(app, input, Next(app, input, s, Deliver(w, d)), w', d');
  }

  /** An ending that BullMQ is told of and the store does not have. */
  predicate Unstored(r: Eff<Outcome>) {
    r.Go? && (r.value.RunFailed? || r.value.RunCompleted? || r.value.RunCancelled?)
    && !r.tick.rec.instance.status.Terminal()
  }

  /**
   * Exactly which endings are reported without being stored: those of a fenced worker that started a body
   * which cancels its run, or that fails the run fast.
   */
  lemma UnstoredExactly(book: Book, w: World, app: App, d: Delivery, t: Tick)
    requires Sound(book, t.rec) && Obeys(app, book) && Ready(t) && Execute(w, app, d, t).Go?
    ensures var r := Execute(w, app, d, t);
            var run := Eval(w, app, d, t, app.main, []);
            Unstored(r) <==>
              w.fenced && (CancelStarted(w, t, r.tick) || FailsFast(app, d, t.rec.instance.status.Compensating?, run))
  {
    hide Eval, Sound, Obeys, Execute, RouteOf, FailsFast, ReadsExhausted, CancelStarted;
    ReportsAreTrue(book, w, app, d, t);
    CancelledExactly(book, w, app, d, t);
  }

  // -- The live output and the stored one ---------------------------------------------------------

  /**
   * The delivery that completes a run hands out what the processor returned; every later one hands out its
   * JSON round trip. The two are the same exactly for values that the round trip leaves alone.
   */
  lemma FirstOutputExactly(book: Book, app: App, input: InitInput, s: Run, w: World, d: Delivery, w': World,
                           d': Delivery)
    requires Obeys(app, book) && (s.stored.Some? ==> Sound(book, s.stored.value)) && Unended(s) && !Skipped(s, d)
    requires var r := RunLocked(w, app, d, s.stored, input, s.now, s.trace); r.Go? && r.value.RunCompleted?
    ensures var first := RunLocked(w, app, d, s.stored, input, s.now, s.trace);
            var n := Next(app, input, s, Deliver(w, d));
            var later := RunLocked(w', app, d', n.stored, input, n.now, n.trace);
            var run := Eval(w, app, d, Began(input, s, w), app.main, []);
            && run.Go? && first.value == RunCompleted(run.value)
            && later.Go? && later.value == RunCompleted(Clone(run.value))
            && (later.value == first.value <==> Clone(run.value) == run.value)
  {
    hide Eval, Sound, Obeys, Execute, Began, Truthful;
    var t := Began(input, s, w);
    LockedExecutes(app, input, s, w, d);
    BeganSound(book, app, input, s, w);
    CompletesWith(book, w, app, d, t);
    DeliverEnded(app, input, Next(app, input, s, Deliver(w, d)), w', d');
  }

  lemma CompletesWith(book: Book, w: World, app: App, d: Delivery, t: Tick)
    requires Sound(book, t.rec) && Obeys(app, book) && Ready(t)
    requires Execute(w, app, d, t).Go? && Execute(w, app, d, t).value.RunCompleted?
    ensures var run := Eval(w, app, d, t, app.main, []);
            var r := Execute(w, app, d, t);
            && run.Go? && r.value == RunCompleted(run.value)
            && r.tick.rec.instance.status.Completed? && r.tick.rec.instance.output == Clone(run.value)
  {
    hide Eval, Sound, Obeys, FailureSequence, Classify, SettleTrigger, Follows;
    ReportsAreTrue(book, w, app, d, t);
    RanHere(book, w, app, d, t);
    var run := Eval(w, app, d, t, app.main, []);
    var entered := t.rec.instance.status.Compensating?;
    RanStatus(book, d, t, run);
    if run.Stop? && !run.signal.Raised? && !run.signal.SettleIncomplete? {
      StopTruthful(w, app, d, entered, run);
    } else if run.Go? && !entered {
      CompletionTruthful(w, app, d, run);
    } else {
      var error := if run.Stop? && run.signal.Raised? && entered then SettleTrigger(d, Some(run.signal.err))
                   else if run.Stop? && run.signal.Raised? then run.signal.err else SettleTrigger(d, None);
      FailureSequenceEnds(book, w, app, d, run.tick, error);
      if run.Stop? && run.signal.Raised? && !entered {
        ClassifyNeverCompletes(book, w, app, d, run);
      }
    }
  }

  lemma ClassifyNeverCompletes(book: Book, w: World, app: App, d: Delivery, run: Eff<Value>)
    requires Sound(book, run.tick.rec) && Obeys(app, book) && run.Stop? && run.signal.Raised?
    ensures var s := run.signal;
            var r := Classify(w, app, d, run.tick, s.err, s.stepScoped, s.unrecoverable);
            r.Go? ==> !r.value.RunCompleted?
  {
    hide FailureSequence, Sound, Obeys, Merge, Underway, FailureEnds;
    FailureSequenceEnds(book, w, app, d, run.tick, run.signal.err);
  }
}
