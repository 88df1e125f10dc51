/** A delivery cancels its run exactly when it starts a body that does. */
module Cancellations {
  import opened Values
  import opened Phases
  import opened Retries
  import opened Records
  import opened Processors
  import opened Steps
  import opened Ticks
  import opened Journal
  import opened StepCalls
  import opened Routes
  import opened Sagas
  import opened Failures
  import opened Runs
  import opened Guarantees

  /** A start of a body that cancels the run. */
  predicate StartsCancel(w: World, act: Act) {
    act.Started? && w.body(act.key, act.attempt).NestedCancel?
  }

  /** Between `a` and `b` such a body has started. */
  ghost predicate CancelStarted(w: World, a: Tick, b: Tick) {
    exists i :: |a.trace| <= i < |b.trace| && StartsCancel(w, b.trace[i])
  }

  /** From `t` on: a cancellation comes from a body that started, and such a body lets nothing go on. */
  ghost predicate CancelsExactly<T>(w: World, t: Tick, r: Eff<T>) {
    && t.trace <= r.tick.trace
    && (r.Stop? && r.signal.CancelledRun? ==> CancelStarted(w, t, r.tick))
    && (CancelStarted(w, t, r.tick) ==> r.Stop? && (r.signal.CancelledRun? || r.signal.Crash?))
  }

  lemma CancelJoins(w: World, a: Tick, b: Tick, c: Tick)
    requires a.trace <= b.trace <= c.trace
    ensures CancelStarted(w, a, c) <==> CancelStarted(w, a, b) || CancelStarted(w, b, c)
  {
    if CancelStarted(w, a, b) {
      var i :| |a.trace| <= i < |b.trace| && StartsCancel(w, b.trace[i]);
      assert c.trace[i] == b.trace[i];
    }
    if CancelStarted(w, a, c) {
      var i :| |a.trace| <= i < |c.trace| && StartsCancel(w, c.trace[i]);
      assert i < |b.trace| ==> c.trace[i] == b.trace[i];
    }
  }

  /** What goes on after a stretch in which nothing cancelled. */
  lemma CancelsAfter<S, T>(w: World, t: Tick, c: Eff<S>, r: Eff<T>)
    requires CancelsExactly(w, t, c) && (c.Go? || !(c.signal.CancelledRun? || c.signal.Crash?))
    requires CancelsExactly(w, c.tick, r)
    ensures CancelsExactly(w, t, r)
  {
    CancelJoins(w, t, c.tick, r.tick);
  }

  lemma QuietCancels<T>(w: World, t: Tick, r: Eff<T>)
    requires r.tick.trace == t.trace && (r.Stop? ==> !r.signal.CancelledRun?)
    ensures CancelsExactly(w, t, r)
  {
  }

  lemma OneStart(w: World, before: Tick, after: Tick, start: Act, closing: seq<Act>)
    requires start.Started? && after.trace == before.trace + [start] + closing
    requires closing == [] || (|closing| == 1 && Closing(closing[0]))
    ensures CancelStarted(w, before, after) <==> StartsCancel(w, start)
  {
    assert after.trace[|before.trace|] == start;
  }

  lemma ErrorSignals(w: World, app: App, d: Delivery, t: Tick, key: string, o: StepOptions, a: Attempt, b: Body)
    requires b.Fails? || b.RetryLater?
    ensures var r := HandleStepError(w, app, d, t, key, o, a, b);
            r.Stop? ==> !r.signal.CancelledRun?
  {
    hide Policy, Limit, Delay, RetryStep, ErrorOf, Exhausted;
  }

  lemma AttemptCancels(w: World, app: App, d: Delivery, t: Tick, key: string, o: StepOptions, arg: Argument,
                       a: Attempt)
    ensures CancelsExactly(w, t, RunAttempt(w, app, d, t, key, o, arg, a))
  {
    hide Policy, HandleStepError, RunningStep, CancelStarted;
    var k := Key(t.phase, key);
    var r := RunAttempt(w, app, d, t, key, o, arg, a);
    var start := Started(k, a.attempts, t.now, arg);
    var p1 := Pass(w, t.(trace := t.trace + [start]));
    var b := Thrown(d, w.body(k, a.attempts));
    if p1.Stop? || b.NestedYield? || b.NestedCancel? {
      OneStart(w, t, r.tick, start, []);
    } else if b.Succeeds? {
      OneStart(w, t, r.tick, start, [Ended(k, a.attempts)]);
    } else {
      ErrorActs(w, app, d, p1.tick, key, o, a, b);
      ErrorSignals(w, app, d, p1.tick, key, o, a, b);
      assert r.tick.trace[..|t.trace| + 1] == t.trace + [start];
      OneStart(w, t, r.tick, start, [r.tick.trace[|t.trace| + 1]]);
    }
  }

  lemma {:induction false} LoopCancels(w: World, app: App, d: Delivery, t: Tick, key: string, o: StepOptions,
                                       arg: Argument, a: Attempt)
    ensures CancelsExactly(w, t, AttemptLoop(w, app, d, t, key, o, arg, a))
    decreases if a.attempts < Policy(app, o).attempts then Policy(app, o).attempts - a.attempts else 0
  {
    hide RunAttempt, Policy, CancelStarted;
    AttemptCancels(w, app, d, t, key, o, arg, a);
    var r := RunAttempt(w, app, d, t, key, o, arg, a);
    if r.Go? && r.value.None? {
      LoopCancels(w, app, d, r.tick, key, o, arg, a.(attempts := a.attempts + 1));
      CancelsAfter(w, t, r, AttemptLoop(w, app, d, t, key, o, arg, a));
    }
  }

  lemma StepCancels(w: World, app: App, d: Delivery, t: Tick, key: string, o: StepOptions, arg: Argument)
    requires !t.rec.instance.status.Cancelled?
    ensures CancelsExactly(w, t, ExecuteStep(w, app, d, t, key, o, arg))
  {
    hide AttemptLoop, CancelStarted;
    var r := ExecuteStep(w, app, d, t, key, o, arg);
    var begin := BeginOrReplay(w, d, t, key, o);
    if !SettlementReplay(d, t) && begin.Go? && begin.value.Live? {
      QuietCancels(w, t, begin);
      LoopCancels(w, app, d, begin.tick, key, o, arg, begin.value.attempt);
      CancelsAfter(w, t, begin, r);
    } else {
      QuietCancels(w, t, r);
    }
  }

  lemma SleepCancels(w: World, d: Delivery, t: Tick, key: string, delay: int)
    requires !t.rec.instance.status.Cancelled?
    ensures CancelsExactly(w, t, SleepFor(w, d, t, key, delay))
  {
    QuietCancels(w, t, SleepFor(w, d, t, key, delay));
  }

  lemma {:induction false} EvalCancels(book: Book, w: World, app: App, d: Delivery, t: Tick, p: Processor,
                                       seen: seq<Seen>)
    requires Sound(book, t.rec) && t.phase != Compensation && ProcessorObeys(p, t.phase, book)
    requires !t.rec.instance.status.Cancelled?
    ensures CancelsExactly(w, t, Eval(w, app, d, t, p, seen))
    decreases p.Left(seen)
  {
    hide ExecuteStep, SleepFor, Follows, Sound, StepEnds, OnlyAt, CancelStarted, CancelsExactly;
    var r := Eval(w, app, d, t, p, seen);
    match p.At(seen)
    case Return(_) => QuietCancels(w, t, r);
    case Throw(_, _, _) => QuietCancels(w, t, r);
    case Pause(key, delay) =>
      assert MoveObeys(p.At(seen), t.phase, book);
      SleepSpans(book, w, d, t, key, delay);
      SleepCancels(w, d, t, key, delay);
      var c := SleepFor(w, d, t, key, delay);
      if c.Go? {
        EvalCancels(book, w, app, d, c.tick, p, seen + [Slept]);
        CancelsAfter(w, t, c, r);
      } else {
        StoppedCancels(w, t, c, r);
      }
    case Call(key, o, recovery) =>
      assert MoveObeys(p.At(seen), t.phase, book);
      StepSpans(book, w, app, d, t, key, o, Nothing);
      StepCancels(w, app, d, t, key, o, Nothing);
      var c := ExecuteStep(w, app, d, t, key, o, Nothing);
      if GoesOn(recovery, c) {
        EvalCancels(book, w, app, d, c.tick, p, seen + [SeenOf(recovery, c)]);
        CancelsAfter(w, t, c, r);
      } else {
        StoppedCancels(w, t, c, r);
      }
  }

  lemma StoppedCancels<S, T>(w: World, t: Tick, c: Eff<S>, r: Eff<T>)
    requires CancelsExactly(w, t, c) && c.Stop? && r == Stop(c.tick, c.signal)
    ensures CancelsExactly(w, t, r)
  {
  }

  lemma {:induction false} RollbacksCancel(book: Book, w: World, app: App, d: Delivery, t: Tick, rs: seq<Rollback>,
                                           error: Err, report: Report)
    requires Sound(book, t.rec) && t.phase == Compensation && !t.rec.instance.status.Cancelled?
    ensures CancelsExactly(w, t, RunRollbacks(w, app, d, t, rs, error, report))
    decreases |rs|
  {
    hide ExecuteStep, Follows, Sound, StepEnds, OnlyAt, CancelStarted, CancelsExactly;
    var r := RunRollbacks(w, app, d, t, rs, error, report);
    if rs == [] {
      QuietCancels(w, t, r);
    } else {
      var first := rs[0];
      var o, arg := RollbackOptions(app, first), Undo(first.output, error);
      StepSpans(book, w, app, d, t, first.key, o, arg);
      StepCancels(w, app, d, t, first.key, o, arg);
      var c := ExecuteStep(w, app, d, t, first.key, o, arg);
      if c.Go? || c.signal.Raised? {
        RollbacksCancel(book, w, app, d, c.tick, rs[1..], error,
                        if c.Go? then report.(rolledBack := report.rolledBack + [first.key])
                        else report.(failed := report.failed + [(first.key, c.signal.err)]));
        CancelsAfter(w, t, c, r);
      } else {
        StoppedCancels(w, t, c, r);
      }
    }
  }

  // -- A whole delivery ------------------------------------------------------------------------

  /** A delivery that runs to its end. */
  ghost predicate TellsCancel(w: World, t: Tick, r: Eff<Outcome>) {
    && t.trace <= r.tick.trace
    && (r.Go? ==> (r.value.RunCancelled? <==> CancelStarted(w, t, r.tick)))
  }

  lemma TellsAfter<S>(w: World, t: Tick, c: Eff<S>, r: Eff<Outcome>)
    requires CancelsExactly(w, t, c) && (c.Go? || !(c.signal.CancelledRun? || c.signal.Crash?))
    requires TellsCancel(w, c.tick, r)
    ensures TellsCancel(w, t, r)
  {
    CancelJoins(w, t, c.tick, r.tick);
  }

  lemma QuietTells(w: World, t: Tick, r: Eff<Outcome>)
    requires r.tick.trace == t.trace && (r.Go? ==> !r.value.RunCancelled?)
    ensures TellsCancel(w, t, r)
  {
  }

  lemma UnwindTells<S>(w: World, t: Tick, c: Eff<S>)
    requires CancelsExactly(w, t, c) && c.Stop? && !c.signal.Raised? && !c.signal.SettleIncomplete?
    ensures TellsCancel(w, t, Unwind(w, c.tick, c.signal))
  {
    hide CancelStarted;
    SameStarts(w, t, c.tick, Unwind(w, c.tick, c.signal).tick);
  }

  lemma SameStarts(w: World, a: Tick, b: Tick, c: Tick)
    requires c.trace == b.trace
    ensures CancelStarted(w, a, c) <==> CancelStarted(w, a, b)
  {
  }

  lemma CompensateCancels(book: Book, w: World, app: App, d: Delivery, t: Tick, error: Err)
    requires Sound(book, t.rec) && !t.rec.instance.status.Cancelled?
    ensures CancelsExactly(w, t, Compensate(w, app, d, t, error))
  {
    hide RunRollbacks, Sound, LatestFirst, CancelStarted;
    if t.rollbacks == [] {
      QuietCancels(w, t, Compensate(w, app, d, t, error));
    } else {
      var t1 := t.(phase := Compensation);
      RollbacksCancel(book, w, app, d, t1, LatestFirst(t.rollbacks), error, NO_REPORT);
      SameFrom(w, t, t1, Compensate(w, app, d, t, error));
    }
  }

  lemma SameFrom<T>(w: World, t: Tick, t1: Tick, r: Eff<T>)
    requires t1.trace == t.trace && CancelsExactly(w, t1, r)
    ensures CancelsExactly(w, t, r)
  {
  }

  lemma HandleCancels(book: Book, w: World, app: App, d: Delivery, t: Tick, info: FailureInfo)
    requires Sound(book, t.rec) && Obeys(app, book) && !t.rec.instance.status.Cancelled?
    ensures CancelsExactly(w, t, HandleFailure(w, app, d, t, info))
  {
    hide Eval, Sound, ProcessorObeys, CancelStarted;
    var r := HandleFailure(w, app, d, t, info);
    if app.onFailure.None? {
      QuietCancels(w, t, r);
    } else {
      var t1 := t.(phase := Failure, trace := t.trace + [Handled(info)]);
      EvalCancels(book, w, app, d, t1, app.onFailure.value(info), []);
      TellsQuietly(w, t, t1, info);
      CancelJoins(w, t, t1, r.tick);
    }
  }

  lemma TellsQuietly(w: World, t: Tick, t1: Tick, info: FailureInfo)
    requires t1.trace == t.trace + [Handled(info)]
    ensures !CancelStarted(w, t, t1) && t.trace <= t1.trace
  {
  }

  lemma SettleTells(w: World, t: Tick, error: Err, report: Report)
    ensures TellsCancel(w, t, SettleTerminal(w, t, error, report))
  {
    hide Merge;
    QuietTells(w, t, SettleTerminal(w, t, error, report));
  }

  lemma SequenceTells(book: Book, w: World, app: App, d: Delivery, t: Tick, error: Err)
    requires Sound(book, t.rec) && Obeys(app, book) && !t.rec.instance.status.Cancelled?
    ensures TellsCancel(w, t, FailureSequence(w, app, d, t, error))
  {
    hide Compensate, HandleFailure, Obeys, Sound, Moves, Merge, CompletedMainSteps, SettleTerminal, Accounts, Added,
         Handed, Told, Keeps, CancelStarted, CancelsExactly, TellsCancel, Unwind;
    var r := FailureSequence(w, app, d, t, error);
    var entered := Enter(w, t, error);
    EnterUnderway(book, w, t, error);
    EntersQuietly(w, t, error);
    if entered.Stop? {
      QuietTells(w, t, r);
    } else {
      var trigger := TriggerOf(t.rec.instance, error);
      var undone := Compensate(w, app, d, entered.tick, trigger);
      CompensateMoves(book, w, app, d, entered.tick, trigger);
      CompensateCancels(book, w, app, d, entered.tick, trigger);
      MovesSound(book, entered.tick, undone.tick);
      if undone.Stop? {
        UnwindTells(w, entered.tick, undone);
      } else {
        var info := FailureInfo(trigger, FailedStepOf(t), CompletedMainSteps(undone.tick.rec), undone.value);
        var handled := HandleFailure(w, app, d, undone.tick, info);
        HandleMoves(book, w, app, d, undone.tick, info);
        HandleCancels(book, w, app, d, undone.tick, info);
        if handled.Stop? {
          UnwindTells(w, undone.tick, handled);
        } else {
          SettleTells(w, handled.tick, trigger, undone.value);
          TellsAfter(w, undone.tick, handled, r);
        }
        TellsAfter(w, entered.tick, undone, r);
      }
      TellsAfter(w, t, entered, r);
    }
  }

  lemma EntersQuietly(w: World, t: Tick, error: Err)
    ensures CancelsExactly(w, t, Enter(w, t, error)) && Enter(w, t, error).tick.trace == t.trace
  {
    QuietCancels(w, t, Enter(w, t, error));
  }

  lemma ClassifyTells(book: Book, w: World, app: App, d: Delivery, t: Tick, err: Err, stepScoped: bool,
                      unrecoverable: bool)
    requires Sound(book, t.rec) && Obeys(app, book) && !t.rec.instance.status.Cancelled?
    ensures TellsCancel(w, t, Classify(w, app, d, t, err, stepScoped, unrecoverable))
  {
    hide FailureSequence, Merge, Sound, Obeys, FailFast, TellsCancel;
    var r := Classify(w, app, d, t, err, stepScoped, unrecoverable);
    SequenceTells(book, w, app, d, t, err);
    FailFastTells(w, t, err);
    if r != FailureSequence(w, app, d, t, err) && r != FailFast(w, t, err) {
      QuietTells(w, t, r);
    }
  }

  lemma FailFastTells(w: World, t: Tick, err: Err)
    ensures TellsCancel(w, t, FailFast(w, t, err))
  {
    hide Merge;
    QuietTells(w, t, FailFast(w, t, err));
  }

  /** A completion, a yield or a cancellation. */
  lemma PlainTells(w: World, app: App, d: Delivery, t: Tick, run: Eff<Value>, entered: bool)
    requires CancelsExactly(w, t, run) && (run.Go? ==> !entered)
    requires run.Stop? ==> !run.signal.Raised? && !run.signal.SettleIncomplete?
    ensures TellsCancel(w, t, Conclude(w, app, d, entered, run))
  {
    hide FailureSequence, Classify, Merge, CancelStarted;
    SameStarts(w, t, run.tick, Conclude(w, app, d, entered, run).tick);
  }

  /** A delivery that runs to its end reports a cancellation if and only if it started a body that cancels its run. */
  lemma CancelledExactly(book: Book, w: World, app: App, d: Delivery, t: Tick)
    requires Sound(book, t.rec) && Obeys(app, book) && Ready(t) && Execute(w, app, d, t).Go?
    ensures var r := Execute(w, app, d, t);
            r.value.RunCancelled? <==> CancelStarted(w, t, r.tick)
  {
    hide Eval, Sound, Obeys, FailureSequence, Classify, SettleTrigger, CancelStarted, CancelsExactly, Follows;
    var run := Eval(w, app, d, t, app.main, []);
    var r := Execute(w, app, d, t);
    ObeysMain(app, book);
    RanHere(book, w, app, d, t);
    EvalCancels(book, w, app, d, t, app.main, []);
    var entered := t.rec.instance.status.Compensating?;
    if (run.Go? && entered) || (run.Stop? && (run.signal.SettleIncomplete? || (run.signal.Raised? && entered))) {
      var error := if run.Stop? && run.signal.Raised? then SettleTrigger(d, Some(run.signal.err))
                   else SettleTrigger(d, None);
      SequenceTells(book, w, app, d, run.tick, error);
      TellsAfter(w, t, run, r);
    } else if run.Stop? && run.signal.Raised? {
      ClassifyTells(book, w, app, d, run.tick, run.signal.err, run.signal.stepScoped, run.signal.unrecoverable);
      TellsAfter(w, t, run, r);
    } else {
      PlainTells(w, app, d, t, run, entered);
    }
  }
}
