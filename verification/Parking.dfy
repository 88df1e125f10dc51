/** A parked run names the step it waits for, which is due by the time the run is delivered again. */
module Parking {
  import opened Values
  import opened Phases
  import opened Records
  import opened Processors
  import opened Steps
  import opened Ticks
  import opened Journal
  import opened StepCalls
  import opened Routes
  import opened Sagas
  import opened Failures
  import opened Runs
  import opened Guarantees

  /** The tick has asked to be delivered again for a step of its phase, which will be due by then. */
  predicate InTime(u: Tick) {
    && u.resume.Some? && u.resume.value.awaits.Some?
    && u.resume.value.awaits.value.phase == u.phase && Awaits(u, u.resume.value.awaits.value)
  }

  /** A stretch of a tick in which nothing had yielded: either nothing has still, or it stops for a step in time. */
  predicate Waits<T>(d: Delivery, r: Eff<T>) {
    if r.Stop? && r.signal.Yield? then InTime(r.tick) && d.mode.Normal?
    else Concludes(r) ==> r.tick.resume.None?
  }

  lemma EndsWait(t: Tick, c: Eff<Value>, key: string, o: StepOptions)
    requires StepEnds(t, c, key, o) && t.resume.None? && c.tick.phase == t.phase
    ensures c.Go? || c.signal.Raised? ==> c.tick.resume.None?
    ensures c.Stop? && c.signal.Yield? ==> InTime(c.tick)
  {
  }

  lemma SleepWaits(d: Delivery, t: Tick, c: Eff<()>, key: string)
    requires SleepEnds(d, t, c, key) && t.resume.None? && c.tick.phase == t.phase
    ensures c.Go? ==> c.tick.resume.None?
    ensures c.Stop? && c.signal.Yield? ==> InTime(c.tick)
  {
  }

  lemma SleepRaises(w: World, d: Delivery, t: Tick, key: string, delay: int)
    requires t.resume.None?
    ensures var r := SleepFor(w, d, t, key, delay);
            && (r.Stop? && (r.signal.Raised? || r.signal.SettleIncomplete?) ==> r.tick.resume.None?)
            && (r.Stop? && r.signal.Yield? ==> d.mode.Normal?)
  {
  }

  lemma {:induction false} EvalWaits(book: Book, w: World, app: App, d: Delivery, t: Tick, p: Processor,
                                     seen: seq<Seen>)
    requires Sound(book, t.rec) && t.phase != Compensation && ProcessorObeys(p, t.phase, book) && t.resume.None?
    ensures Waits(d, Eval(w, app, d, t, p, seen))
    decreases p.Left(seen)
  {
    hide ExecuteStep, SleepFor, Spans, Sound, StepEnds, SleepEnds, OnlyAt, InTime;
    match p.At(seen)
    case Return(_) =>
    case Throw(_, _, _) =>
    case Pause(key, delay) =>
      assert MoveObeys(p.At(seen), t.phase, book);
      SleepSpans(book, w, d, t, key, delay);
      var c := SleepFor(w, d, t, key, delay);
      SleepRaises(w, d, t, key, delay);
      SpansSound(book, t, c.tick);
      if SleepEnds(d, t, c, key) {
        SleepWaits(d, t, c, key);
      }
      if c.Go? {
        EvalWaits(book, w, app, d, c.tick, p, seen + [Slept]);
      }
    case Call(key, o, recovery) =>
      assert MoveObeys(p.At(seen), t.phase, book);
      StepSpans(book, w, app, d, t, key, o, Nothing);
      var c := ExecuteStep(w, app, d, t, key, o, Nothing);
      SpansSound(book, t, c.tick);
      StepErrors(w, app, d, t, key, o, Nothing);
      if StepEnds(t, c, key, o) {
        EndsWait(t, c, key, o);
      }
      if GoesOn(recovery, c) {
        EvalWaits(book, w, app, d, c.tick, p, seen + [SeenOf(recovery, c)]);
      } else if c.signal.SettleIncomplete? {
        CallStays(t, c, key, o);
      }
  }

  lemma {:induction false} RollbacksWait(book: Book, w: World, app: App, d: Delivery, t: Tick, rs: seq<Rollback>,
                                         error: Err, report: Report)
    requires Sound(book, t.rec) && t.phase == Compensation && t.resume.None?
    ensures Waits(d, RunRollbacks(w, app, d, t, rs, error, report))
    ensures RunRollbacks(w, app, d, t, rs, error, report).tick.phase == Compensation
    decreases |rs|
  {
    hide ExecuteStep, Spans, Sound, StepEnds, OnlyAt, InTime;
    if rs != [] {
      var first := rs[0];
      var o := RollbackOptions(app, first);
      var c := ExecuteStep(w, app, d, t, first.key, o, Undo(first.output, error));
      StepSpans(book, w, app, d, t, first.key, o, Undo(first.output, error));
      SpansSound(book, t, c.tick);
      StepErrors(w, app, d, t, first.key, o, Undo(first.output, error));
      EndsWait(t, c, first.key, o);
      EndsSettled(t, c, first.key, o);
      if c.Go? || c.signal.Raised? {
        RollbacksWait(book, w, app, d, c.tick, rs[1..], error,
                      if c.Go? then report.(rolledBack := report.rolledBack + [first.key])
                      else report.(failed := report.failed + [(first.key, c.signal.err)]));
      }
    }
  }

  /** A delivery that parks the run: live, waiting for a named step that is due in time. */
  predicate ParksInTime(d: Delivery, r: Eff<Outcome>) {
    r.Go? && r.value.Parked? ==>
      && d.mode.Normal?
      && r.value.resume.awaits.Some?
      && var k := r.value.resume.awaits.value;
         && Due(r.tick.rec, k, r.tick.now, r.value.resume.delay)
         && r.tick.rec.instance.status == if k.phase == Main then Yielded else Compensating
  }

  lemma UnwindParks(w: World, d: Delivery, t: Tick, signal: Signal)
    requires signal.Yield? ==> InTime(t) && d.mode.Normal?
    requires t.phase != Main && t.rec.instance.status.Compensating?
    ensures ParksInTime(d, Unwind(w, t, signal))
  {
  }

  lemma CompensateWaits(book: Book, w: World, app: App, d: Delivery, t: Tick, error: Err)
    requires Sound(book, t.rec) && t.resume.None?
    ensures Waits(d, Compensate(w, app, d, t, error))
    ensures Compensate(w, app, d, t, error).Stop? ==> Compensate(w, app, d, t, error).tick.phase == Compensation
  {
    hide RunRollbacks, Sound, InTime, LatestFirst;
    if t.rollbacks != [] {
      RollbacksWait(book, w, app, d, t.(phase := Compensation), LatestFirst(t.rollbacks), error, NO_REPORT);
    }
  }

  lemma HandleWaits(book: Book, w: World, app: App, d: Delivery, t: Tick, info: FailureInfo)
    requires Sound(book, t.rec) && t.resume.None? && Obeys(app, book)
    ensures Waits(d, HandleFailure(w, app, d, t, info))
    ensures HandleFailure(w, app, d, t, info).Stop? ==> HandleFailure(w, app, d, t, info).tick.phase == Failure
  {
    hide Eval, Sound, InTime, ProcessorObeys;
    if app.onFailure.Some? {
      EvalActs(w, app, d, t.(phase := Failure, trace := t.trace + [Handled(info)]), app.onFailure.value(info), []);
      EvalWaits(book, w, app, d, t.(phase := Failure, trace := t.trace + [Handled(info)]), app.onFailure.value(info),
                []);
    }
  }

  lemma SequenceParks(book: Book, w: World, app: App, d: Delivery, t: Tick, error: Err)
    requires Sound(book, t.rec) && t.resume.None? && Obeys(app, book)
    ensures ParksInTime(d, FailureSequence(w, app, d, t, error))
  {
    hide Compensate, HandleFailure, Obeys, Sound, Moves, InTime, Merge, CompletedMainSteps, Unwind, SettleTerminal,
         Accounts,
         Added, Keeps, Told;
    var entered := Enter(w, t, error);
    EnterUnderway(book, w, t, error);
    assert entered.tick.resume.None?;
    if entered.Go? {
      var trigger := TriggerOf(t.rec.instance, error);
      CompensateWaits(book, w, app, d, entered.tick, trigger);
      CompensateMoves(book, w, app, d, entered.tick, trigger);
      var undone := Compensate(w, app, d, entered.tick, trigger);
      MovesSound(book, entered.tick, undone.tick);
      if undone.Stop? {
        UnwindParks(w, d, undone.tick, undone.signal);
      } else {
        var info := FailureInfo(trigger, FailedStepOf(t), CompletedMainSteps(undone.tick.rec), undone.value);
        HandleWaits(book, w, app, d, undone.tick, info);
        HandleMoves(book, w, app, d, undone.tick, info);
        var handled := HandleFailure(w, app, d, undone.tick, info);
        if handled.Stop? {
          UnwindParks(w, d, handled.tick, handled.signal);
        } else {
          SettlesUnparked(w, handled.tick, trigger, undone.value);
        }
      }
    }
  }

  lemma SettlesUnparked(w: World, t: Tick, error: Err, report: Report)
    ensures var r := SettleTerminal(w, t, error, report);
            r.Go? ==> !r.value.Parked?
  {
    hide Merge;
  }

  lemma ClassifyParks(book: Book, w: World, app: App, d: Delivery, t: Tick, err: Err, stepScoped: bool,
                      unrecoverable: bool)
    requires Sound(book, t.rec) && t.resume.None? && Obeys(app, book)
    ensures ParksInTime(d, Classify(w, app, d, t, err, stepScoped, unrecoverable))
  {
    hide FailureSequence, Merge, Sound, Obeys;
    SequenceParks(book, w, app, d, t, err);
  }

  lemma YieldParks(w: World, d: Delivery, t: Tick)
    requires InTime(t) && d.mode.Normal? && t.phase == Main
    ensures var saved := SaveInstance(w, t, NO_CHANGE.(status := Some(Yielded)));
            saved.Go? ==> ParksInTime(d, Park(saved.tick))
  {
  }

  /**
   * A delivery that parks the run, in whatever phase, is a live one, and it names the step it waits for:
   * that step is running and due by the time the job is, measured from any clock reading at or after the
   * end of the tick. A forward step leaves the run `yielded`, any other leaves it `compensating`.
   */
  lemma ParkedUntilDue(book: Book, w: World, app: App, d: Delivery, t: Tick)
    requires Sound(book, t.rec) && Obeys(app, book) && Ready(t)
    ensures ParksInTime(d, Execute(w, app, d, t))
  {
    hide Eval, Sound, Obeys, FailureSequence, Classify, Merge, InTime, Park, Follows;
    var run := Eval(w, app, d, t, app.main, []);
    ObeysMain(app, book);
    EvalWaits(book, w, app, d, t, app.main, []);
    RanHere(book, w, app, d, t);
    if run.Go? || run.signal.SettleIncomplete? {
      SequenceParks(book, w, app, d, run.tick, SettleTrigger(d, None));
    } else if run.signal.Yield? {
      EvalActs(w, app, d, t, app.main, []);
      YieldParks(w, d, run.tick);
    } else if run.signal.Raised? {
      SequenceParks(book, w, app, d, run.tick, SettleTrigger(d, Some(run.signal.err)));
      ClassifyParks(book, w, app, d, run.tick, run.signal.err, run.signal.stepScoped, run.signal.unrecoverable);
    }
  }

  /** At or after that time the step starts its next attempt, or the sleep ends; it is not parked on again. */
  lemma DueStepProceeds(w: World, d: Delivery, t: Tick, key: string, o: StepOptions, delay: int)
    requires !t.rec.instance.status.Cancelled? && !SettlementReplay(d, t) && Due(t.rec, Key(t.phase, key), t.now, 0)
    ensures var r := BeginOrReplay(w, d, t, key, o);
            if r.Go? then
              && r.value.Live? && r.value.attempt.attempts == t.rec.steps[Key(t.phase, key)].attempts + 1
              && OnAttempt(r.tick, Key(t.phase, key), r.value.attempt) && r.tick.phase == t.phase
            else r.signal.Crash?
    ensures var r := SleepFor(w, d, t, key, delay);
            r.tick.rec.Has(Key(t.phase, key), StepCompleted) && (r.Stop? ==> r.signal.Crash?)
  {
  }

  /**
   * A sleep is due when it was asked to be: its first call puts the time of the call plus the delay on record,
   * and parks the run for just that long; a call before that time parks it for what is left; a call after it, or
   * without a delay, ends the sleep at once.
   */
  lemma SleepsAsAsked(w: World, d: Delivery, t: Tick, key: string, delay: int)
    requires !t.rec.instance.status.Cancelled? && !SettlementReplay(d, t) && t.resume.None?
    ensures var k := Key(t.phase, key);
            var r := SleepFor(w, d, t, key, delay);
            k !in t.rec.steps ==>
              && k in r.tick.rec.steps && r.tick.rec.steps[k].kind.Sleep?
              && r.tick.rec.steps[k].nextRunAt == Some(if delay > 0 then t.now + delay else t.now)
              && (r.Go? ==> delay <= 0 && r.tick.rec.steps[k].completedAt == Some(t.now))
              && (delay > 0 && d.mode.Normal? && !r.signal.Crash? ==>
                    r.signal.Yield? && r.tick.resume == Some(Resume(delay, Some(k))))
    ensures var k := Key(t.phase, key);
            var r := SleepFor(w, d, t, key, delay);
            t.rec.Has(k, StepRunning) && t.rec.steps[k].nextRunAt.Some? ==>
              var at := t.rec.steps[k].nextRunAt.value;
              if at <= t.now then
                r.tick.rec.Has(k, StepCompleted) && r.tick.rec.steps[k].completedAt == Some(t.now)
              else
                r.tick.rec == t.rec && r.Stop?
                && (d.mode.Normal? ==> r.signal.Yield? && r.tick.resume == Some(Resume(at - t.now, Some(k))))
  {
  }

  // -- And no longer -----------------------------------------------------------------------

  /**
   * The run is not kept waiting beyond the time on the step's record, counted from `from`; a body that
   * suspended the tick itself named the delay.
   */
  predicate Prompt(w: World, from: nat, rec: Record, k: Key, delay: nat) {
    k in rec.steps
    && if rec.steps[k].nextRunAt.Some? then from + delay <= rec.steps[k].nextRunAt.value
       else w.body(k, rec.steps[k].attempts) == NestedYield(delay)
  }

  predicate YieldsPromptly<T>(w: World, from: nat, r: Eff<T>) {
    r.Stop? && r.signal.Yield? ==>
      && r.tick.resume.Some? && r.tick.resume.value.awaits.Some?
      && Prompt(w, from, r.tick.rec, r.tick.resume.value.awaits.value, r.tick.resume.value.delay)
  }

  lemma ErrorPrompt(w: World, app: App, d: Delivery, t: Tick, key: string, o: StepOptions, a: Attempt, b: Body)
    requires (b.Fails? || b.RetryLater?) && d.mode.Normal? && t.resume.None?
    ensures YieldsPromptly(w, t.now, HandleStepError(w, app, d, t, key, o, a, b))
  {
    hide Policy, Limit, Exhausted, ErrorOf;
  }

  lemma AttemptPrompt(w: World, app: App, d: Delivery, t: Tick, key: string, o: StepOptions, arg: Argument, a: Attempt)
    requires OnAttempt(t, Key(t.phase, key), a) && d.mode.Normal? && t.resume.None?
    ensures var r := RunAttempt(w, app, d, t, key, o, arg, a);
            YieldsPromptly(w, t.now, r) && (r.Go? ==> r.value.Some?)
  {
    hide Policy, HandleStepError, RunningStep;
    var t1 := Pass(w, t.(trace := t.trace + [Started(Key(t.phase, key), a.attempts, t.now, arg)])).tick;
    var b := Thrown(d, w.body(Key(t.phase, key), a.attempts));
    if b.Fails? || b.RetryLater? {
      ErrorPrompt(w, app, d, t1, key, o, a, b);
    }
  }

  lemma StepPrompt(w: World, app: App, d: Delivery, t: Tick, key: string, o: StepOptions, arg: Argument)
    requires d.mode.Normal? && t.resume.None?
    requires t.rec.Has(Key(t.phase, key), StepRunning) ==> t.rec.steps[Key(t.phase, key)].kind.Work?
    ensures YieldsPromptly(w, t.now, ExecuteStep(w, app, d, t, key, o, arg))
  {
    hide RunAttempt, Policy, YieldsPromptly;
    var c := ExecuteStep(w, app, d, t, key, o, arg);
    var begin := BeginOrReplay(w, d, t, key, o);
    if begin.Stop? {
      BeginPrompt(w, d, t, key, o);
      StopsAlike(w, t.now, begin, c);
    } else if begin.value.Live? {
      var tried := RunAttempt(w, app, d, begin.tick, key, o, arg, begin.value.attempt);
      AttemptPrompt(w, app, d, begin.tick, key, o, arg, begin.value.attempt);
      if tried.Stop? {
        StopsAlike(w, begin.tick.now, tried, c);
        Sooner(w, t.now, begin.tick.now, c);
      } else {
        Unyielded(w, t.now, c);
      }
    } else {
      Unyielded(w, t.now, c);
    }
  }

  lemma BeginPrompt(w: World, d: Delivery, t: Tick, key: string, o: StepOptions)
    requires d.mode.Normal? && t.resume.None?
    ensures YieldsPromptly(w, t.now, BeginOrReplay(w, d, t, key, o))
  {
  }

  lemma Sooner<T>(w: World, from: nat, later: nat, r: Eff<T>)
    requires from <= later && YieldsPromptly(w, later, r)
    ensures YieldsPromptly(w, from, r)
  {
  }

  lemma SleepPrompt(w: World, d: Delivery, t: Tick, key: string, delay: int)
    requires t.resume.None?
    ensures YieldsPromptly(w, t.now, SleepFor(w, d, t, key, delay))
  {
  }

  lemma WorkHere(book: Book, t: Tick, key: string)
    requires Sound(book, t.rec) && !NamesSleep(book, Key(t.phase, key))
    ensures t.rec.Has(Key(t.phase, key), StepRunning) ==> t.rec.steps[Key(t.phase, key)].kind.Work?
  {
    if Key(t.phase, key) in t.rec.steps {
      assert StepSound(book, Key(t.phase, key), t.rec.steps[Key(t.phase, key)], t.rec.Counter());
    }
  }

  lemma {:induction false} EvalPrompt(book: Book, w: World, app: App, d: Delivery, t: Tick, p: Processor,
                                      seen: seq<Seen>)
    requires Sound(book, t.rec) && t.phase != Compensation && ProcessorObeys(p, t.phase, book) && t.resume.None?
    requires d.mode.Normal?
    ensures YieldsPromptly(w, t.now, Eval(w, app, d, t, p, seen))
    decreases p.Left(seen)
  {
    hide ExecuteStep, SleepFor, Follows, OnlyPhase, Sound, StepEnds, SleepEnds, OnlyAt, InTime, YieldsPromptly;
    var r := Eval(w, app, d, t, p, seen);
    match p.At(seen)
    case Return(_) => Unyielded(w, t.now, r);
    case Throw(_, _, _) => Unyielded(w, t.now, r);
    case Pause(key, delay) =>
      assert MoveObeys(p.At(seen), t.phase, book);
      SleepSpans(book, w, d, t, key, delay);
      SleepPrompt(w, d, t, key, delay);
      var c := SleepFor(w, d, t, key, delay);
      SpansSound(book, t, c.tick);
      if c.Go? {
        SleepWaits(d, t, c, key);
        EvalPrompt(book, w, app, d, c.tick, p, seen + [Slept]);
        Sooner(w, t.now, c.tick.now, r);
      } else {
        StopsAlike(w, t.now, c, r);
      }
    case Call(key, o, recovery) =>
      assert MoveObeys(p.At(seen), t.phase, book);
      StepSpans(book, w, app, d, t, key, o, Nothing);
      WorkHere(book, t, key);
      StepPrompt(w, app, d, t, key, o, Nothing);
      var c := ExecuteStep(w, app, d, t, key, o, Nothing);
      SpansSound(book, t, c.tick);
      if GoesOn(recovery, c) {
        EndsWait(t, c, key, o);
        EvalPrompt(book, w, app, d, c.tick, p, seen + [SeenOf(recovery, c)]);
        Sooner(w, t.now, c.tick.now, r);
      }
  }

  lemma Unyielded<T>(w: World, from: nat, r: Eff<T>)
    requires r.Stop? ==> !r.signal.Yield?
    ensures YieldsPromptly(w, from, r)
  {
  }

  lemma StopsAlike<S, T>(w: World, from: nat, c: Eff<S>, r: Eff<T>)
    requires c.Stop? && r == Stop(c.tick, c.signal) && YieldsPromptly(w, from, c)
    ensures YieldsPromptly(w, from, r)
  {
  }

  lemma {:induction false} RollbacksPrompt(book: Book, w: World, app: App, d: Delivery, t: Tick, rs: seq<Rollback>,
                                           error: Err, report: Report)
    requires Sound(book, t.rec) && t.phase == Compensation && t.resume.None? && d.mode.Normal?
    ensures YieldsPromptly(w, t.now, RunRollbacks(w, app, d, t, rs, error, report))
    decreases |rs|
  {
    hide ExecuteStep, Follows, OnlyPhase, Sound, StepEnds, OnlyAt, InTime, YieldsPromptly;
    var r := RunRollbacks(w, app, d, t, rs, error, report);
    if rs == [] {
      Unyielded(w, t.now, r);
    } else {
      var first := rs[0];
      var o, arg := RollbackOptions(app, first), Undo(first.output, error);
      StepSpans(book, w, app, d, t, first.key, o, arg);
      WorkHere(book, t, first.key);
      StepPrompt(w, app, d, t, first.key, o, arg);
      var c := ExecuteStep(w, app, d, t, first.key, o, arg);
      SpansSound(book, t, c.tick);
      if c.Go? || c.signal.Raised? {
        EndsWait(t, c, first.key, o);
        RollbacksPrompt(book, w, app, d, c.tick, rs[1..], error,
                        if c.Go? then report.(rolledBack := report.rolledBack + [first.key])
                        else report.(failed := report.failed + [(first.key, c.signal.err)]));
        Sooner(w, t.now, c.tick.now, r);
      } else {
        StopsAlike(w, t.now, c, r);
      }
    }
  }

  /** A parked delivery keeps the run waiting no longer than its step needs. */
  predicate ParksPromptly(w: World, from: nat, r: Eff<Outcome>) {
    r.Go? && r.value.Parked? && r.value.resume.awaits.Some? ==>
      Prompt(w, from, r.tick.rec, r.value.resume.awaits.value, r.value.resume.delay)
  }

  lemma UnwindPrompt<T>(w: World, from: nat, c: Eff<T>)
    requires c.Stop? && YieldsPromptly(w, from, c)
    ensures ParksPromptly(w, from, Unwind(w, c.tick, c.signal))
  {
  }

  lemma CompensatePrompt(book: Book, w: World, app: App, d: Delivery, t: Tick, error: Err)
    requires Sound(book, t.rec) && t.resume.None? && d.mode.Normal?
    ensures YieldsPromptly(w, t.now, Compensate(w, app, d, t, error))
  {
    hide RunRollbacks, Sound, LatestFirst, YieldsPromptly;
    if t.rollbacks == [] {
      Unyielded(w, t.now, Compensate(w, app, d, t, error));
    } else {
      RollbacksPrompt(book, w, app, d, t.(phase := Compensation), LatestFirst(t.rollbacks), error, NO_REPORT);
    }
  }

  lemma HandlePrompt(book: Book, w: World, app: App, d: Delivery, t: Tick, info: FailureInfo)
    requires Sound(book, t.rec) && t.resume.None? && Obeys(app, book) && d.mode.Normal?
    ensures YieldsPromptly(w, t.now, HandleFailure(w, app, d, t, info))
  {
    hide Eval, Sound, ProcessorObeys, YieldsPromptly;
    var r := HandleFailure(w, app, d, t, info);
    if app.onFailure.None? {
      Unyielded(w, t.now, r);
    } else {
      var t1 := t.(phase := Failure, trace := t.trace + [Handled(info)]);
      var c := Eval(w, app, d, t1, app.onFailure.value(info), []);
      EvalPrompt(book, w, app, d, t1, app.onFailure.value(info), []);
      if r.Stop? {
        StopsAlike(w, t.now, c, r);
      } else {
        Unyielded(w, t.now, r);
      }
    }
  }

  lemma SequencePrompt(book: Book, w: World, app: App, d: Delivery, t: Tick, error: Err)
    requires Sound(book, t.rec) && t.resume.None? && Obeys(app, book) && d.mode.Normal?
    ensures ParksPromptly(w, t.now, FailureSequence(w, app, d, t, error))
  {
    hide Compensate, HandleFailure, Obeys, Sound, Moves, InTime, Merge, CompletedMainSteps, Unwind, SettleTerminal,
         Accounts, Added, Keeps, Told, Handed, YieldsPromptly, Prompt;
    var r := FailureSequence(w, app, d, t, error);
    var entered := Enter(w, t, error);
    EnterUnderway(book, w, t, error);
    assert entered.tick.resume.None? && t.now <= entered.tick.now;
    if entered.Go? {
      var trigger := TriggerOf(t.rec.instance, error);
      CompensateWaits(book, w, app, d, entered.tick, trigger);
      CompensatePrompt(book, w, app, d, entered.tick, trigger);
      CompensateMoves(book, w, app, d, entered.tick, trigger);
      var undone := Compensate(w, app, d, entered.tick, trigger);
      MovesSound(book, entered.tick, undone.tick);
      MovesLater(book, entered.tick, undone.tick);
      if undone.Stop? {
        UnwindPrompt(w, entered.tick.now, undone);
        ParksSooner(w, t.now, entered.tick.now, r);
      } else {
        var info := FailureInfo(trigger, FailedStepOf(t), CompletedMainSteps(undone.tick.rec), undone.value);
        HandlePrompt(book, w, app, d, undone.tick, info);
        var handled := HandleFailure(w, app, d, undone.tick, info);
        if handled.Stop? {
          UnwindPrompt(w, undone.tick.now, handled);
          ParksSooner(w, t.now, undone.tick.now, r);
        } else {
          SettlesUnparked(w, handled.tick, trigger, undone.value);
        }
      }
    }
  }

  lemma MovesLater(book: Book, a: Tick, b: Tick)
    requires Moves(book, a, b)
    ensures a.now <= b.now
  {
  }

  lemma ParksSooner(w: World, from: nat, later: nat, r: Eff<Outcome>)
    requires from <= later && ParksPromptly(w, later, r)
    ensures ParksPromptly(w, from, r)
  {
  }

  lemma ClassifyPrompt(book: Book, w: World, app: App, d: Delivery, t: Tick, err: Err, stepScoped: bool,
                       unrecoverable: bool)
    requires Sound(book, t.rec) && t.resume.None? && Obeys(app, book) && d.mode.Normal?
    ensures ParksPromptly(w, t.now, Classify(w, app, d, t, err, stepScoped, unrecoverable))
  {
    hide FailureSequence, Merge, Sound, Obeys;
    SequencePrompt(book, w, app, d, t, err);
  }

  lemma YieldPrompt(w: World, t: Tick, run: Eff<Value>)
    requires YieldsPromptly(w, t.now, run) && run.Stop? && run.signal.Yield?
    ensures var saved := SaveInstance(w, run.tick, NO_CHANGE.(status := Some(Yielded)));
            saved.Go? ==> ParksPromptly(w, t.now, Park(saved.tick))
  {
  }

  /**
   * Nor does parking keep a run waiting too long: counted from the begin of the delivery, the job comes back no
   * later than its step is due, and after a suspension the body asked for, after exactly that time.
   */
  lemma ParkedNoLonger(book: Book, w: World, app: App, d: Delivery, t: Tick)
    requires Sound(book, t.rec) && Obeys(app, book) && Ready(t)
    ensures ParksPromptly(w, t.now, Execute(w, app, d, t))
  {
    hide Eval, Sound, Obeys, FailureSequence, Classify, Merge, InTime, Park, Follows, YieldsPromptly, Prompt;
    var run := Eval(w, app, d, t, app.main, []);
    var r := Execute(w, app, d, t);
    ParkedUntilDue(book, w, app, d, t);
    if d.mode.Normal? {
      ObeysMain(app, book);
      EvalWaits(book, w, app, d, t, app.main, []);
      EvalPrompt(book, w, app, d, t, app.main, []);
      RanHere(book, w, app, d, t);
      FollowsLater(t, run.tick);
      if run.Go? || run.signal.SettleIncomplete? {
        SequencePrompt(book, w, app, d, run.tick, SettleTrigger(d, None));
        ParksSooner(w, t.now, run.tick.now, FailureSequence(w, app, d, run.tick, SettleTrigger(d, None)));
      } else if run.signal.Yield? {
        YieldPrompt(w, t, run);
      } else if run.signal.Raised? {
        var s := run.signal;
        SequencePrompt(book, w, app, d, run.tick, SettleTrigger(d, Some(s.err)));
        ParksSooner(w, t.now, run.tick.now, FailureSequence(w, app, d, run.tick, SettleTrigger(d, Some(s.err))));
        ClassifyPrompt(book, w, app, d, run.tick, s.err, s.stepScoped, s.unrecoverable);
        ParksSooner(w, t.now, run.tick.now, Classify(w, app, d, run.tick, s.err, s.stepScoped, s.unrecoverable));
      }
    }
  }

  lemma FollowsLater(a: Tick, b: Tick)
    requires Follows(a, b)
    ensures a.now <= b.now
  {
  }
}
