/** What a parked run waits for, and that the next delivery in time gets past it. */
module Progress {
  import opened Values
  import opened Phases
  import opened Retries
  import opened Records
  import opened Processors
  import opened Steps
  import opened Ticks
  import opened Journal
  import opened StepCalls
  import opened Routes
  import opened Sagas
  import opened Failures
  import opened Runs
  import opened Guarantees
  import opened Compensating
  import opened Irreversible
  import opened Parking
  import Ordering

  // -- Where replaying the store stops ------------------------------------------------------

  /** The first step of a phase at which evaluating a processor against the store has to wait. */
  function StopOf(p: Processor, phase: Phase, steps: map<Key, Step>, seen: seq<Seen>): Option<Key>
    decreases p.Left(seen)
  {
    match p.At(seen)
    case Return(_) => None
    case Throw(_, _, _) => None
    case Pause(key, _) =>
      var k := Key(phase, key);
      if k in steps && steps[k].status.StepCompleted? then StopOf(p, phase, steps, seen + [Slept]) else Some(k)
    case Call(key, _, recovery) =>
      var k := Key(phase, key);
      if k !in steps || steps[k].status.StepRunning? then Some(k)
      else if steps[k].status.StepFailed? && recovery.Uncaught? then None
      else StopOf(p, phase, steps, seen + [SettledSeen(recovery, steps[k], key)])
  }

  function FirstUnsettled(rec: Record, rs: seq<Rollback>): Option<Key> {
    if rs == [] then None
    else if Undone(rec, rs[0]) || GaveUp(rec, rs[0]) then FirstUnsettled(rec, rs[1..])
    else Some(CompKey(rs[0]))
  }

  /** The compensations that gave up, with the errors their records replay. */
  function StoredFailures(rec: Record, rs: seq<Rollback>): seq<(string, Err)> {
    if rs == [] then []
    else
      (if GaveUp(rec, rs[0]) then [(rs[0].key, StoredError(rec.steps[CompKey(rs[0])], rs[0].key))] else [])
      + StoredFailures(rec, rs[1..])
  }

  /** What a replay of the store tells `onFailure`. */
  function StoredInfo(app: App, rec: Record): FailureInfo
    requires rec.instance.failureError.Some?
  {
    var route := RouteIn(app, rec);
    var rs := LatestFirst(route.rollbacks);
    FailureInfo(rec.instance.failureError.value, rec.instance.failedStep.OrElse(route.failedStep),
                CompletedMainSteps(rec),
                Report(UndoneKeys(rec, rs), StoredFailures(rec, rs)))
  }

  /** The step at which replaying the store stops: of the forward phase, a compensation, or one of the handler. */
  function Frontier(app: App, rec: Record): Option<Key> {
    var route := RouteIn(app, rec);
    if route.end.Pending? then Some(Key(Main, route.end.key))
    else if !rec.instance.status.Compensating? then None
    else
      var first := FirstUnsettled(rec, LatestFirst(route.rollbacks));
      if first.Some? then first
      else if app.onFailure.None? || rec.instance.failureError.None? then None
      else StopOf(app.onFailure.value(StoredInfo(app, rec)), Failure, rec.steps, [])
  }

  lemma {:induction false} RouteStops(p: Processor, steps: map<Key, Step>, seen: seq<Seen>)
    ensures var end := RouteOf(p, steps, seen).end;
            StopOf(p, Main, steps, seen) == if end.Pending? then Some(Key(Main, end.key)) else None
    decreases p.Left(seen)
  {
    match p.At(seen)
    case Return(_) =>
    case Throw(_, _, _) =>
    case Pause(key, _) =>
      RouteStops(p, steps, seen + [Slept]);
    case Call(key, _, recovery) =>
      if Key(Main, key) in steps {
        RouteStops(p, steps, seen + [SettledSeen(recovery, steps[Key(Main, key)], key)]);
      }
  }

  // -- A delivery that parks leaves the awaited step there --------------------------------------

  lemma CallPasses(t: Tick, c: Eff<Value>, f: map<Key, Step>, p: Processor, seen: seq<Seen>)
    requires p.At(seen).Call?
    requires var m := p.At(seen); StepEnds(t, c, m.key, m.options) && GoesOn(m.recovery, c)
    requires var m := p.At(seen);
             c.Stop? && m.recovery.Reads? ==> c.signal.err == StoredError(c.tick.rec.steps[Key(t.phase, m.key)], m.key)
    requires Keeps(c.tick.rec.steps, f)
    ensures var m := p.At(seen);
            StopOf(p, t.phase, f, seen) == StopOf(p, t.phase, f, seen + [SeenOf(m.recovery, c)])
  {
    var m := p.At(seen);
    assert f[Key(t.phase, m.key)] == c.tick.rec.steps[Key(t.phase, m.key)];
  }

  lemma CallStopsAt(t: Tick, c: Eff<Value>, p: Processor, seen: seq<Seen>)
    requires p.At(seen).Call? && t.resume.None? && c.Stop? && c.signal.Yield?
    requires StepEnds(t, c, p.At(seen).key, p.At(seen).options)
    ensures c.tick.resume.Some? && StopOf(p, t.phase, c.tick.rec.steps, seen) == c.tick.resume.value.awaits
  {
  }

  lemma PausePasses(d: Delivery, t: Tick, c: Eff<()>, f: map<Key, Step>, p: Processor, seen: seq<Seen>)
    requires p.At(seen).Pause? && c.Go? && SleepEnds(d, t, c, p.At(seen).key) && Keeps(c.tick.rec.steps, f)
    ensures StopOf(p, t.phase, f, seen) == StopOf(p, t.phase, f, seen + [Slept])
    ensures c.tick.resume == t.resume
  {
  }

  lemma PauseStopsAt(d: Delivery, t: Tick, c: Eff<()>, p: Processor, seen: seq<Seen>)
    requires p.At(seen).Pause? && t.resume.None? && c.Stop? && c.signal.Yield? && SleepEnds(d, t, c, p.At(seen).key)
    ensures c.tick.resume.Some? && StopOf(p, t.phase, c.tick.rec.steps, seen) == c.tick.resume.value.awaits
  {
  }

  lemma CallKeepsResume(t: Tick, c: Eff<Value>, key: string, o: StepOptions)
    requires StepEnds(t, c, key, o) && (c.Go? || c.signal.Raised?)
    ensures c.tick.resume == t.resume && Key(t.phase, key) in c.tick.rec.steps
  {
  }

  /** A processor that yields has been stopped where the store it leaves stops it. */
  lemma {:induction false} EvalStops(book: Book, w: World, app: App, d: Delivery, t: Tick, p: Processor,
                                     seen: seq<Seen>)
    requires Sound(book, t.rec) && t.phase != Compensation && ProcessorObeys(p, t.phase, book) && t.resume.None?
    requires !ReadsExhausted(w, app, d, t, p, seen)
    ensures var r := Eval(w, app, d, t, p, seen);
            r.Stop? && r.signal.Yield? ==>
              r.tick.resume.Some? && StopOf(p, t.phase, r.tick.rec.steps, seen) == r.tick.resume.value.awaits
    decreases p.Left(seen)
  {
    hide Follows, OnlyPhase, Sound, ExecuteStep, SleepFor, Spans, OnlyAt, StepEnds, SleepEnds, PollExhausted,
         StoredError,
         StopOf, SeenOf;
    var r := Eval(w, app, d, t, p, seen);
    match p.At(seen)
    case Return(_) =>
    case Throw(_, _, _) =>
    case Pause(key, delay) =>
      assert MoveObeys(p.At(seen), t.phase, book);
      SleepSpans(book, w, d, t, key, delay);
      var c := SleepFor(w, d, t, key, delay);
      SpansSound(book, t, c.tick);
      if c.Go? && SleepEnds(d, t, c, key) {
        FinalKeeps(book, w, app, d, c.tick, p, seen + [Slept]);
        PausePasses(d, t, c, r.tick.rec.steps, p, seen);
        EvalStops(book, w, app, d, c.tick, p, seen + [Slept]);
      } else if c.Stop? && c.signal.Yield? {
        PauseStopsAt(d, t, c, p, seen);
      }
    case Call(key, o, recovery) =>
      assert MoveObeys(p.At(seen), t.phase, book);
      StepSpans(book, w, app, d, t, key, o, Nothing);
      var c := ExecuteStep(w, app, d, t, key, o, Nothing);
      SpansSound(book, t, c.tick);
      StepErrors(w, app, d, t, key, o, Nothing);
      if GoesOn(recovery, c) {
        var next := seen + [SeenOf(recovery, c)];
        CallKeepsResume(t, c, key, o);
        FinalKeeps(book, w, app, d, c.tick, p, next);
        CallPasses(t, c, r.tick.rec.steps, p, seen);
        EvalStops(book, w, app, d, c.tick, p, next);
      } else if c.signal.Yield? {
        CallStopsAt(t, c, p, seen);
      }
  }

  lemma {:induction false} RollbacksStop(book: Book, w: World, app: App, d: Delivery, t: Tick, rs: seq<Rollback>,
                                         error: Err,
                                         report: Report)
    requires Sound(book, t.rec) && t.phase == Compensation && t.resume.None?
    ensures var r := RunRollbacks(w, app, d, t, rs, error, report);
            r.Stop? && r.signal.Yield? ==>
              r.tick.resume.Some? && FirstUnsettled(r.tick.rec, rs).Some?
              && FirstUnsettled(r.tick.rec, rs) == r.tick.resume.value.awaits
    decreases |rs|
  {
    hide ExecuteStep, Spans, Sound, StepEnds, OnlyAt, Accounts;
    if rs != [] {
      var first := rs[0];
      var o := RollbackOptions(app, first);
      var c := ExecuteStep(w, app, d, t, first.key, o, Undo(first.output, error));
      StepSpans(book, w, app, d, t, first.key, o, Undo(first.output, error));
      SpansSound(book, t, c.tick);
      EndsSettled(t, c, first.key, o);
      if c.Go? || c.signal.Raised? {
        var next := if c.Go? then report.(rolledBack := report.rolledBack + [first.key])
                    else report.(failed := report.failed + [(first.key, c.signal.err)]);
        CallKeepsResume(t, c, first.key, o);
        RollbacksStop(book, w, app, d, c.tick, rs[1..], error, next);
        RollbacksAccount(book, w, app, d, c.tick, rs[1..], error, next);
        SpansKeeps(book, c.tick, RunRollbacks(w, app, d, t, rs, error, report).tick);
      } else if c.signal.Yield? {
        CallAwaits(t, c, first.key, o);
      }
    }
  }

  lemma CallAwaits(t: Tick, c: Eff<Value>, key: string, o: StepOptions)
    requires StepEnds(t, c, key, o) && t.resume.None? && c.Stop? && c.signal.Yield?
    ensures c.tick.resume.Some? && c.tick.resume.value.awaits == Some(Key(t.phase, key))
    ensures c.tick.rec.Has(Key(t.phase, key), StepRunning)
  {
  }

  /** Some compensation gave up in this very run of them as a poll that had run out of attempts. */
  predicate RollbacksExhausted(w: World, app: App, d: Delivery, t: Tick, rs: seq<Rollback>, error: Err)
    decreases |rs|
  {
    rs != []
    && var c := ExecuteStep(w, app, d, t, rs[0].key, RollbackOptions(app, rs[0]), Undo(rs[0].output, error));
       && (c.Go? || c.signal.Raised?)
       && (PollExhausted(w, t, rs[0].key, c) || RollbacksExhausted(w, app, d, c.tick, rs[1..], error))
  }

  lemma {:induction false} ReportGrows(w: World, app: App, d: Delivery, t: Tick, rs: seq<Rollback>, error: Err,
                                       report: Report)
    ensures var r := RunRollbacks(w, app, d, t, rs, error, report);
            r.Go? ==> report.failed <= r.value.failed
    decreases |rs|
  {
    hide ExecuteStep;
    if rs != [] {
      var c := ExecuteStep(w, app, d, t, rs[0].key, RollbackOptions(app, rs[0]), Undo(rs[0].output, error));
      if c.Go? || c.signal.Raised? {
        ReportGrows(w, app, d, c.tick, rs[1..], error,
                    if c.Go? then report.(rolledBack := report.rolledBack + [rs[0].key])
                    else report.(failed := report.failed + [(rs[0].key, c.signal.err)]));
      }
    }
  }

  lemma ReportsPart(live: seq<(string, Err)>, before: seq<(string, Err)>, key: string, a: Err, b: Err,
                    rest: seq<(string, Err)>)
    requires before + [(key, a)] <= live && a != b
    ensures live != before + ([(key, b)] + rest)
  {
    assert live[|before|] == (before + [(key, a)])[|before|] == (key, a);
    assert (before + ([(key, b)] + rest))[|before|] == (key, b);
  }

  /**
   * The report, exactly: what the handler is told of the compensations that gave up is what a replay of the
   * store tells it if and only if none of them was, in this delivery, a poll that ran out of attempts.
   */
  lemma {:induction false} RetellsExactly(book: Book, w: World, app: App, d: Delivery, t: Tick, rs: seq<Rollback>,
                                          error: Err, report: Report)
    requires Sound(book, t.rec) && t.phase == Compensation
    ensures var r := RunRollbacks(w, app, d, t, rs, error, report);
            r.Go? ==> (r.value.failed == report.failed + StoredFailures(r.tick.rec, rs)
                       <==> !RollbacksExhausted(w, app, d, t, rs, error))
    decreases |rs|
  {
    hide ExecuteStep, Spans, Sound, StepEnds, OnlyAt, Accounts, PollExhausted, StoredError;
    var r := RunRollbacks(w, app, d, t, rs, error, report);
    if rs != [] && r.Go? {
      var first := rs[0];
      var o := RollbackOptions(app, first);
      var arg := Undo(first.output, error);
      var c := ExecuteStep(w, app, d, t, first.key, o, arg);
      StepSpans(book, w, app, d, t, first.key, o, arg);
      SpansSound(book, t, c.tick);
      EndsSettled(t, c, first.key, o);
      StepErrors(w, app, d, t, first.key, o, arg);
      ExhaustedRaises(w, t, first.key, c);
      var next := if c.Go? then report.(rolledBack := report.rolledBack + [first.key])
                  else report.(failed := report.failed + [(first.key, c.signal.err)]);
      RetellsExactly(book, w, app, d, c.tick, rs[1..], error, next);
      RollbacksAccount(book, w, app, d, c.tick, rs[1..], error, next);
      SpansKeeps(book, c.tick, r.tick);
      var rest := StoredFailures(r.tick.rec, rs[1..]);
      if c.Go? {
        assert [] + rest == rest;
      } else {
        var own := [(first.key, c.signal.err)];
        var stored := StoredError(r.tick.rec.steps[CompKey(first)], first.key);
        assert (report.failed + own) + rest == report.failed + (own + rest);
        if PollExhausted(w, t, first.key, c) {
          ReportGrows(w, app, d, c.tick, rs[1..], error, next);
          ReportsPart(r.value.failed, report.failed, first.key, c.signal.err, stored, rest);
        }
      }
    }
  }

  lemma {:induction false} AllSettled(rec: Record, rs: seq<Rollback>)
    requires forall i :: 0 <= i < |rs| ==> Undone(rec, rs[i]) || GaveUp(rec, rs[i])
    ensures FirstUnsettled(rec, rs).None?
  {
    if rs != [] {
      AllSettled(rec, rs[1..]);
    }
  }

  /** Compensations that yield: the store stops a replay at the one awaited. */
  lemma CompensateStops(book: Book, w: World, app: App, d: Delivery, t: Tick, error: Err)
    requires Sound(book, t.rec) && t.resume.None?
    ensures var r := Compensate(w, app, d, t, error);
            var rs := LatestFirst(t.rollbacks);
            && (r.Stop? && r.signal.Yield? ==>
                  r.tick.resume.Some? && FirstUnsettled(r.tick.rec, rs).Some?
                  && FirstUnsettled(r.tick.rec, rs) == r.tick.resume.value.awaits)
  {
    hide RunRollbacks, Sound, LatestFirst, FirstUnsettled;
    if t.rollbacks != [] {
      RollbacksStop(book, w, app, d, t.(phase := Compensation), LatestFirst(t.rollbacks), error, NO_REPORT);
    }
  }

  /** Compensations that are through: a replay of the store passes them with the same report. */
  lemma CompensateRetells(book: Book, w: World, app: App, d: Delivery, t: Tick, error: Err)
    requires Sound(book, t.rec)
    requires !RollbacksExhausted(w, app, d, t.(phase := Compensation), LatestFirst(t.rollbacks), error)
    ensures var r := Compensate(w, app, d, t, error);
            var rs := LatestFirst(t.rollbacks);
            r.Go? ==>
              && FirstUnsettled(r.tick.rec, rs).None?
              && r.value == Report(UndoneKeys(r.tick.rec, rs), StoredFailures(r.tick.rec, rs))
  {
    hide RunRollbacks, Sound, RollbacksExhausted;
    var r := Compensate(w, app, d, t, error);
    var rs := LatestFirst(t.rollbacks);
    if t.rollbacks != [] {
      var t1 := t.(phase := Compensation);
      RetellsExactly(book, w, app, d, t1, rs, error, NO_REPORT);
      RollbacksAccount(book, w, app, d, t1, rs, error, NO_REPORT);
      if r.Go? {
        AllSettled(r.tick.rec, rs);
        assert [] + UndoneKeys(r.tick.rec, rs) == UndoneKeys(r.tick.rec, rs);
        assert [] + StoredFailures(r.tick.rec, rs) == StoredFailures(r.tick.rec, rs);
      }
    }
  }

  /** In this delivery the handler looked at the error of a poll that had just run out of attempts. */
  predicate HandlerExhausted(w: World, app: App, d: Delivery, t: Tick, info: FailureInfo) {
    app.onFailure.Some?
    && var told := t.(phase := Failure, trace := t.trace + [Handled(info)]);
       ReadsExhausted(w, app, d, told, app.onFailure.value(info), [])
  }

  lemma HandleStops(book: Book, w: World, app: App, d: Delivery, t: Tick, info: FailureInfo)
    requires Sound(book, t.rec) && t.resume.None? && Obeys(app, book) && !HandlerExhausted(w, app, d, t, info)
    ensures var r := HandleFailure(w, app, d, t, info);
            r.Stop? && r.signal.Yield? ==>
              && app.onFailure.Some? && r.tick.resume.Some?
              && StopOf(app.onFailure.value(info), Failure, r.tick.rec.steps, []) == r.tick.resume.value.awaits
  {
    hide Eval, Sound, ProcessorObeys, StopOf, ReadsExhausted;
    if app.onFailure.Some? {
      var t1 := t.(phase := Failure, trace := t.trace + [Handled(info)]);
      EvalStops(book, w, app, d, t1, app.onFailure.value(info), []);
    }
  }

  /** The trigger and the failed step on record are the ones everybody is told. */
  predicate TriggerKnown(app: App, i: Instance, route: Route) {
    if i.status.Compensating? then i.failureError.Some?
    else i.failureError.None? && (i.failedStep.None? || i.failedStep == route.failedStep)
  }

  lemma StoredAfter(app: App, t: Tick, error: Err, u: Record, report: Report)
    requires var i := u.instance;
             var before := t.rec.instance;
             && TriggerKnown(app, before, RouteIn(app, t.rec)) && t.failedStep == RouteIn(app, t.rec).failedStep
             && i.status.Compensating?
             && i.failureError == (if before.status.Compensating? then before.failureError else Some(error))
             && i.failedStep == (if before.status.Compensating? then before.failedStep
                                 else t.failedStep.OrElse(before.failedStep))
    requires MainSame(t.rec, u)
    requires var rs := LatestFirst(RouteIn(app, t.rec).rollbacks);
             report == Report(UndoneKeys(u, rs), StoredFailures(u, rs))
    ensures u.instance.failureError.Some?
            && StoredInfo(app, u)
               == FailureInfo(TriggerOf(t.rec.instance, error), FailedStepOf(t), CompletedMainSteps(u), report)
  {
    hide RouteOf, LatestFirst, CompletedMainSteps;
    RouteOfMain(app.main, t.rec, u, []);
  }

  lemma CompletedSame(a: Record, b: Record)
    requires MainSame(a, b)
    ensures CompletedMainSteps(a) == CompletedMainSteps(b)
  {
    forall name ensures name in CompletedMainSteps(a) <==> name in CompletedMainSteps(b) {
      var k := Key(Main, name);
      assert name in CompletedMainSteps(a) ==> k in a.steps;
      assert name in CompletedMainSteps(b) ==> k in b.steps;
    }
  }

  lemma {:induction false} SettledStay(a: Record, b: Record, rs: seq<Rollback>)
    requires Keeps(a.steps, b.steps) && FirstUnsettled(a, rs).None?
    ensures FirstUnsettled(b, rs).None? && UndoneKeys(b, rs) == UndoneKeys(a, rs)
            && StoredFailures(b, rs) == StoredFailures(a, rs)
  {
    if rs != [] {
      SettledStay(a, b, rs[1..]);
    }
  }

  /**
   * In this delivery's failure sequence neither a compensation nor a handler call whose error is looked at
   * was a poll that ran out of attempts.
   */
  predicate SequenceRetells(w: World, app: App, d: Delivery, t: Tick, error: Err) {
    var entered := Enter(w, t, error);
    var trigger := TriggerOf(t.rec.instance, error);
    var undone := Compensate(w, app, d, entered.tick, trigger);
    entered.Go? ==>
      && !RollbacksExhausted(w, app, d, entered.tick.(phase := Compensation), LatestFirst(t.rollbacks), trigger)
      && (undone.Go? ==>
            !HandlerExhausted(w, app, d, undone.tick,
                              FailureInfo(trigger, FailedStepOf(t), CompletedMainSteps(undone.tick.rec), undone.value)))
  }

  /** The failure sequence parks where replaying the store it leaves stops. */
  lemma SequenceStops(book: Book, w: World, app: App, d: Delivery, t: Tick, error: Err)
    requires Sound(book, t.rec) && Obeys(app, book) && d.mode.Normal? && t.phase == Main && t.resume.None?
    requires var route := RouteIn(app, t.rec);
             !route.end.Pending? && t.rollbacks == route.rollbacks && t.failedStep == route.failedStep
    requires var r := FailureSequence(w, app, d, t, error);
             r.Go? && r.value.Parked? && r.value.resume.awaits.Some?
             && (r.value.resume.awaits.value.phase == Failure ==>
                   SequenceRetells(w, app, d, t, error) && TriggerKnown(app, t.rec.instance, RouteIn(app, t.rec)))
    ensures var r := FailureSequence(w, app, d, t, error);
            Frontier(app, r.tick.rec) == r.value.resume.awaits
  {
    hide Compensate, HandleFailure, Obeys, Sound, Moves, InTime, Merge, CompletedMainSteps, SettleTerminal, Accounts,
         Added, Keeps, Told, RouteOf, LatestFirst, FirstUnsettled, StopOf, TriggerKnown, StoredInfo,
         RollbacksExhausted, HandlerExhausted, StoredFailures, UndoneKeys, Sagas.Handed, MainSame, Follows;
    var r := FailureSequence(w, app, d, t, error);
    var entered := Enter(w, t, error);
    EnterUnderway(book, w, t, error);
    UnderwayMain(book, t, error, entered.tick);
    var t1 := entered.tick;
    var trigger := TriggerOf(t.rec.instance, error);
    var undone := Compensate(w, app, d, t1, trigger);
    CompensateWaits(book, w, app, d, t1, trigger);
    CompensateStops(book, w, app, d, t1, trigger);
    CompensateMoves(book, w, app, d, t1, trigger);
    MovesSound(book, t1, undone.tick);
    MovesMain(book, t, t1, undone.tick);
    if undone.Stop? {
      SettlesUnparked(w, undone.tick, trigger, NO_REPORT);
      FrontierUndoing(app, t, undone.tick.rec);
    } else {
      var info := FailureInfo(trigger, FailedStepOf(t), CompletedMainSteps(undone.tick.rec), undone.value);
      var handled := HandleFailure(w, app, d, undone.tick, info);
      HandleWaits(book, w, app, d, undone.tick, info);
      HandleMoves(book, w, app, d, undone.tick, info);
      MovesMain(book, t, undone.tick, handled.tick);
      SettlesUnparked(w, handled.tick, trigger, undone.value);
      assert handled.Stop? && handled.signal.Yield?;
      assert r.value.resume == handled.tick.resume.value;
      AwaitsInPhase(handled.tick);
      CompensateRetells(book, w, app, d, t1, trigger);
      HandleStops(book, w, app, d, undone.tick, info);
      SettledStay(undone.tick.rec, handled.tick.rec, LatestFirst(t.rollbacks));
      CompletedSame(undone.tick.rec, handled.tick.rec);
      StoredAfter(app, t, error, handled.tick.rec, undone.value);
      FrontierTelling(app, t, handled.tick.rec);
    }
  }

  lemma AwaitsInPhase(t: Tick)
    requires InTime(t)
    ensures t.resume.value.awaits.value.phase == t.phase
  {
  }

  lemma UnderwayMain(book: Book, t: Tick, error: Err, u: Tick)
    requires Underway(book, t, error, u)
    ensures MainSame(t.rec, u.rec) && u.rec.instance.status.Compensating?
    ensures var i, before := u.rec.instance, t.rec.instance;
            && i.failureError == (if before.status.Compensating? then before.failureError else Some(error))
            && i.failedStep == (if before.status.Compensating? then before.failedStep
                                else t.failedStep.OrElse(before.failedStep))
  {
    hide Follows, Sound, MainSame, Closed, Added;
  }

  lemma MovesMain(book: Book, t: Tick, a: Tick, b: Tick)
    requires MainSame(t.rec, a.rec) && Moves(book, a, b)
    ensures MainSame(t.rec, b.rec) && MainSame(a.rec, b.rec)
  {
  }

  lemma FrontierUndoing(app: App, t: Tick, u: Record)
    requires MainSame(t.rec, u) && !RouteIn(app, t.rec).end.Pending? && u.instance.status.Compensating?
    requires t.rollbacks == RouteIn(app, t.rec).rollbacks
    ensures FirstUnsettled(u, LatestFirst(t.rollbacks)).Some? ==>
              Frontier(app, u) == FirstUnsettled(u, LatestFirst(t.rollbacks))
  {
    hide RouteOf, LatestFirst, FirstUnsettled;
    RouteOfMain(app.main, t.rec, u, []);
  }

  lemma FrontierTelling(app: App, t: Tick, u: Record)
    requires MainSame(t.rec, u) && !RouteIn(app, t.rec).end.Pending? && u.instance.status.Compensating?
    requires t.rollbacks == RouteIn(app, t.rec).rollbacks && FirstUnsettled(u, LatestFirst(t.rollbacks)).None?
    requires u.instance.failureError.Some? && app.onFailure.Some?
    ensures Frontier(app, u) == StopOf(app.onFailure.value(StoredInfo(app, u)), Failure, u.steps, [])
  {
    hide RouteOf, LatestFirst, FirstUnsettled, StopOf;
    RouteOfMain(app.main, t.rec, u, []);
  }

  // -- The tick that parks --------------------------------------------------------------------

  lemma YieldStops(app: App, d: Delivery, w: World, t: Tick, run: Eff<Value>)
    requires Ready(t) && run.Stop? && run.signal.Yield? && Agrees(t, run, RouteIn(app, run.tick.rec))
    ensures var r := Conclude(w, app, d, t.rec.instance.status.Compensating?, run);
            r.Go? ==> r.value.Parked? && Frontier(app, r.tick.rec) == r.value.resume.awaits
  {
    hide RouteOf;
    var saved := SaveInstance(w, run.tick, NO_CHANGE.(status := Some(Yielded)));
    assert RouteIn(app, saved.tick.rec) == RouteIn(app, run.tick.rec);
  }

  /** The error a delivery takes into its failure sequence. */
  function EntryError(d: Delivery, entered: bool, run: Eff<Value>): Err {
    if run.Stop? && run.signal.Raised? then
      if entered then SettleTrigger(d, Some(run.signal.err)) else run.signal.err
    else SettleTrigger(d, None)
  }

  /** What it takes for the handler to be told the same on the next delivery. */
  ghost predicate ToldAlike(w: World, app: App, d: Delivery, t: Tick, k: Key) {
    var run := Eval(w, app, d, t, app.main, []);
    k.phase == Failure ==>
      && SequenceRetells(w, app, d, run.tick, EntryError(d, t.rec.instance.status.Compensating?, run))
      && Committed(app, t.rec)
  }

  lemma KnownTrigger(book: Book, app: App, d: Delivery, t: Tick, run: Eff<Value>)
    requires Ready(t) && Forward(book, app, d, t, run) && Committed(app, t.rec) && Concludes(run)
    ensures TriggerKnown(app, run.tick.rec.instance, RouteIn(app, run.tick.rec))
  {
    hide Follows, Sound, RouteOf, ChangesOnRoute, Agrees;
    KeepsRoute(app, t, run.tick);
    if t.rec.instance.status.Compensating? {
      assert run.tick.rec.instance.status.Compensating?;
    }
  }

  lemma FailureParks(book: Book, w: World, app: App, d: Delivery, t: Tick, error: Err)
    requires Sound(book, t.rec) && Obeys(app, book) && Ready(t) && d.mode.Normal?
    requires !ReadsExhausted(w, app, d, t, app.main, [])
    requires var run := Eval(w, app, d, t, app.main, []);
             && (run.Go? || run.signal.Raised?)
             && var r := FailureSequence(w, app, d, run.tick, error);
                r.Go? && r.value.Parked? && r.value.resume.awaits.Some?
                && (r.value.resume.awaits.value.phase == Failure ==>
                      SequenceRetells(w, app, d, run.tick, error) && Committed(app, t.rec))
    ensures var r := FailureSequence(w, app, d, Eval(w, app, d, t, app.main, []).tick, error);
            Frontier(app, r.tick.rec) == r.value.resume.awaits
  {
    hide Eval, Sound, Obeys, FailureSequence, RouteOf, SequenceRetells, ReadsExhausted, Frontier,
         Committed, Agrees, ChangesOnRoute, Follows;
    var run := Eval(w, app, d, t, app.main, []);
    ObeysMain(app, book);
    ForwardEnds(book, w, app, d, t);
    NotesHere(t, run, RouteIn(app, run.tick.rec));
    EvalWaits(book, w, app, d, t, app.main, []);
    EvalActs(w, app, d, t, app.main, []);
    if FailureSequence(w, app, d, run.tick, error).value.resume.awaits.value.phase == Failure {
      KnownTrigger(book, app, d, t, run);
    }
    SequenceStops(book, w, app, d, run.tick, error);
  }

  lemma ClassifyParked(w: World, app: App, d: Delivery, t: Tick, err: Err, stepScoped: bool, unrecoverable: bool)
    requires var r := Classify(w, app, d, t, err, stepScoped, unrecoverable); r.Go? && r.value.Parked?
    ensures Classify(w, app, d, t, err, stepScoped, unrecoverable) == FailureSequence(w, app, d, t, err)
  {
    hide FailureSequence, Merge;
  }

  /**
   * The step a parked run waits for is the one at which replaying its store stops: the end of the forward
   * route, the first compensation that has not settled, or a step of the terminal handler.
   */
  lemma ParksAtFrontier(book: Book, w: World, app: App, d: Delivery, t: Tick)
    requires Sound(book, t.rec) && Obeys(app, book) && Ready(t) && !ReadsExhausted(w, app, d, t, app.main, [])
    requires var r := Execute(w, app, d, t);
             r.Go? && r.value.Parked? && r.value.resume.awaits.Some?
             && ToldAlike(w, app, d, t, r.value.resume.awaits.value)
    ensures var r := Execute(w, app, d, t);
            Frontier(app, r.tick.rec) == r.value.resume.awaits
  {
    hide Eval, Sound, Obeys, FailureSequence, RouteOf, ReadsExhausted, Frontier, SequenceRetells, Classify, Park,
         Committed,
         Agrees, ChangesOnRoute, Follows, SettleTrigger;
    var run := Eval(w, app, d, t, app.main, []);
    ParkedUntilDue(book, w, app, d, t);
    ForwardEnds(book, w, app, d, t);
    if run.Go? {
      FailureParks(book, w, app, d, t, SettleTrigger(d, None));
    } else if run.signal.Yield? {
      YieldStops(app, d, w, t, run);
    } else if run.signal.Raised? && t.rec.instance.status.Compensating? {
      FailureParks(book, w, app, d, t, SettleTrigger(d, Some(run.signal.err)));
    } else if run.signal.Raised? {
      ClassifyParked(w, app, d, run.tick, run.signal.err, run.signal.stepScoped, run.signal.unrecoverable);
      FailureParks(book, w, app, d, t, run.signal.err);
    }
  }

  // -- The delivery after that ------------------------------------------------------------------

  /** The record of `k` has gone on to a higher attempt, or has settled. */
  ghost predicate Advanced(a: Record, b: Record, k: Key) {
    && k in a.steps && k in b.steps
    && (b.steps[k].status.StepRunning? ==> a.steps[k].attempts < b.steps[k].attempts)
  }

  lemma AdvancedOn(a: Record, b: Tick, c: Tick, k: Key)
    requires Advanced(a, b.rec, k) && Follows(b, c)
    ensures Advanced(a, c.rec, k)
  {
    assert StepMoves(b.rec.steps[k], c.rec.steps[k], c.now);
  }

  predicate HasAttempts(rec: Record, k: Key, n: nat) {
    k in rec.steps && n <= rec.steps[k].attempts
  }

  lemma HandledAttempts(w: World, app: App, d: Delivery, t: Tick, key: string, o: StepOptions, a: Attempt, b: Body)
    requires b.Fails? || b.RetryLater?
    ensures var r := HandleStepError(w, app, d, t, key, o, a, b);
            HasAttempts(r.tick.rec, Key(t.phase, key), a.attempts) && r.tick.phase == t.phase
  {
    hide Policy, Delay, ErrorOf, Exhausted;
  }

  lemma AttemptAttempts(w: World, app: App, d: Delivery, t: Tick, key: string, o: StepOptions, arg: Argument,
                        a: Attempt)
    requires HasAttempts(t.rec, Key(t.phase, key), a.attempts)
    ensures var r := RunAttempt(w, app, d, t, key, o, arg, a);
            && HasAttempts(r.tick.rec, Key(t.phase, key), a.attempts) && r.tick.phase == t.phase
            && (r.Go? && r.value.None? ==> HasAttempts(r.tick.rec, Key(t.phase, key), a.attempts + 1))
  {
    hide Policy, HandleStepError;
    var k := Key(t.phase, key);
    var t1 := Pass(w, t.(trace := t.trace + [Started(k, a.attempts, t.now, arg)])).tick;
    var b := Thrown(d, w.body(k, a.attempts));
    if b.Fails? || b.RetryLater? {
      HandledAttempts(w, app, d, t1, key, o, a, b);
    }
  }

  lemma {:induction false} LoopAttempts(w: World, app: App, d: Delivery, t: Tick, key: string, o: StepOptions,
                                        arg: Argument, a: Attempt)
    requires HasAttempts(t.rec, Key(t.phase, key), a.attempts)
    ensures var r := AttemptLoop(w, app, d, t, key, o, arg, a);
            HasAttempts(r.tick.rec, Key(t.phase, key), a.attempts)
    decreases if a.attempts < Policy(app, o).attempts then Policy(app, o).attempts - a.attempts else 0
  {
    hide RunAttempt, Policy;
    AttemptAttempts(w, app, d, t, key, o, arg, a);
    var r := RunAttempt(w, app, d, t, key, o, arg, a);
    if r.Go? && r.value.None? {
      LoopAttempts(w, app, d, r.tick, key, o, arg, a.(attempts := a.attempts + 1));
    }
  }

  /** A call of a step that is due. */
  lemma DueCall(w: World, app: App, d: Delivery, t: Tick, key: string, o: StepOptions, arg: Argument)
    requires d.mode.Normal? && !t.rec.instance.status.Cancelled? && Due(t.rec, Key(t.phase, key), t.now, 0)
    ensures var r := ExecuteStep(w, app, d, t, key, o, arg);
            (r.Stop? && r.signal.Crash?) || Advanced(t.rec, r.tick.rec, Key(t.phase, key))
  {
    hide AttemptLoop, BeginOrReplay, SleepFor;
    DueStepProceeds(w, d, t, key, o, 0);
    var begin := BeginOrReplay(w, d, t, key, o);
    if begin.Go? {
      LoopAttempts(w, app, d, begin.tick, key, o, arg, begin.value.attempt);
    }
  }

  lemma SettledCall(w: World, app: App, d: Delivery, t: Tick, p: Processor, seen: seq<Seen>)
    requires p.At(seen).Call? && !t.rec.instance.status.Cancelled?
    requires StopOf(p, t.phase, t.rec.steps, seen).Some?
    requires var k := Key(t.phase, p.At(seen).key); k in t.rec.steps && !t.rec.steps[k].status.StepRunning?
    ensures var m := p.At(seen);
            var c := ExecuteStep(w, app, d, t, m.key, m.options, Nothing);
            && c.tick == t.(rollbacks := c.tick.rollbacks, failedStep := c.tick.failedStep)
            && GoesOn(m.recovery, c)
            && StopOf(p, t.phase, t.rec.steps, seen + [SeenOf(m.recovery, c)]) == StopOf(p, t.phase, t.rec.steps, seen)
  {
    hide ExecuteStep;
    var m := p.At(seen);
    QuietCall(w, app, d, t, m.key, m.options);
  }

  /** Replaying a processor up to a step that is due takes that step on. */
  lemma {:induction false} EvalProceeds(book: Book, w: World, app: App, d: Delivery, t: Tick, p: Processor,
                                        seen: seq<Seen>,
                                        k: Key)
    requires Sound(book, t.rec) && t.phase != Compensation && ProcessorObeys(p, t.phase, book)
    requires d.mode.Normal? && !t.rec.instance.status.Cancelled?
    requires StopOf(p, t.phase, t.rec.steps, seen) == Some(k) && Due(t.rec, k, t.now, 0)
    ensures var r := Eval(w, app, d, t, p, seen);
            (r.Stop? && r.signal.Crash?) || Advanced(t.rec, r.tick.rec, k)
    decreases p.Left(seen)
  {
    hide Follows, OnlyPhase, Sound, ExecuteStep, SleepFor, Spans, OnlyAt, StepEnds, SleepEnds, Due, Advanced, SeenOf;
    var r := Eval(w, app, d, t, p, seen);
    match p.At(seen)
    case Return(_) =>
    case Throw(_, _, _) =>
    case Pause(key, delay) =>
      assert MoveObeys(p.At(seen), t.phase, book);
      var c := SleepFor(w, d, t, key, delay);
      if t.rec.Has(Key(t.phase, key), StepCompleted) {
        SettledPause(w, d, t, key, delay);
        EvalProceeds(book, w, app, d, t, p, seen + [Slept], k);
      } else {
        SleepSpans(book, w, d, t, key, delay);
        DuePause(w, d, t, key, delay);
        SpansSound(book, t, c.tick);
        if c.Go? {
          EvalSpans(book, w, app, d, c.tick, p, seen + [Slept]);
          SpansGoOn(book, t.rec, c.tick, r.tick, k);
        }
      }
    case Call(key, o, recovery) =>
      assert MoveObeys(p.At(seen), t.phase, book);
      var c := ExecuteStep(w, app, d, t, key, o, Nothing);
      if Key(t.phase, key) in t.rec.steps && !t.rec.steps[Key(t.phase, key)].status.StepRunning? {
        SettledCall(w, app, d, t, p, seen);
        EvalProceeds(book, w, app, d, c.tick, p, seen + [SeenOf(recovery, c)], k);
      } else {
        StepSpans(book, w, app, d, t, key, o, Nothing);
        DueCall(w, app, d, t, key, o, Nothing);
        SpansSound(book, t, c.tick);
        if GoesOn(recovery, c) {
          EvalSpans(book, w, app, d, c.tick, p, seen + [SeenOf(recovery, c)]);
          SpansGoOn(book, t.rec, c.tick, r.tick, k);
        }
      }
  }

  lemma SettledPause(w: World, d: Delivery, t: Tick, key: string, delay: int)
    requires t.rec.Has(Key(t.phase, key), StepCompleted) && !t.rec.instance.status.Cancelled?
    ensures SleepFor(w, d, t, key, delay) == Go(t, ())
  {
  }

  lemma DuePause(w: World, d: Delivery, t: Tick, key: string, delay: int)
    requires d.mode.Normal? && !t.rec.instance.status.Cancelled? && Due(t.rec, Key(t.phase, key), t.now, 0)
    ensures Advanced(t.rec, SleepFor(w, d, t, key, delay).tick.rec, Key(t.phase, key))
  {
    DueStepProceeds(w, d, t, key, StepOptions(None, None), delay);
  }

  lemma SpansGoOn(book: Book, a: Record, b: Tick, c: Tick, k: Key)
    requires Spans(book, b, c) && Advanced(a, b.rec, k)
    ensures Advanced(a, c.rec, k)
  {
    AdvancedOn(a, b, c, k);
  }

  lemma {:induction false} RollbacksProceed(book: Book, w: World, app: App, d: Delivery, t: Tick, rs: seq<Rollback>,
                                            error: Err, report: Report, k: Key)
    requires Sound(book, t.rec) && t.phase == Compensation && d.mode.Normal? && !t.rec.instance.status.Cancelled?
    requires FirstUnsettled(t.rec, rs) == Some(k) && Due(t.rec, k, t.now, 0)
    ensures var r := RunRollbacks(w, app, d, t, rs, error, report);
            (r.Stop? && r.signal.Crash?) || Advanced(t.rec, r.tick.rec, k)
    decreases |rs|
  {
    hide Follows, Sound, ExecuteStep, Spans, OnlyAt, StepEnds, Due, Advanced, Accounts;
    var first := rs[0];
    var o := RollbackOptions(app, first);
    var arg := Undo(first.output, error);
    var c := ExecuteStep(w, app, d, t, first.key, o, arg);
    var next := if c.Go? then report.(rolledBack := report.rolledBack + [first.key])
                else if c.signal.Raised? then report.(failed := report.failed + [(first.key, c.signal.err)])
                else report;
    if Undone(t.rec, first) || GaveUp(t.rec, first) {
      QuietCall(w, app, d, t, first.key, o, arg);
      RollbacksProceed(book, w, app, d, c.tick, rs[1..], error, next, k);
    } else {
      StepSpans(book, w, app, d, t, first.key, o, arg);
      DueCall(w, app, d, t, first.key, o, arg);
      SpansSound(book, t, c.tick);
      if c.Go? || c.signal.Raised? {
        RollbacksAccount(book, w, app, d, c.tick, rs[1..], error, next);
        SpansGoOn(book, t.rec, c.tick, RunRollbacks(w, app, d, t, rs, error, report).tick, k);
      }
    }
  }

  /** Settled compensations are passed without a write. */
  lemma {:induction false} RollbacksPass(w: World, app: App, d: Delivery, t: Tick, rs: seq<Rollback>, error: Err,
                                         report: Report)
    requires t.phase == Compensation && !t.rec.instance.status.Cancelled? && FirstUnsettled(t.rec, rs).None?
    ensures RunRollbacks(w, app, d, t, rs, error, report)
            == Go(t, Report(report.rolledBack + UndoneKeys(t.rec, rs), report.failed + StoredFailures(t.rec, rs)))
    decreases |rs|
  {
    hide ExecuteStep, StoredError;
    if rs == [] {
      assert report.rolledBack + [] == report.rolledBack && report.failed + [] == report.failed;
    } else {
      var first := rs[0];
      var o := RollbackOptions(app, first);
      var arg := Undo(first.output, error);
      QuietCall(w, app, d, t, first.key, o, arg);
      var c := ExecuteStep(w, app, d, t, first.key, o, arg);
      var undone, failures := UndoneKeys(t.rec, rs[1..]), StoredFailures(t.rec, rs[1..]);
      if c.Go? {
        RollbacksPass(w, app, d, t, rs[1..], error, report.(rolledBack := report.rolledBack + [first.key]));
        assert (report.rolledBack + [first.key]) + undone == report.rolledBack + ([first.key] + undone);
        assert [] + failures == failures;
      } else {
        var own := [(first.key, c.signal.err)];
        RollbacksPass(w, app, d, t, rs[1..], error, report.(failed := report.failed + own));
        assert (report.failed + own) + failures == report.failed + (own + failures);
        assert [] + undone == undone;
      }
    }
  }

  lemma UnwindStays(w: World, t: Tick, signal: Signal)
    ensures var r := Unwind(w, t, signal);
            r.tick.rec.steps == t.rec.steps && (signal.Crash? ==> r.Stop?)
  {
  }

  lemma SettleStays(w: World, t: Tick, error: Err, report: Report)
    ensures SettleTerminal(w, t, error, report).tick.rec.steps == t.rec.steps
  {
  }

  lemma AdvancedSame(a: Record, b: Record, c: Record, k: Key)
    requires Advanced(a, b, k) && c.steps == b.steps
    ensures Advanced(a, c, k)
  {
  }

  lemma CompensateProceeds(book: Book, w: World, app: App, d: Delivery, t: Tick, error: Err, k: Key)
    requires Sound(book, t.rec) && d.mode.Normal? && !t.rec.instance.status.Cancelled?
    requires FirstUnsettled(t.rec, LatestFirst(t.rollbacks)) == Some(k) && Due(t.rec, k, t.now, 0)
    ensures var r := Compensate(w, app, d, t, error);
            (r.Stop? && r.signal.Crash?) || Advanced(t.rec, r.tick.rec, k)
  {
    hide RunRollbacks, Sound, Due, Advanced;
    RollbacksProceed(book, w, app, d, t.(phase := Compensation), LatestFirst(t.rollbacks), error, NO_REPORT, k);
  }

  lemma CompensatePasses(w: World, app: App, d: Delivery, t: Tick, error: Err)
    requires !t.rec.instance.status.Cancelled? && FirstUnsettled(t.rec, LatestFirst(t.rollbacks)).None?
    ensures var r := Compensate(w, app, d, t, error);
            var rs := LatestFirst(t.rollbacks);
            && r.Go? && r.tick.rec == t.rec && r.tick.now == t.now
            && r.value == Report(UndoneKeys(t.rec, rs), StoredFailures(t.rec, rs))
  {
    hide RunRollbacks;
    var rs := LatestFirst(t.rollbacks);
    if t.rollbacks != [] {
      RollbacksPass(w, app, d, t.(phase := Compensation), rs, error, NO_REPORT);
      assert [] + UndoneKeys(t.rec, rs) == UndoneKeys(t.rec, rs)
             && [] + StoredFailures(t.rec, rs) == StoredFailures(t.rec, rs);
    }
  }

  lemma HandleProceeds(book: Book, w: World, app: App, d: Delivery, t: Tick, info: FailureInfo, k: Key)
    requires Sound(book, t.rec) && Obeys(app, book) && d.mode.Normal? && !t.rec.instance.status.Cancelled?
    requires app.onFailure.Some? && StopOf(app.onFailure.value(info), Failure, t.rec.steps, []) == Some(k)
    requires Due(t.rec, k, t.now, 0)
    ensures var r := HandleFailure(w, app, d, t, info);
            (r.Stop? && r.signal.Crash?) || Advanced(t.rec, r.tick.rec, k)
  {
    hide Eval, Sound, ProcessorObeys, Due, Advanced, StopOf;
    EvalProceeds(book, w, app, d, t.(phase := Failure, trace := t.trace + [Handled(info)]), app.onFailure.value(info),
                 [], k);
  }

  /** A compensating run whose forward route is through, delivered when its frontier is due. */
  lemma SequenceProceeds(book: Book, w: World, app: App, d: Delivery, t: Tick, error: Err, k: Key)
    requires Sound(book, t.rec) && Obeys(app, book) && d.mode.Normal? && t.rec.instance.status.Compensating?
    requires var route := RouteIn(app, t.rec);
             !route.end.Pending? && t.rollbacks == route.rollbacks && t.failedStep == route.failedStep
    requires Frontier(app, t.rec) == Some(k) && Due(t.rec, k, t.now, 0)
    ensures var r := FailureSequence(w, app, d, t, error);
            r.Go? ==> Advanced(t.rec, r.tick.rec, k)
  {
    hide Compensate, HandleFailure, Obeys, Sound, Moves, Merge, CompletedMainSteps, SettleTerminal, Accounts, Advanced,
         Unwind,
         Added, Keeps, Told, RouteOf, LatestFirst, FirstUnsettled, StopOf, UndoneKeys, StoredFailures, Due;
    var r := FailureSequence(w, app, d, t, error);
    var trigger := TriggerOf(t.rec.instance, error);
    var rs := LatestFirst(t.rollbacks);
    var undone := Compensate(w, app, d, t, trigger);
    CompensateMoves(book, w, app, d, t, trigger);
    MovesSound(book, t, undone.tick);
    var info := FailureInfo(trigger, FailedStepOf(t), CompletedMainSteps(undone.tick.rec),
                            if undone.Go? then undone.value else NO_REPORT);
    var handled := HandleFailure(w, app, d, undone.tick, info);
    if FirstUnsettled(t.rec, rs).Some? {
      CompensateProceeds(book, w, app, d, t, trigger, k);
      if undone.Stop? {
        UnwindStays(w, undone.tick, undone.signal);
        if !undone.signal.Crash? {
          AdvancedSame(t.rec, undone.tick.rec, r.tick.rec, k);
        }
      } else {
        HandleMoves(book, w, app, d, undone.tick, info);
        MovesGoOn(book, t.rec, undone.tick, handled.tick, k);
        SequenceTail(w, app, d, t, error, k);
      }
    } else {
      CompensatePasses(w, app, d, t, trigger);
      HandleProceeds(book, w, app, d, undone.tick, info, k);
      SequenceTail(w, app, d, t, error, k);
    }
  }

  lemma MovesGoOn(book: Book, a: Record, b: Tick, c: Tick, k: Key)
    requires Moves(book, b, c) && Advanced(a, b.rec, k)
    ensures Advanced(a, c.rec, k)
  {
    AdvancedOn(a, b, c, k);
  }

  /** After the handler nothing touches a step any more. */
  lemma SequenceTail(w: World, app: App, d: Delivery, t: Tick, error: Err, k: Key)
    requires t.rec.instance.status.Compensating?
    requires var undone := Compensate(w, app, d, t, TriggerOf(t.rec.instance, error));
             undone.Go?
             && var info := FailureInfo(TriggerOf(t.rec.instance, error), FailedStepOf(t),
                                        CompletedMainSteps(undone.tick.rec), undone.value);
                var handled := HandleFailure(w, app, d, undone.tick, info);
                (handled.Stop? && handled.signal.Crash?) || Advanced(t.rec, handled.tick.rec, k)
    ensures var r := FailureSequence(w, app, d, t, error);
            r.Go? ==> Advanced(t.rec, r.tick.rec, k)
  {
    hide Compensate, HandleFailure, Merge, CompletedMainSteps, SettleTerminal, Advanced, Unwind;
    var trigger := TriggerOf(t.rec.instance, error);
    var undone := Compensate(w, app, d, t, trigger);
    var info := FailureInfo(trigger, FailedStepOf(t), CompletedMainSteps(undone.tick.rec), undone.value);
    var handled := HandleFailure(w, app, d, undone.tick, info);
    var r := FailureSequence(w, app, d, t, error);
    if handled.Stop? {
      UnwindStays(w, handled.tick, handled.signal);
    } else {
      SettleStays(w, handled.tick, trigger, undone.value);
    }
    if handled.Go? || !handled.signal.Crash? {
      AdvancedSame(t.rec, handled.tick.rec, r.tick.rec, k);
    }
  }

  lemma MainGoesOn(a: Record, b: Record, c: Record, k: Key)
    requires Advanced(a, b, k) && k.phase == Main && MainSame(b, c)
    ensures Advanced(a, c, k)
  {
  }

  /** A live delivery of a run whose frontier is due. */
  lemma ExecuteProceeds(book: Book, w: World, app: App, d: Delivery, t: Tick, k: Key)
    requires Sound(book, t.rec) && Obeys(app, book) && Ready(t) && d.mode.Normal?
    requires Frontier(app, t.rec) == Some(k) && Due(t.rec, k, t.now, 0)
    ensures var r := Execute(w, app, d, t);
            r.Go? ==> Advanced(t.rec, r.tick.rec, k)
  {
    hide Eval, Sound, Obeys, FailureSequence, RouteOf, StopOf, Classify, Advanced, FirstUnsettled, StoredInfo, MainSame,
         Due,
         SettleTrigger, Guard, ReadsExhausted;
    var run := Eval(w, app, d, t, app.main, []);
    if RouteIn(app, t.rec).end.Pending? {
      ObeysMain(app, book);
      RouteStops(app.main, t.rec.steps, []);
      EvalProceeds(book, w, app, d, t, app.main, [], k);
      if !(run.Stop? && run.signal.Crash?) {
        Ordering.ExecuteMain(book, w, app, d, t);
        MainGoesOn(t.rec, run.tick.rec, Execute(w, app, d, t).tick.rec, k);
      }
    } else {
      LiveGuard(app, d, t.rec);
      ReplayOnly(book, w, app, d, t);
      var error := if run.Stop? && run.signal.Raised? then SettleTrigger(d, Some(run.signal.err))
                     else SettleTrigger(d, None);
      SequenceProceeds(book, w, app, d, run.tick, error, k);
    }
  }

  lemma LiveGuard(app: App, d: Delivery, rec: Record)
    requires !RouteIn(app, rec).end.Pending?
    ensures Guard(app, d, rec)
  {
  }

  lemma LockedExecutes(app: App, input: InitInput, s: Run, w: World, d: Delivery)
    requires Unended(s) && RunLocked(w, app, d, s.stored, input, s.now, s.trace).Go?
    ensures RunLocked(w, app, d, s.stored, input, s.now, s.trace) == Execute(w, app, d, Began(input, s, w))
    ensures Ready(Began(input, s, w))
  {
    hide Execute;
  }

  lemma FrontierBegan(app: App, input: InitInput, s: Run, w: World)
    requires s.stored.Some? && Unended(s)
    ensures Frontier(app, Began(input, s, w).rec) == Frontier(app, s.stored.value)
  {
    hide RouteOf, FirstUnsettled, StopOf;
    var rec := Began(input, s, w).rec;
    assert RouteIn(app, rec) == RouteIn(app, s.stored.value);
    SameFrontier(app, rec, s.stored.value);
  }

  lemma {:induction false} SameUnsettled(a: Record, b: Record, rs: seq<Rollback>)
    requires a.steps == b.steps
    ensures FirstUnsettled(a, rs) == FirstUnsettled(b, rs) && UndoneKeys(a, rs) == UndoneKeys(b, rs)
            && StoredFailures(a, rs) == StoredFailures(b, rs)
  {
    if rs != [] {
      SameUnsettled(a, b, rs[1..]);
    }
  }

  lemma SameFrontier(app: App, a: Record, b: Record)
    requires a.steps == b.steps && (a.instance.status.Compensating? <==> b.instance.status.Compensating?)
    requires a.instance.failureError == b.instance.failureError && a.instance.failedStep == b.instance.failedStep
    ensures Frontier(app, a) == Frontier(app, b)
  {
    hide RouteOf, FirstUnsettled, StopOf, LatestFirst, UndoneKeys, StoredFailures;
    SameUnsettled(a, b, LatestFirst(RouteIn(app, a).rollbacks));
  }

  lemma DueLater(a: Record, b: Record, k: Key, now: nat, delay: nat, later: nat)
    requires Due(a, k, now, delay) && b.steps == a.steps && now + delay <= later
    ensures Due(b, k, later, 0)
  {
  }

  /**
   * Progress after parking: when a delivery has parked the run with some delay, any live delivery after
   * that delay takes the step it waits for to a higher attempt or settles it, unless the process dies. So
   * no step is parked on twice for one wake time.
   */
  lemma ParkedProceeds(book: Book, app: App, input: InitInput, s: Run, w: World, d: Delivery, ms: nat, w': World,
                       d': Delivery)
    requires Obeys(app, book) && (s.stored.Some? ==> Sound(book, s.stored.value))
    requires Unended(s) && !Skipped(s, d) && FaithfulEvent(app, input, s, Deliver(w, d))
    requires var r := RunLocked(w, app, d, s.stored, input, s.now, s.trace);
             && r.Go? && r.value.Parked? && r.value.resume.delay <= ms
             && (r.value.resume.awaits.Some? && r.value.resume.awaits.value.phase == Failure ==>
                   var t := Began(input, s, w);
                   var run := Eval(w, app, d, t, app.main, []);
                   && SequenceRetells(w, app, d, run.tick, EntryError(d, t.rec.instance.status.Compensating?, run))
                   && (s.stored.Some? ==> Committed(app, s.stored.value)))
    requires var n := Next(app, input, Next(app, input, s, Deliver(w, d)), Wait(ms));
             d'.mode.Normal? && RunLocked(w', app, d', n.stored, input, n.now, n.trace).Go?
    ensures var r := RunLocked(w, app, d, s.stored, input, s.now, s.trace);
            var parked := Next(app, input, s, Deliver(w, d));
            var after := Next(app, input, Next(app, input, parked, Wait(ms)), Deliver(w', d'));
            && r.value.resume.awaits.Some? && parked.stored.Some? && after.stored.Some?
            && Advanced(parked.stored.value, after.stored.value, r.value.resume.awaits.value)
  {
    hide Obeys, Sound, RunLocked, Execute, Began, Committed, SequenceRetells, Frontier, Due, Advanced, TickKeeps,
         ReadsExhausted,
         Follows;
    var t := Began(input, s, w);
    var r := RunLocked(w, app, d, s.stored, input, s.now, s.trace);
    LockedExecutes(app, input, s, w, d);
    BeganSound(book, app, input, s, w);
    if s.stored.None? || Committed(app, s.stored.value) {
      BeganCommitted(app, input, s, w);
    }
    ParkedUntilDue(book, w, app, d, t);
    ParksAtFrontier(book, w, app, d, t);
    ExecuteKeeps(book, w, app, d, t);
    KeptSound(book, t, r.tick);
    var k := r.value.resume.awaits.value;
    var n := Next(app, input, Next(app, input, s, Deliver(w, d)), Wait(ms));
    assert n == Run(Some(r.tick.rec), r.tick.now + ms, r.tick.trace);
    var t' := Began(input, n, w');
    LockedExecutes(app, input, n, w', d');
    BeganSound(book, app, input, n, w');
    FrontierBegan(app, input, n, w');
    DueLater(r.tick.rec, t'.rec, k, r.tick.now, r.value.resume.delay, t'.now);
    ExecuteProceeds(book, w', app, d', t', k);
    AdvancedFrom(r.tick.rec, t'.rec, Execute(w', app, d', t').tick.rec, k);
  }

  lemma KeptSound(book: Book, t: Tick, u: Tick)
    requires TickKeeps(book, t, u)
    ensures Sound(book, u.rec)
  {
  }

  lemma AdvancedFrom(a: Record, b: Record, c: Record, k: Key)
    requires Advanced(b, c, k) && b.steps == a.steps
    ensures Advanced(a, c, k)
  {
  }
}
