/** With bounded retries and deliveries in time, a run parks only finitely often. */
module Finishing {
  import opened Values
  import opened Phases
  import opened Retries
  import opened Records
  import opened Processors
  import opened Steps
  import opened Ticks
  import opened Journal
  import opened StepCalls
  import opened Routes
  import opened Sagas
  import opened Failures
  import opened Runs
  import opened Guarantees
  import opened Compensating
  import opened Irreversible
  import opened Budgets
  import opened Parking
  import opened Progress
  import opened Outcomes

  // -- At which attempts a step can still park -------------------------------------------------

  /** A body that leaves its step running: it suspends the tick, or fails with attempts left. */
  predicate LeavesRunning(w: World, app: App, d: Delivery, k: Key, o: StepOptions, n: nat) {
    var b := w.body(k, n);
    var limit := Limit(app, d, o, b.RetryLater?);
    || b.NestedYield?
    || (((b.Fails? && !b.nonRetryable) || b.RetryLater?) && (limit.None? || n < limit.value))
  }

  /** The step that yields is running under an attempt whose body left it so. */
  predicate LeftRunning(w: World, app: App, d: Delivery, u: Tick, k: Key, o: StepOptions) {
    u.rec.Has(k, StepRunning) && LeavesRunning(w, app, d, k, o, u.rec.steps[k].attempts)
  }

  lemma HandleLeaves(w: World, app: App, d: Delivery, t: Tick, key: string, o: StepOptions, a: Attempt)
    requires var b := Thrown(d, w.body(Key(t.phase, key), a.attempts)); b.Fails? || b.RetryLater?
    ensures var r := HandleStepError(w, app, d, t, key, o, a, Thrown(d, w.body(Key(t.phase, key), a.attempts)));
            && (r.Stop? && r.signal.Yield? ==> d.mode.Normal? && LeftRunning(w, app, d, r.tick, Key(t.phase, key), o))
            && (r.Go? ==> d.mode.Settle?)
  {
    hide Policy, Delay, Exhausted, Limit;
  }

  lemma AttemptLeaves(w: World, app: App, d: Delivery, t: Tick, key: string, o: StepOptions, arg: Argument, a: Attempt)
    requires OnAttempt(t, Key(t.phase, key), a)
    ensures var r := RunAttempt(w, app, d, t, key, o, arg, a);
            && (r.Stop? && r.signal.Yield? ==> d.mode.Normal? ==> LeftRunning(w, app, d, r.tick, Key(t.phase, key), o))
            && (r.Go? && r.value.None? ==> d.mode.Settle?)
  {
    hide Policy, HandleStepError, LeavesRunning;
    var k := Key(t.phase, key);
    var t1 := Pass(w, t.(trace := t.trace + [Started(k, a.attempts, t.now, arg)])).tick;
    var b := Thrown(d, w.body(k, a.attempts));
    if b.Fails? || b.RetryLater? {
      HandleLeaves(w, app, d, t1, key, o, a);
    } else if b.NestedYield? {
      SuspendLeaves(w, app, d, k, o, a.attempts);
    }
  }

  lemma SuspendLeaves(w: World, app: App, d: Delivery, k: Key, o: StepOptions, n: nat)
    requires w.body(k, n).NestedYield?
    ensures LeavesRunning(w, app, d, k, o, n)
  {
  }

  /** A step call that yields: either it only waits for its record, or a body has just left it running. */
  lemma StepLeaves(w: World, app: App, d: Delivery, t: Tick, key: string, o: StepOptions, arg: Argument)
    requires d.mode.Normal?
    ensures var c := ExecuteStep(w, app, d, t, key, o, arg);
            c.Stop? && c.signal.Yield? ==> c.tick.rec == t.rec || LeftRunning(w, app, d, c.tick, Key(t.phase, key), o)
  {
    hide RunAttempt, Policy, LeavesRunning;
    var begin := BeginOrReplay(w, d, t, key, o);
    if begin.Go? && begin.value.Live? {
      AttemptLeaves(w, app, d, begin.tick, key, o, arg, begin.value.attempt);
    }
  }

  /** What is known of the step for which a stretch of a tick has yielded. */
  ghost predicate ParkFits(book: Book, w: World, app: App, d: Delivery, t: Tick, u: Tick, k: Key) {
    && u.rec.Has(k, StepRunning)
    && (|| (k in t.rec.steps && u.rec.steps[k] == t.rec.steps[k])
        || u.rec.steps[k].kind.Sleep?
        || (OptionsOf(app, book, k).Some? && LeftRunning(w, app, d, u, k, OptionsOf(app, book, k).value)))
  }

  ghost predicate Parks<T>(book: Book, w: World, app: App, d: Delivery, t: Tick, r: Eff<T>) {
    r.Stop? && r.signal.Yield? && r.tick.resume.Some? && r.tick.resume.value.awaits.Some? ==>
      ParkFits(book, w, app, d, t, r.tick, r.tick.resume.value.awaits.value)
  }

  lemma CallParks(book: Book, w: World, app: App, d: Delivery, t: Tick, c: Eff<Value>, key: string, o: StepOptions)
    requires StepEnds(t, c, key, o) && t.resume.None? && OptionsOf(app, book, Key(t.phase, key)) == Some(o)
    requires c.Stop? && c.signal.Yield? ==>
               c.tick.rec == t.rec || LeftRunning(w, app, d, c.tick, Key(t.phase, key), o)
    ensures Parks(book, w, app, d, t, c)
  {
    hide LeavesRunning, OptionsOf;
  }

  /** An earlier call of the same step would have settled it. */
  lemma ParksAfter(book: Book, w: World, app: App, d: Delivery, t: Tick, c: Tick, u: Tick, j: Key, k: Key)
    requires OnlyAt(t.rec, c.rec, j) && j in c.rec.steps && !c.rec.steps[j].status.StepRunning?
    requires Keeps(c.rec.steps, u.rec.steps) && ParkFits(book, w, app, d, c, u, k)
    ensures ParkFits(book, w, app, d, t, u, k)
  {
    hide LeavesRunning, OptionsOf;
  }

  lemma PauseParks(book: Book, w: World, app: App, d: Delivery, t: Tick, c: Eff<()>, key: string)
    requires SleepEnds(d, t, c, key) && t.resume.None? && Sound(book, c.tick.rec) && NamesSleep(book, Key(t.phase, key))
    ensures Parks(book, w, app, d, t, c)
  {
    if c.Stop? && c.signal.Yield? {
      var k := Key(t.phase, key);
      assert StepSound(book, k, c.tick.rec.steps[k], c.tick.rec.Counter());
    }
  }

  lemma CallSettles(t: Tick, c: Eff<Value>, key: string, o: StepOptions)
    requires StepEnds(t, c, key, o) && (c.Go? || c.signal.Raised?)
    ensures var k := Key(t.phase, key);
            k in c.tick.rec.steps && !c.tick.rec.steps[k].status.StepRunning? && c.tick.resume == t.resume
  {
  }

  lemma PauseSettles(d: Delivery, t: Tick, c: Eff<()>, key: string)
    requires SleepEnds(d, t, c, key) && c.Go?
    ensures var k := Key(t.phase, key);
            k in c.tick.rec.steps && !c.tick.rec.steps[k].status.StepRunning? && c.tick.resume == t.resume
  {
  }

  lemma {:induction false} EvalParks(book: Book, w: World, app: App, d: Delivery, t: Tick, p: Processor,
                                     seen: seq<Seen>)
    requires Sound(book, t.rec) && t.phase != Compensation && ProcessorObeys(p, t.phase, book)
    requires d.mode.Normal? && t.resume.None?
    ensures Parks(book, w, app, d, t, Eval(w, app, d, t, p, seen))
    decreases p.Left(seen)
  {
    hide Follows, OnlyPhase, Sound, ExecuteStep, SleepFor, Spans, OnlyAt, StepEnds, SleepEnds, ParkFits, LeftRunning;
    var r := Eval(w, app, d, t, p, seen);
    match p.At(seen)
    case Return(_) =>
    case Throw(_, _, _) =>
    case Pause(key, delay) =>
      assert MoveObeys(p.At(seen), t.phase, book);
      SleepSpans(book, w, d, t, key, delay);
      var c := SleepFor(w, d, t, key, delay);
      SpansSound(book, t, c.tick);
      if SleepEnds(d, t, c, key) {
        PauseParks(book, w, app, d, t, c, key);
        if c.Go? {
          PauseSettles(d, t, c, key);
          EvalParks(book, w, app, d, c.tick, p, seen + [Slept]);
          FinalKeeps(book, w, app, d, c.tick, p, seen + [Slept]);
          ParksJoin(book, w, app, d, t, c.tick, r, Key(t.phase, key));
        }
      }
    case Call(key, o, recovery) =>
      assert MoveObeys(p.At(seen), t.phase, book);
      StepSpans(book, w, app, d, t, key, o, Nothing);
      StepLeaves(w, app, d, t, key, o, Nothing);
      var c := ExecuteStep(w, app, d, t, key, o, Nothing);
      SpansSound(book, t, c.tick);
      if StepEnds(t, c, key, o) {
        CallParks(book, w, app, d, t, c, key, o);
        if GoesOn(recovery, c) {
          CallSettles(t, c, key, o);
          EvalParks(book, w, app, d, c.tick, p, seen + [SeenOf(recovery, c)]);
          FinalKeeps(book, w, app, d, c.tick, p, seen + [SeenOf(recovery, c)]);
          ParksJoin(book, w, app, d, t, c.tick, r, Key(t.phase, key));
        }
      }
  }

  lemma ParksJoin<T>(book: Book, w: World, app: App, d: Delivery, t: Tick, c: Tick, r: Eff<T>, j: Key)
    requires OnlyAt(t.rec, c.rec, j) && j in c.rec.steps && !c.rec.steps[j].status.StepRunning?
    requires Keeps(c.rec.steps, r.tick.rec.steps) && Parks(book, w, app, d, c, r)
    ensures Parks(book, w, app, d, t, r)
  {
    hide OnlyAt, ParkFits;
    if r.Stop? && r.signal.Yield? && r.tick.resume.Some? && r.tick.resume.value.awaits.Some? {
      ParksAfter(book, w, app, d, t, c, r.tick, j, r.tick.resume.value.awaits.value);
    }
  }

  lemma {:induction false} RollbacksPark(book: Book, w: World, app: App, d: Delivery, t: Tick, rs: seq<Rollback>,
                                         error: Err, report: Report)
    requires Sound(book, t.rec) && t.phase == Compensation && d.mode.Normal? && t.resume.None? && Booked(book, rs)
    ensures Parks(book, w, app, d, t, RunRollbacks(w, app, d, t, rs, error, report))
    decreases |rs|
  {
    hide Follows, Sound, ExecuteStep, Spans, OnlyAt, StepEnds, ParkFits, LeftRunning, Accounts;
    var r := RunRollbacks(w, app, d, t, rs, error, report);
    if rs != [] {
      var first := rs[0];
      var o, arg := RollbackOptions(app, first), Undo(first.output, error);
      StepSpans(book, w, app, d, t, first.key, o, arg);
      StepLeaves(w, app, d, t, first.key, o, arg);
      var c := ExecuteStep(w, app, d, t, first.key, o, arg);
      SpansSound(book, t, c.tick);
      CallParks(book, w, app, d, t, c, first.key, o);
      if c.Go? || c.signal.Raised? {
        var next := if c.Go? then report.(rolledBack := report.rolledBack + [first.key])
                    else report.(failed := report.failed + [(first.key, c.signal.err)]);
        CallSettles(t, c, first.key, o);
        assert forall i :: 0 <= i < |rs[1..]| ==> rs[1..][i] == rs[i + 1];
        RollbacksPark(book, w, app, d, c.tick, rs[1..], error, next);
        RollbacksAccount(book, w, app, d, c.tick, rs[1..], error, next);
        SpansKeeps(book, c.tick, r.tick);
        ParksJoin(book, w, app, d, t, c.tick, r, CompKey(first));
      }
    }
  }

  // -- A whole delivery ----------------------------------------------------------------------------

  lemma ParksFrom(book: Book, w: World, app: App, d: Delivery, t: Tick, c: Tick, u: Tick, phase: Phase, k: Key)
    requires OnlyPhase(t.rec, c.rec, phase) && k.phase != phase && ParkFits(book, w, app, d, c, u, k)
    ensures ParkFits(book, w, app, d, t, u, k)
  {
    hide LeavesRunning, OptionsOf;
  }

  lemma ParksSame(book: Book, w: World, app: App, d: Delivery, t: Tick, c: Tick, u: Tick, v: Tick, k: Key)
    requires c.rec.steps == t.rec.steps && v.rec.steps == u.rec.steps && ParkFits(book, w, app, d, c, u, k)
    ensures ParkFits(book, w, app, d, t, v, k)
  {
    hide LeavesRunning, OptionsOf;
  }

  lemma SpansPhase(book: Book, a: Tick, b: Tick)
    requires Spans(book, a, b)
    ensures OnlyPhase(a.rec, b.rec, a.phase)
  {
  }

  lemma CompensatePark(book: Book, w: World, app: App, d: Delivery, t: Tick, error: Err)
    requires Sound(book, t.rec) && d.mode.Normal? && t.resume.None? && Booked(book, t.rollbacks)
    ensures var r := Compensate(w, app, d, t, error);
            Parks(book, w, app, d, t, r) && OnlyPhase(t.rec, r.tick.rec, Compensation)
  {
    hide RunRollbacks, Sound, LatestFirst, ParkFits, Booked, Accounts, Spans;
    var r := Compensate(w, app, d, t, error);
    if t.rollbacks != [] {
      var t1 := t.(phase := Compensation);
      OrderedBooked(book, t.rollbacks);
      RollbacksPark(book, w, app, d, t1, LatestFirst(t.rollbacks), error, NO_REPORT);
      RollbacksAccount(book, w, app, d, t1, LatestFirst(t.rollbacks), error, NO_REPORT);
      SpansPhase(book, t1, r.tick);
      if r.Stop? && r.signal.Yield? && r.tick.resume.Some? && r.tick.resume.value.awaits.Some? {
        ParksSame(book, w, app, d, t, t1, r.tick, r.tick, r.tick.resume.value.awaits.value);
      }
    }
  }

  lemma HandlePark(book: Book, w: World, app: App, d: Delivery, t: Tick, info: FailureInfo)
    requires Sound(book, t.rec) && Obeys(app, book) && d.mode.Normal? && t.resume.None?
    ensures Parks(book, w, app, d, t, HandleFailure(w, app, d, t, info))
  {
    hide Eval, Sound, ProcessorObeys, ParkFits;
    var r := HandleFailure(w, app, d, t, info);
    if app.onFailure.Some? {
      var t1 := t.(phase := Failure, trace := t.trace + [Handled(info)]);
      EvalParks(book, w, app, d, t1, app.onFailure.value(info), []);
      if r.Stop? && r.signal.Yield? && r.tick.resume.Some? && r.tick.resume.value.awaits.Some? {
        ParksSame(book, w, app, d, t, t1, r.tick, r.tick, r.tick.resume.value.awaits.value);
      }
    }
  }

  /** The step a failure sequence parks on. */
  lemma SequencePark(book: Book, w: World, app: App, d: Delivery, t: Tick, error: Err)
    requires Sound(book, t.rec) && Obeys(app, book) && d.mode.Normal? && t.resume.None? && Booked(book, t.rollbacks)
    ensures var r := FailureSequence(w, app, d, t, error);
            r.Go? && r.value.Parked? && r.value.resume.awaits.Some? ==>
              && r.value.resume.awaits.value.phase != Main
              && ParkFits(book, w, app, d, t, r.tick, r.value.resume.awaits.value)
  {
    hide Compensate, HandleFailure, Obeys, Sound, Moves, InTime, Merge, CompletedMainSteps, SettleTerminal, Accounts,
         Added, Keeps, Told, LatestFirst, Sagas.Handed, ParkFits, Booked, OnlyPhase;
    var r := FailureSequence(w, app, d, t, error);
    var entered := Enter(w, t, error);
    EnterUnderway(book, w, t, error);
    if entered.Go? && r.Go? && r.value.Parked? && r.value.resume.awaits.Some? {
      var t1 := entered.tick;
      var trigger := TriggerOf(t.rec.instance, error);
      var undone := Compensate(w, app, d, t1, trigger);
      CompensateWaits(book, w, app, d, t1, trigger);
      CompensatePark(book, w, app, d, t1, trigger);
      CompensateMoves(book, w, app, d, t1, trigger);
      MovesSound(book, t1, undone.tick);
      if undone.Stop? {
        AwaitsInPhase(undone.tick);
        ParksSame(book, w, app, d, t, t1, undone.tick, r.tick, r.value.resume.awaits.value);
      } else {
        var info := FailureInfo(trigger, FailedStepOf(t), CompletedMainSteps(undone.tick.rec), undone.value);
        var handled := HandleFailure(w, app, d, undone.tick, info);
        HandleWaits(book, w, app, d, undone.tick, info);
        HandlePark(book, w, app, d, undone.tick, info);
        SettlesUnparked(w, handled.tick, trigger, undone.value);
        assert handled.Stop? && handled.signal.Yield?;
        AwaitsInPhase(handled.tick);
        var k := r.value.resume.awaits.value;
        ParksFrom(book, w, app, d, t1, undone.tick, handled.tick, Compensation, k);
        ParksSame(book, w, app, d, t, t1, handled.tick, r.tick, k);
      }
    }
  }

  lemma EvalPhase(book: Book, w: World, app: App, d: Delivery, t: Tick)
    requires Sound(book, t.rec) && Obeys(app, book) && t.phase == Main
    ensures OnlyPhase(t.rec, Eval(w, app, d, t, app.main, []).tick.rec, Main)
  {
    hide Eval, Sound, ProcessorObeys;
    EvalSpans(book, w, app, d, t, app.main, []);
  }

  lemma YieldPark(book: Book, w: World, app: App, d: Delivery, t: Tick, run: Eff<Value>)
    requires run.Stop? && run.signal.Yield? && Parks(book, w, app, d, t, run)
    ensures var saved := SaveInstance(w, run.tick, NO_CHANGE.(status := Some(Yielded)));
            saved.Go? ==>
              var r := Park(saved.tick);
              r.value.resume.awaits.Some? ==> ParkFits(book, w, app, d, t, r.tick, r.value.resume.awaits.value)
  {
    hide ParkFits;
    var saved := SaveInstance(w, run.tick, NO_CHANGE.(status := Some(Yielded)));
    if saved.Go? && Park(saved.tick).value.resume.awaits.Some? {
      ParksSame(book, w, app, d, t, t, run.tick, Park(saved.tick).tick, Park(saved.tick).value.resume.awaits.value);
    }
  }

  /** The step a live delivery parks on. */
  lemma ExecutePark(book: Book, w: World, app: App, d: Delivery, t: Tick)
    requires Sound(book, t.rec) && Obeys(app, book) && Ready(t)
    ensures var r := Execute(w, app, d, t);
            r.Go? && r.value.Parked? && r.value.resume.awaits.Some? ==>
              ParkFits(book, w, app, d, t, r.tick, r.value.resume.awaits.value)
  {
    hide Eval, Sound, Obeys, FailureSequence, Classify, Merge, InTime, Park, Follows, ParkFits, OnlyPhase, AllFromSteps,
         SaveInstance;
    var run := Eval(w, app, d, t, app.main, []);
    var r := Execute(w, app, d, t);
    ParkedUntilDue(book, w, app, d, t);
    if r.Go? && r.value.Parked? && r.value.resume.awaits.Some? {
      ObeysMain(app, book);
      EvalWaits(book, w, app, d, t, app.main, []);
      EvalParks(book, w, app, d, t, app.main, []);
      RanHere(book, w, app, d, t);
      if run.Stop? && run.signal.Yield? {
        YieldPark(book, w, app, d, t, run);
      } else if Concludes(run) {
        var error := EntryError(d, t.rec.instance.status.Compensating?, run);
        if run.Stop? && run.signal.Raised? && !t.rec.instance.status.Compensating? {
          ClassifyParked(w, app, d, run.tick, run.signal.err, run.signal.stepScoped, run.signal.unrecoverable);
        }
        ForwardRegisters(book, w, app, d, t);
        FromStepsBooked(book, run.tick.rec, run.tick.rollbacks);
        SequencePark(book, w, app, d, run.tick, error);
        EvalPhase(book, w, app, d, t);
        ParksFrom(book, w, app, d, t, run.tick, r.tick, Main, r.value.resume.awaits.value);
      }
    }
  }

  // -- What is left to do ------------------------------------------------------------------------------

  /** The compensations that have not settled. */
  function Unsettled(rec: Record, rs: seq<Rollback>): nat {
    if rs == [] then 0
    else (if Undone(rec, rs[0]) || GaveUp(rec, rs[0]) then 0 else 1) + Unsettled(rec, rs[1..])
  }

  /** Forward steps come before compensations, and those before the handler. */
  function Stage(app: App, rec: Record): nat {
    var route := RouteIn(app, rec);
    if route.end.Pending? then 2
    else if FirstUnsettled(rec, LatestFirst(route.rollbacks)).Some? then 1
    else 0
  }

  /** The calls or compensations left in the current stage. */
  function Remaining(app: App, rec: Record): nat {
    var route := RouteIn(app, rec);
    match Stage(app, rec)
    case 2 => app.main.Left(RouteSeen(app.main, Main, rec.steps, []))
    case 1 => Unsettled(rec, LatestFirst(route.rollbacks))
    case _ =>
      if app.onFailure.None? || rec.instance.failureError.None? then 0
      else
        var handler := app.onFailure.value(StoredInfo(app, rec));
        handler.Left(RouteSeen(handler, Failure, rec.steps, []))
  }

  /** The attempts up to `most` that a step has not reached. */
  function AttemptsLeft(rec: Record, k: Key, most: nat): nat {
    if k in rec.steps && rec.steps[k].attempts <= most then most + 1 - rec.steps[k].attempts else 0
  }

  /** Settling the step at which a processor stops takes it at least one call further. */
  lemma {:induction false} StopProceeds(p: Processor, phase: Phase, a: map<Key, Step>, b: map<Key, Step>,
                                        seen: seq<Seen>)
    requires Keeps(a, b) && StopOf(p, phase, a, seen).Some? && StopOf(p, phase, b, seen).Some?
    ensures var x, y := RouteSeen(p, phase, a, seen), RouteSeen(p, phase, b, seen);
            || (StopOf(p, phase, b, seen) == StopOf(p, phase, a, seen) && y == x)
            || p.Left(y) < p.Left(x)
    decreases p.Left(seen)
  {
    match p.At(seen)
    case Return(_) =>
    case Throw(_, _, _) =>
    case Pause(key, _) =>
      var k := Key(phase, key);
      if k in a && a[k].status.StepCompleted? {
        StopProceeds(p, phase, a, b, seen + [Slept]);
      } else if k in b && b[k].status.StepCompleted? {
        RouteSeenGrows(p, phase, b, seen + [Slept]);
      }
    case Call(key, _, recovery) =>
      var k := Key(phase, key);
      if k in a && !a[k].status.StepRunning? {
        StopProceeds(p, phase, a, b, seen + [SettledSeen(recovery, a[k], key)]);
      } else if k in b && !b[k].status.StepRunning? {
        RouteSeenGrows(p, phase, b, seen + [SettledSeen(recovery, b[k], key)]);
      }
  }

  lemma {:induction false} UndoProceeds(a: Record, b: Record, rs: seq<Rollback>)
    requires Keeps(a.steps, b.steps) && FirstUnsettled(a, rs).Some? && FirstUnsettled(b, rs).Some?
    ensures || (FirstUnsettled(b, rs) == FirstUnsettled(a, rs) && Unsettled(b, rs) <= Unsettled(a, rs))
            || Unsettled(b, rs) < Unsettled(a, rs)
    decreases |rs|
  {
    if Undone(a, rs[0]) || GaveUp(a, rs[0]) {
      UndoProceeds(a, b, rs[1..]);
    } else {
      UnsettledLess(a, b, rs[1..]);
    }
  }

  lemma {:induction false} UnsettledLess(a: Record, b: Record, rs: seq<Rollback>)
    requires Keeps(a.steps, b.steps)
    ensures Unsettled(b, rs) <= Unsettled(a, rs)
  {
    if rs != [] {
      UnsettledLess(a, b, rs[1..]);
    }
  }

  /** Less is left to do: an earlier stage is over, or a step of it, or an attempt at that step. */
  predicate Lower(app: App, a: Record, j: Key, b: Record, k: Key, most: nat) {
    || Stage(app, b) < Stage(app, a)
    || (Stage(app, b) == Stage(app, a)
        && (|| Remaining(app, b) < Remaining(app, a)
            || (Remaining(app, b) == Remaining(app, a) && AttemptsLeft(b, k, most) < AttemptsLeft(a, j, most))))
  }

  lemma AttemptsDrop(a: Record, b: Record, k: Key, most: nat)
    requires Advanced(a, b, k) && b.Has(k, StepRunning) && b.steps[k].attempts <= most
    ensures AttemptsLeft(b, k, most) < AttemptsLeft(a, k, most)
  {
  }

  /** A delivery past the forward phase changes neither the forward records nor what is known of the failure. */
  predicate SameFailure(a: Record, b: Record) {
    b.instance.failureError == a.instance.failureError && b.instance.failedStep == a.instance.failedStep
  }

  lemma MainLower(app: App, a: Record, b: Record, j: Key, k: Key, most: nat)
    requires Keeps(a.steps, b.steps) && Advanced(a, b, j)
    requires Frontier(app, a) == Some(j) && Frontier(app, b) == Some(k) && Stage(app, a) == 2
    requires b.Has(k, StepRunning) && (k == j ==> b.steps[k].attempts <= most)
    ensures Lower(app, a, j, b, k, most)
  {
    hide RouteOf, RouteSeen, FirstUnsettled, StopOf;
    RouteStops(app.main, a.steps, []);
    RouteStops(app.main, b.steps, []);
    if Stage(app, b) == 2 {
      StopProceeds(app.main, Main, a.steps, b.steps, []);
      if k == j {
        AttemptsDrop(a, b, k, most);
      }
    }
  }

  lemma UndoLower(app: App, a: Record, b: Record, j: Key, k: Key, most: nat)
    requires Keeps(a.steps, b.steps) && Advanced(a, b, j)
    requires Frontier(app, a) == Some(j) && Frontier(app, b) == Some(k) && Stage(app, a) == 1
    requires b.Has(k, StepRunning) && (k == j ==> b.steps[k].attempts <= most)
    ensures Lower(app, a, j, b, k, most)
  {
    hide RouteOf, FirstUnsettled, StopOf, LatestFirst;
    RouteStable(app.main, a.steps, b.steps, []);
    if Stage(app, b) == 1 {
      UndoProceeds(a, b, LatestFirst(RouteIn(app, a).rollbacks));
      if k == j {
        AttemptsDrop(a, b, k, most);
      }
    }
  }

  lemma SameInfo(app: App, a: Record, b: Record)
    requires Keeps(a.steps, b.steps) && MainSame(a, b) && SameFailure(a, b) && a.instance.failureError.Some?
    requires FirstUnsettled(a, LatestFirst(RouteIn(app, a).rollbacks)).None?
    ensures StoredInfo(app, b) == StoredInfo(app, a) && RouteIn(app, b) == RouteIn(app, a)
    ensures FirstUnsettled(b, LatestFirst(RouteIn(app, a).rollbacks)).None?
  {
    hide RouteOf, FirstUnsettled, LatestFirst, UndoneKeys, StoredFailures, CompletedMainSteps;
    RouteOfMain(app.main, a, b, []);
    SettledStay(a, b, LatestFirst(RouteIn(app, a).rollbacks));
    CompletedSame(a, b);
  }

  lemma TellLower(app: App, a: Record, b: Record, j: Key, k: Key, most: nat)
    requires Keeps(a.steps, b.steps) && Advanced(a, b, j) && MainSame(a, b) && SameFailure(a, b)
    requires Frontier(app, a) == Some(j) && Frontier(app, b) == Some(k) && Stage(app, a) == 0
    requires b.Has(k, StepRunning) && (k == j ==> b.steps[k].attempts <= most)
    ensures Lower(app, a, j, b, k, most)
  {
    hide RouteOf, FirstUnsettled, StopOf, RouteSeen, LatestFirst, StoredInfo;
    SameInfo(app, a, b);
    StopProceeds(app.onFailure.value(StoredInfo(app, a)), Failure, a.steps, b.steps, []);
    if k == j {
      AttemptsDrop(a, b, k, most);
    }
  }

  // -- One delivery after another ----------------------------------------------------------------------

  /** A delivery, and the time until the next. */
  datatype Turn = Turn(world: World, delivery: Delivery, ms: nat)

  function Told(app: App, input: InitInput, s: Run, turn: Turn): Eff<Outcome> {
    RunLocked(turn.world, app, turn.delivery, s.stored, input, s.now, s.trace)
  }

  function Then(app: App, input: InitInput, s: Run, turn: Turn): Run {
    Next(app, input, Next(app, input, s, Deliver(turn.world, turn.delivery)), Wait(turn.ms))
  }

  function After(app: App, input: InitInput, s: Run, turns: nat -> Turn, n: nat): Run {
    if n == 0 then s else Then(app, input, After(app, input, s, turns, n - 1), turns(n - 1))
  }

  predicate ParksAgain(app: App, input: InitInput, s: Run, turn: Turn) {
    Told(app, input, s, turn).Go? && Told(app, input, s, turn).value.Parked?
  }

  predicate MayPark(book: Book, app: App, w: World, d: Delivery, k: Key, n: nat) {
    OptionsOf(app, book, k).Some? && LeavesRunning(w, app, d, k, OptionsOf(app, book, k).value, n)
  }

  /** Bodies suspend, and retries are granted, at the first `most` attempts only. */
  ghost predicate Bounded(book: Book, app: App, w: World, d: Delivery, most: nat) {
    forall k, n: nat :: MayPark(book, app, w, d, k, n) ==> n <= most
  }

  /** A live delivery that runs to its end, after which the job comes back no earlier than it asked to. */
  ghost predicate Regular(book: Book, app: App, input: InitInput, s: Run, turn: Turn, most: nat) {
    var w, d, r := turn.world, turn.delivery, Told(app, input, s, turn);
    && d.mode.Normal? && r.Go? && Bounded(book, app, w, d, most)
    && FaithfulEvent(app, input, s, Deliver(w, d))
    && (r.value.Parked? ==>
          && r.value.resume.delay <= turn.ms
          && (Unended(s) && r.value.resume.awaits.Some? ==>
                ToldAlike(w, app, d, Began(input, s, w), r.value.resume.awaits.value)))
  }

  /** Parked, and due. */
  ghost predicate Waiting(book: Book, app: App, s: Run, k: Key) {
    && s.stored.Some? && Sound(book, s.stored.value) && Unended(s)
    && Frontier(app, s.stored.value) == Some(k) && Due(s.stored.value, k, s.now, 0)
  }

  lemma EndedNeverParks(app: App, input: InitInput, s: Run, turn: Turn)
    requires !Unended(s)
    ensures !ParksAgain(app, input, s, turn)
  {
    DeliverEnded(app, input, s, turn.world, turn.delivery);
  }

  /** A regular delivery that parks leaves the run waiting. */
  lemma TurnWaits(book: Book, app: App, input: InitInput, s: Run, turn: Turn, most: nat)
    requires Obeys(app, book) && (s.stored.Some? ==> Sound(book, s.stored.value))
    requires Regular(book, app, input, s, turn, most) && ParksAgain(app, input, s, turn)
    ensures var r := Told(app, input, s, turn);
            Unended(s) && r.Go? && r.value.Parked? && r.value.resume.awaits.Some?
    ensures var r := Told(app, input, s, turn);
            var k := r.value.resume.awaits.value;
            && Waiting(book, app, Then(app, input, s, turn), k) && r.tick.rec.Has(k, StepRunning)
            && Then(app, input, s, turn).stored == Some(r.tick.rec)
    ensures Told(app, input, s, turn) == Execute(turn.world, app, turn.delivery, Began(input, s, turn.world))
  {
    hide Obeys, Sound, RunLocked, Execute, Began, ToldAlike, Frontier, TickKeeps, ReadsExhausted, Bounded, Follows;
    var w, d, r := turn.world, turn.delivery, Told(app, input, s, turn);
    if !Unended(s) {
      EndedNeverParks(app, input, s, turn);
    }
    var t := Began(input, s, w);
    LockedExecutes(app, input, s, w, d);
    BeganSound(book, app, input, s, w);
    ParkedUntilDue(book, w, app, d, t);
    ParksAtFrontier(book, w, app, d, t);
    ExecuteKeeps(book, w, app, d, t);
    KeptSound(book, t, r.tick);
    DueLater(r.tick.rec, r.tick.rec, r.value.resume.awaits.value, r.tick.now, r.value.resume.delay,
             r.tick.now + turn.ms);
  }

  /** In that waiting state, a regular delivery that parks again leaves less to do. */
  lemma TurnLowers(book: Book, app: App, input: InitInput, s: Run, turn: Turn, most: nat, j: Key)
    requires Obeys(app, book) && Waiting(book, app, s, j)
    requires Regular(book, app, input, s, turn, most) && ParksAgain(app, input, s, turn)
    ensures var n := Then(app, input, s, turn);
            var k := Told(app, input, s, turn).value.resume;
            k.awaits.Some? && n.stored.Some? && Lower(app, s.stored.value, j, n.stored.value, k.awaits.value, most)
  {
    hide Obeys, Sound, RunLocked, Execute, Began, Frontier, TickKeeps, Follows, Regular, Stage, Lower, Advanced,
         ParkFits,
         Unended, Due, Keeps;
    var w, d, r := turn.world, turn.delivery, Told(app, input, s, turn);
    var t := Began(input, s, w);
    TurnWaits(book, app, input, s, turn, most);
    RegularParts(book, app, input, s, turn, most);
    BeganSound(book, app, input, s, w);
    WaitingReady(app, input, s, w, d);
    FrontierBegan(app, input, s, w);
    var a, b, k := s.stored.value, r.tick.rec, r.value.resume.awaits.value;
    DueLater(a, t.rec, j, s.now, 0, t.now);
    ExecuteProceeds(book, w, app, d, t, j);
    AdvancedFrom(a, t.rec, b, j);
    ExecutePark(book, w, app, d, t);
    ExecuteKeeps(book, w, app, d, t);
    KeptSteps(book, t, r.tick);
    SameSteps(a, t.rec, b);
    if k == j {
      ParkBounded(book, app, w, d, t, r.tick, k, most);
    }
    StageLowers(book, app, input, s, turn, a, b, j, k, most);
  }

  lemma RegularParts(book: Book, app: App, input: InitInput, s: Run, turn: Turn, most: nat)
    requires Regular(book, app, input, s, turn, most)
    ensures turn.delivery.mode.Normal? && Bounded(book, app, turn.world, turn.delivery, most)
  {
  }

  lemma WaitingReady(app: App, input: InitInput, s: Run, w: World, d: Delivery)
    requires Unended(s) && RunLocked(w, app, d, s.stored, input, s.now, s.trace).Go?
    ensures Ready(Began(input, s, w))
  {
    LockedExecutes(app, input, s, w, d);
  }

  lemma KeptSteps(book: Book, t: Tick, u: Tick)
    requires TickKeeps(book, t, u)
    ensures Keeps(t.rec.steps, u.rec.steps) && Follows(t, u) && Sound(book, u.rec)
  {
    FollowsKeeps(t, u);
  }

  lemma SameSteps(a: Record, b: Record, c: Record)
    requires Keeps(b.steps, c.steps) && a.steps == b.steps
    ensures Keeps(a.steps, c.steps)
  {
  }

  /** A step that was taken on and is awaited once more has an attempt at which its body may leave it running. */
  lemma ParkBounded(book: Book, app: App, w: World, d: Delivery, t: Tick, u: Tick, k: Key, most: nat)
    requires Bounded(book, app, w, d, most) && ParkFits(book, w, app, d, t, u, k)
    requires Advanced(t.rec, u.rec, k) && Follows(t, u)
    ensures u.rec.steps[k].attempts <= most
  {
    hide LeavesRunning, OptionsOf;
    assert StepMoves(t.rec.steps[k], u.rec.steps[k], u.now);
    assert MayPark(book, app, w, d, k, u.rec.steps[k].attempts) ==> u.rec.steps[k].attempts <= most;
  }

  lemma ResumedFacts(book: Book, app: App, t: Tick, u: Tick)
    requires Resumed(book, app, t, u)
    ensures MainSame(t.rec, u.rec) && SameFailure(t.rec, u.rec)
  {
    hide RouteOf, Follows, Sound, MainSame, Added;
  }

  lemma FrontierCompensates(app: App, rec: Record, k: Key)
    requires Frontier(app, rec) == Some(k) && !RouteIn(app, rec).end.Pending?
    ensures rec.instance.status.Compensating?
  {
    hide RouteOf;
  }

  lemma StageLowers(book: Book, app: App, input: InitInput, s: Run, turn: Turn, a: Record, b: Record, j: Key, k: Key,
                    most: nat)
    requires Obeys(app, book) && Waiting(book, app, s, j) && s.stored == Some(a) && turn.delivery.mode.Normal?
    requires Ready(Began(input, s, turn.world)) && Sound(book, Began(input, s, turn.world).rec)
    requires Execute(turn.world, app, turn.delivery, Began(input, s, turn.world)).tick.rec == b
    requires Keeps(a.steps, b.steps) && Advanced(a, b, j) && Frontier(app, b) == Some(k)
    requires b.Has(k, StepRunning) && (k == j ==> b.steps[k].attempts <= most)
    ensures Lower(app, a, j, b, k, most)
  {
    hide Obeys, Sound, Execute, Frontier, Follows, Lower, Advanced, Due, Keeps, RouteOf, FirstUnsettled, Resumed,
         Remaining;
    var t := Began(input, s, turn.world);
    if Stage(app, a) == 2 {
      MainLower(app, a, b, j, k, most);
    } else if Stage(app, a) == 1 {
      UndoLower(app, a, b, j, k, most);
    } else {
      FrontierCompensates(app, a, j);
      BeganMain(app, s, t);
      LiveGuard(app, turn.delivery, t.rec);
      ExecuteResumes(book, turn.world, app, turn.delivery, t);
      ResumedFacts(book, app, t, Execute(turn.world, app, turn.delivery, t).tick);
      SameMainTrans(a, t.rec, b);
      TellLower(app, a, b, j, k, most);
    }
  }

  ghost predicate AlwaysRegular(book: Book, app: App, input: InitInput, s: Run, turns: nat -> Turn, most: nat) {
    forall i: nat :: Regular(book, app, input, After(app, input, s, turns, i), turns(i), most)
  }

  predicate ParksAt(app: App, input: InitInput, s: Run, turns: nat -> Turn, i: nat) {
    ParksAgain(app, input, After(app, input, s, turns, i), turns(i))
  }

  ghost predicate AlwaysParks(app: App, input: InitInput, s: Run, turns: nat -> Turn) {
    forall i: nat :: ParksAt(app, input, s, turns, i)
  }

  lemma AtTurn(book: Book, app: App, input: InitInput, s: Run, turns: nat -> Turn, most: nat, n: nat)
    requires AlwaysRegular(book, app, input, s, turns, most) && AlwaysParks(app, input, s, turns)
    ensures var here := After(app, input, s, turns, n);
            && Regular(book, app, input, here, turns(n), most) && ParksAgain(app, input, here, turns(n))
            && After(app, input, s, turns, n + 1) == Then(app, input, here, turns(n))
  {
    hide Regular, ParksAgain, Then;
    assert ParksAt(app, input, s, turns, n);
  }

  /** From one waiting state to the next, with less to do. */
  lemma TurnOn(book: Book, app: App, input: InitInput, s: Run, turn: Turn, most: nat, j: Key) returns (k: Key)
    requires Obeys(app, book) && Waiting(book, app, s, j)
    requires Regular(book, app, input, s, turn, most) && ParksAgain(app, input, s, turn)
    ensures var n := Then(app, input, s, turn);
            && Waiting(book, app, n, k) && n.stored.Some?
            && s.stored.Some? && Lower(app, s.stored.value, j, n.stored.value, k, most)
  {
    hide *;
    WaitingSound(book, app, s, j);
    TurnWaits(book, app, input, s, turn, most);
    TurnLowers(book, app, input, s, turn, most, j);
    k := Told(app, input, s, turn).value.resume.awaits.value;
  }

  /** Deliveries that park for ever would leave ever less to do. */
  lemma {:induction false} NoEndlessParking(book: Book, app: App, input: InitInput, s: Run, turns: nat -> Turn,
                                            most: nat, n: nat, here: Run, j: Key)
    requires Obeys(app, book) && here == After(app, input, s, turns, n) && Waiting(book, app, here, j)
    requires AlwaysRegular(book, app, input, s, turns, most) && AlwaysParks(app, input, s, turns)
    requires here.stored.Some?
    ensures false
    decreases Stage(app, here.stored.value), Remaining(app, here.stored.value), AttemptsLeft(here.stored.value, j, most)
  {
    hide Obeys, Waiting, Regular, ParksAgain, Stage, Remaining, AttemptsLeft, Then, AlwaysRegular, AlwaysParks, After;
    AtTurn(book, app, input, s, turns, most, n);
    var k := TurnOn(book, app, input, here, turns(n), most, j);
    NoEndlessParking(book, app, input, s, turns, most, n + 1, Then(app, input, here, turns(n)), k);
  }

  lemma WaitingSound(book: Book, app: App, s: Run, k: Key)
    requires Waiting(book, app, s, k)
    ensures s.stored.Some? && Sound(book, s.stored.value)
  {
  }

  lemma TurnPark(book: Book, app: App, input: InitInput, s: Run, turn: Turn, most: nat) returns (k: Key)
    requires Obeys(app, book) && (s.stored.Some? ==> Sound(book, s.stored.value))
    requires Regular(book, app, input, s, turn, most) && ParksAgain(app, input, s, turn)
    ensures var n := Then(app, input, s, turn); Waiting(book, app, n, k) && n.stored.Some?
  {
    hide *;
    TurnWaits(book, app, input, s, turn, most);
    k := Told(app, input, s, turn).value.resume.awaits.value;
    WaitingSound(book, app, Then(app, input, s, turn), k);
  }

  lemma SomeEnd(app: App, input: InitInput, s: Run, turns: nat -> Turn) returns (n: nat)
    requires !AlwaysParks(app, input, s, turns)
    ensures !ParksAt(app, input, s, turns, n)
  {
    hide ParksAt;
    n :| !ParksAt(app, input, s, turns, n);
  }

  lemma FirstTurn(app: App, input: InitInput, s: Run, turns: nat -> Turn)
    ensures After(app, input, s, turns, 0) == s
  {
  }

  /**
   * A run parks only finitely often. From any state a run can reach, whatever crashes led there: if the job
   * comes back live and in time, no delivery dies any more, and retries and suspensions are bounded, then some
   * delivery reports something else than that the run is parked.
   */
  lemma ParksFinitelyOften(book: Book, app: App, input: InitInput, s: Run, turns: nat -> Turn, most: nat)
    requires Obeys(app, book) && (s.stored.Some? ==> Sound(book, s.stored.value))
    requires AlwaysRegular(book, app, input, s, turns, most)
    ensures exists n: nat ::
              var r := Told(app, input, After(app, input, s, turns, n), turns(n));
              r.Go? && !r.value.Parked?
  {
    hide *;
    if AlwaysParks(app, input, s, turns) {
      AtTurn(book, app, input, s, turns, most, 0);
      FirstTurn(app, input, s, turns);
      var k := TurnPark(book, app, input, s, turns(0), most);
      NoEndlessParking(book, app, input, s, turns, most, 1, Then(app, input, s, turns(0)), k);
    } else {
      var n := SomeEnd(app, input, s, turns);
      RegularEnds(book, app, input, s, turns, most, n);
    }
  }

  lemma RegularEnds(book: Book, app: App, input: InitInput, s: Run, turns: nat -> Turn, most: nat, n: nat)
    requires AlwaysRegular(book, app, input, s, turns, most) && !ParksAt(app, input, s, turns, n)
    ensures var r := Told(app, input, After(app, input, s, turns, n), turns(n));
            r.Go? && !r.value.Parked?
  {
    hide Told, After, Bounded, FaithfulEvent, ToldAlike;
    assert Regular(book, app, input, After(app, input, s, turns, n), turns(n), most);
  }
  /** The worker is not fenced off, and BullMQ has no attempts of its own left. */
  predicate Conclusive(turn: Turn) {
    !turn.world.fenced && turn.delivery.attemptsTotal <= turn.delivery.attempt
  }

  lemma {:induction false} AfterSound(book: Book, app: App, input: InitInput, s: Run, turns: nat -> Turn, n: nat)
    requires Obeys(app, book) && (s.stored.Some? ==> Sound(book, s.stored.value))
    ensures var m := After(app, input, s, turns, n);
            m.stored.Some? ==> Sound(book, m.stored.value)
  {
    hide Obeys, Sound, Next;
    if n > 0 {
      AfterSound(book, app, input, s, turns, n - 1);
      var m, turn := After(app, input, s, turns, n - 1), turns(n - 1);
      NextSound(book, app, input, m, Deliver(turn.world, turn.delivery));
      NextSound(book, app, input, Next(app, input, m, Deliver(turn.world, turn.delivery)), Wait(turn.ms));
    }
  }

  /** Such a delivery ends the run unless it parks it. */
  lemma ConclusiveEnds(book: Book, app: App, input: InitInput, s: Run, turn: Turn)
    requires Obeys(app, book) && (s.stored.Some? ==> Sound(book, s.stored.value)) && Unended(s)
    requires turn.delivery.mode.Normal? && Conclusive(turn)
    requires var r := Told(app, input, s, turn); r.Go? && !r.value.Parked?
    ensures !Unended(Then(app, input, s, turn))
  {
    hide Obeys, Sound, RunLocked, Execute, Began, Eval, RouteOf, FailsFast, ReadsExhausted, Ready;
    LockedExecutes(app, input, s, turn.world, turn.delivery);
    BeganSound(book, app, input, s, turn.world);
    ReportsAreTrue(book, turn.world, app, turn.delivery, Began(input, s, turn.world));
  }

  /** With workers that hold their lock and no attempts left at BullMQ, the run ends. */
  lemma RunsEnd(book: Book, app: App, input: InitInput, s: Run, turns: nat -> Turn, most: nat)
    requires Obeys(app, book) && (s.stored.Some? ==> Sound(book, s.stored.value))
    requires AlwaysRegular(book, app, input, s, turns, most) && forall i: nat :: Conclusive(turns(i))
    ensures exists n: nat :: !Unended(After(app, input, s, turns, n))
  {
    hide *;
    ParksFinitelyOften(book, app, input, s, turns, most);
    var n: nat :|
      var r := Told(app, input, After(app, input, s, turns, n), turns(n));
      r.Go? && !r.value.Parked?;
    var here := After(app, input, s, turns, n);
    if Unended(here) {
      AfterSound(book, app, input, s, turns, n);
      RegularMode(book, app, input, s, turns, most, n);
      ConclusiveEnds(book, app, input, here, turns(n));
      OneMore(app, input, s, turns, n);
    }
  }

  lemma RegularMode(book: Book, app: App, input: InitInput, s: Run, turns: nat -> Turn, most: nat, n: nat)
    requires AlwaysRegular(book, app, input, s, turns, most)
    ensures turns(n).delivery.mode.Normal?
  {
    hide Regular;
    RegularParts(book, app, input, After(app, input, s, turns, n), turns(n), most);
  }

  lemma OneMore(app: App, input: InitInput, s: Run, turns: nat -> Turn, n: nat)
    ensures After(app, input, s, turns, n + 1) == Then(app, input, After(app, input, s, turns, n), turns(n))
  {
    hide Then;
  }
}
