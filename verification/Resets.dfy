/** What an operator's actions reset, and that what was reset runs again. */
module Resets {
  import opened Values
  import opened Phases
  import opened Records
  import opened Processors
  import opened Steps
  import opened Ticks
  import opened Journal
  import opened StepCalls
  import opened Routes
  import opened Sagas
  import opened Failures
  import opened Runs
  import opened Guarantees
  import opened Compensating
  import opened Results

  // -- What is reset -----------------------------------------------------------------------

  /**
   * `retry` on a failed run, after any number of its writes: the first drops the failed step records, of every
   * phase, and no others; the second forgets the failure; the third puts the run back on its way.
   */
  lemma RetryResets(rec: Record, writes: nat, now: nat)
    requires rec.instance.status.Failed?
    ensures var r := Retry(rec, writes, now);
            && (forall k :: k in r.steps <==> k in rec.steps && (writes >= 1 ==> !rec.Has(k, StepFailed)))
            && (forall k :: k in r.steps ==> r.steps[k] == rec.steps[k])
            && r.terminalAt == rec.terminalAt
            && r.instance ==
               if writes < 2 then rec.instance
               else if writes == 2 then
                 rec.instance.(error := None, failedAt := None, failureError := None, failedStep := None,
                               compensation := None)
               else
                 rec.instance.(error := None, failedAt := None, failureError := None, failedStep := None,
                               compensation := None, status := Running, updatedAt := now)
  {
  }

  /**
   * `retryCompensation` on a run that gave up compensating: the first write drops the failed compensation and
   * handler records, and no others; the second forgets the outcome but not what set the failure off; the third
   * sends the run down again.
   */
  lemma RetryCompResets(rec: Record, writes: nat, now: nat)
    requires rec.instance.status.CompensationFailed?
    ensures var r := RetryComp(rec, writes, now);
            && (forall k :: k in r.steps <==>
                  k in rec.steps && (writes >= 1 ==> !((k.phase.Compensation? || k.phase.Failure?)
                                                       && rec.Has(k, StepFailed))))
            && (forall k :: k in r.steps ==> r.steps[k] == rec.steps[k])
            && r.terminalAt == rec.terminalAt
            && r.instance ==
               if writes < 2 then rec.instance
               else if writes == 2 then rec.instance.(error := None, failedAt := None, compensation := None)
               else rec.instance.(error := None, failedAt := None, compensation := None, status := Compensating,
                                  updatedAt := now)
  {
  }

  /** `cancel` ends a run that has neither completed nor been cancelled, and keeps all it has on record. */
  lemma CancelEnds(app: App, input: InitInput, s: Run, w: World, d: Delivery)
    requires s.stored.Some?
    ensures var n := Next(app, input, s, CancelByOperator);
            && n.stored.Some? && n.trace == s.trace && n.stored.value.steps == s.stored.value.steps
            && (if s.stored.value.instance.status.Completed? then n == s else n.stored.value.instance.status.Cancelled?)
            && n.stored.value.instance.error == s.stored.value.instance.error
            && Next(app, input, n, Deliver(w, d)) == n
  {
    DeliverEnded(app, input, Next(app, input, s, CancelByOperator), w, d);
  }

  // -- A step without a record starts when it is called ----------------------------------------

  lemma TakenStarts(w: World, app: App, d: Delivery, t: Tick, key: string, o: StepOptions, arg: Argument, a: Attempt)
    ensures StartedIn(t, AttemptLoop(w, app, d, t, key, o, arg, a).tick, Key(t.phase, key), a.attempts)
    ensures t.trace <= AttemptLoop(w, app, d, t, key, o, arg, a).tick.trace
  {
    hide HandleStepError, Policy, Checkpoint, RunAttempt;
    var k := Key(t.phase, key);
    LoopActs(w, app, d, t, key, o, arg, a);
    var r := RunAttempt(w, app, d, t, key, o, arg, a);
    AttemptStarts(w, app, d, t, key, o, arg, a);
    if r.Go? && r.value.None? {
      AttemptActs(w, app, d, t, key, o, arg, a);
      LoopActs(w, app, d, r.tick, key, o, arg, a.(attempts := a.attempts + 1));
      StartedMore(t, r.tick, AttemptLoop(w, app, d, t, key, o, arg, a).tick, k, a.attempts);
    }
  }

  lemma AttemptStarts(w: World, app: App, d: Delivery, t: Tick, key: string, o: StepOptions, arg: Argument, a: Attempt)
    ensures StartedIn(t, RunAttempt(w, app, d, t, key, o, arg, a).tick, Key(t.phase, key), a.attempts)
  {
    hide HandleStepError, Policy, RunningStep;
    var k := Key(t.phase, key);
    var r := RunAttempt(w, app, d, t, key, o, arg, a);
    var start := Started(k, a.attempts, t.now, arg);
    var p1 := Pass(w, t.(trace := t.trace + [start]));
    var b := Thrown(d, w.body(k, a.attempts));
    if p1.Go? && (b.Fails? || b.RetryLater?) {
      ErrorActs(w, app, d, p1.tick, key, o, a, b);
      assert r.tick.trace[..|t.trace| + 1] == t.trace + [start];
      assert r.tick.trace[|t.trace|] == (t.trace + [start])[|t.trace|];
    }
    assert r.tick.trace[|t.trace|] == start;
  }

  lemma StepStarts(w: World, app: App, d: Delivery, t: Tick, key: string, o: StepOptions, arg: Argument)
    requires Key(t.phase, key) !in t.rec.steps && !t.rec.instance.status.Cancelled? && !SettlementReplay(d, t)
    ensures var c := ExecuteStep(w, app, d, t, key, o, arg);
            c.Go? || !c.signal.Crash? ==> StartedIn(t, c.tick, Key(t.phase, key), 1)
  {
    hide AttemptLoop;
    var begin := BeginOrReplay(w, d, t, key, o);
    if begin.Go? {
      TakenStarts(w, app, d, begin.tick, key, o, arg, begin.value.attempt);
    }
  }

  /** A call the processor makes of a step that has no record starts the step's body. */
  lemma {:induction false} EvalStarts(book: Book, w: World, app: App, d: Delivery, t: Tick, p: Processor,
                                      seen: seq<Seen>, made: seq<Seen>, key: string)
    requires Sound(book, t.rec) && t.phase != Compensation && ProcessorObeys(p, t.phase, book)
    requires !t.rec.instance.status.Cancelled? && !SettlementReplay(d, t)
    requires seen <= made <= LiveSeen(w, app, d, t, p, seen) && p.At(made).Call? && p.At(made).key == key
    requires Key(t.phase, key) !in t.rec.steps
    requires var r := Eval(w, app, d, t, p, seen); r.Go? || !r.signal.Crash?
    ensures StartedIn(t, Eval(w, app, d, t, p, seen).tick, Key(t.phase, key), 1)
    decreases p.Left(seen)
  {
    hide ExecuteStep, SleepFor, Follows, Sound, StepEnds, SleepEnds, StartedIn, ProcessorObeys;
    var k, u := Key(t.phase, key), Eval(w, app, d, t, p, seen).tick;
    Ended(seen, made, LiveSeen(w, app, d, t, p, seen));
    CallUsed(p, t.phase, book, made);
    CallUsed(p, t.phase, book, seen);
    match p.At(seen)
    case Return(_) =>
    case Throw(_, _, _) =>
    case Pause(other, delay) =>
      SleepSpans(book, w, d, t, other, delay);
      SleepActs(w, d, t, other, delay);
      var c := SleepFor(w, d, t, other, delay);
      SpansSound(book, t, c.tick);
      if c.Go? {
        LiveSeenGrows(w, app, d, c.tick, p, seen + [Slept]);
        Onward(seen, made, LiveSeen(w, app, d, c.tick, p, seen + [Slept]), Slept);
        EvalStarts(book, w, app, d, c.tick, p, seen + [Slept], made, key);
        EvalActs(w, app, d, c.tick, p, seen + [Slept]);
        StartedMore(t, c.tick, u, k, 1);
      }
    case Call(other, o, recovery) =>
      StepSpans(book, w, app, d, t, other, o, Nothing);
      StepActs(w, app, d, t, other, o, Nothing);
      var c := ExecuteStep(w, app, d, t, other, o, Nothing);
      SpansSound(book, t, c.tick);
      if other == key {
        StepStarts(w, app, d, t, other, o, Nothing);
      }
      if GoesOn(recovery, c) {
        var next := seen + [SeenOf(recovery, c)];
        EvalActs(w, app, d, c.tick, p, next);
        if other != key {
          LiveSeenGrows(w, app, d, c.tick, p, next);
          Onward(seen, made, LiveSeen(w, app, d, c.tick, p, next), SeenOf(recovery, c));
          EvalStarts(book, w, app, d, c.tick, p, next, made, key);
        }
        StartedMore(t, c.tick, u, k, 1);
      }
  }

  lemma CallUsed(p: Processor, phase: Phase, book: Book, seen: seq<Seen>)
    requires ProcessorObeys(p, phase, book)
    ensures MoveObeys(p.At(seen), phase, book)
  {
  }

  lemma Ended(seen: seq<Seen>, made: seq<Seen>, all: seq<Seen>)
    requires seen <= made <= all
    ensures all == seen ==> made == seen
  {
  }

  /** A history that goes beyond `seen` goes on with what was handed next. */
  lemma Onward(seen: seq<Seen>, made: seq<Seen>, all: seq<Seen>, x: Seen)
    requires seen <= made <= all && (seen + [x] <= all)
    ensures made == seen || seen + [x] <= made
  {
    if |made| > |seen| {
      assert made[|seen|] == all[|seen|] == (seen + [x])[|seen|];
      assert made[..|seen|] == seen;
    }
  }

  // -- After `retry` -----------------------------------------------------------------------

  /** A delivery that starts from `s`, until it knows what the processor does. */
  function SeenLive(app: App, input: InitInput, s: Run, w: World, d: Delivery): seq<Seen> {
    LiveSeen(w, app, d, Began(input, s, w), app.main, [])
  }

  /** Whenever such a delivery calls a step without a record, it starts the body. */
  lemma DeliveryStarts(book: Book, app: App, input: InitInput, s: Run, w: World, d: Delivery, made: seq<Seen>,
                       key: string)
    requires Obeys(app, book) && s.stored.Some? && Sound(book, s.stored.value) && Unended(s) && d.mode.Normal?
    requires RunLocked(w, app, d, s.stored, input, s.now, s.trace).Go?
    requires made <= SeenLive(app, input, s, w, d) && app.main.At(made).Call? && app.main.At(made).key == key
    requires Key(Main, key) !in s.stored.value.steps
    ensures StartedAt(s.trace, Next(app, input, s, Deliver(w, d)).trace, Key(Main, key), 1)
  {
    hide Obeys, Sound, Execute, RunLocked, LiveSeen;
    var t := Began(input, s, w);
    DeliverTick(app, input, s, w, d);
    BeganSound(book, app, input, s, w);
    ObeysMain(app, book);
    LockedTick(app, input, s, w, d);
    ExecuteStarts(book, w, app, d, t, made, key);
  }

  lemma LockedTick(app: App, input: InitInput, s: Run, w: World, d: Delivery)
    requires Unended(s) && RunLocked(w, app, d, s.stored, input, s.now, s.trace).Go?
    ensures RunLocked(w, app, d, s.stored, input, s.now, s.trace) == Execute(w, app, d, Began(input, s, w))
    ensures Began(input, s, w).phase == Main && !Began(input, s, w).rec.instance.status.Cancelled?
  {
    hide Execute;
  }

  lemma ExecuteStarts(book: Book, w: World, app: App, d: Delivery, t: Tick, made: seq<Seen>, key: string)
    requires Sound(book, t.rec) && Obeys(app, book) && Ready(t) && d.mode.Normal? && Execute(w, app, d, t).Go?
    requires made <= LiveSeen(w, app, d, t, app.main, []) && app.main.At(made).Call? && app.main.At(made).key == key
    requires Key(Main, key) !in t.rec.steps
    ensures StartedIn(t, Execute(w, app, d, t).tick, Key(Main, key), 1)
  {
    hide Eval, Sound, Obeys, Conclude, StartedIn, LiveSeen, Honours;
    var run := Eval(w, app, d, t, app.main, []);
    ObeysMain(app, book);
    CrashStops(w, app, d, t);
    EvalStarts(book, w, app, d, t, app.main, [], made, key);
    EvalActs(w, app, d, t, app.main, []);
    RanHere(book, w, app, d, t);
    ConcludeHonours(book, w, app, d, t.rec.instance.status.Compensating?, run);
    HonouredTrace(w, d, run.tick, Execute(w, app, d, t).tick);
    StartedMore(t, run.tick, Execute(w, app, d, t).tick, Key(Main, key), 1);
  }

  lemma HonouredTrace(w: World, d: Delivery, a: Tick, b: Tick)
    requires Honours(w, d, a, b)
    ensures a.trace <= b.trace
  {
  }

  lemma CrashStops(w: World, app: App, d: Delivery, t: Tick)
    ensures var run := Eval(w, app, d, t, app.main, []);
            Execute(w, app, d, t).Go? ==> run.Go? || !run.signal.Crash?
  {
    hide Eval, FailureSequence, Classify, SettleTrigger;
  }

  /**
   * After `retry`, a live delivery that is not cut short starts the body of a step that had failed, from its
   * first attempt, as soon as the processor calls it.
   */
  lemma RetryStartsAgain(book: Book, app: App, input: InitInput, s: Run, w: World, d: Delivery, made: seq<Seen>,
                         key: string)
    requires Obeys(app, book) && s.stored.Some? && Sound(book, s.stored.value) && d.mode.Normal?
    requires s.stored.value.instance.status.Failed? && s.stored.value.Has(Key(Main, key), StepFailed)
    requires var r := Next(app, input, s, RetryRun(3));
             && RunLocked(w, app, d, r.stored, input, r.now, r.trace).Go?
             && made <= SeenLive(app, input, r, w, d) && app.main.At(made).Call? && app.main.At(made).key == key
    ensures var r := Next(app, input, s, RetryRun(3));
            StartedAt(r.trace, Next(app, input, r, Deliver(w, d)).trace, Key(Main, key), 1)
  {
    hide Obeys, Sound, RunLocked, SeenLive, StartedAt;
    NextSound(book, app, input, s, RetryRun(3));
    DeliveryStarts(book, app, input, Next(app, input, s, RetryRun(3)), w, d, made, key);
  }

  /** What the store alone would hand the processor, a live delivery hands it. */
  lemma {:induction false} ReplayFirst(book: Book, w: World, app: App, d: Delivery, t: Tick, p: Processor,
                                       seen: seq<Seen>)
    requires Sound(book, t.rec) && t.phase != Compensation && ProcessorObeys(p, t.phase, book)
    requires !t.rec.instance.status.Cancelled? && d.mode.Normal?
    ensures RouteSeen(p, t.phase, t.rec.steps, seen) <= LiveSeen(w, app, d, t, p, seen)
    decreases p.Left(seen)
  {
    hide ExecuteStep, Follows, Sound, StepEnds, SleepEnds, ProcessorObeys;
    CallUsed(p, t.phase, book, seen);
    match p.At(seen)
    case Return(_) =>
    case Throw(_, _, _) =>
    case Pause(key, delay) =>
      var k := Key(t.phase, key);
      if k in t.rec.steps && t.rec.steps[k].status.StepCompleted? {
        assert SleepFor(w, d, t, key, delay) == Go(t, ());
        ReplayFirst(book, w, app, d, t, p, seen + [Slept]);
      } else {
        LiveSeenGrows(w, app, d, t, p, seen);
      }
    case Call(key, o, recovery) =>
      var k := Key(t.phase, key);
      if k in t.rec.steps && (t.rec.steps[k].status.StepCompleted?
                              || (t.rec.steps[k].status.StepFailed? && !recovery.Uncaught?)) {
        QuietCall(w, app, d, t, key, o);
        var c := ExecuteStep(w, app, d, t, key, o, Nothing);
        ReplayFirst(book, w, app, d, c.tick, p, seen + [SeenOf(recovery, c)]);
      } else {
        LiveSeenGrows(w, app, d, t, p, seen);
      }
  }

  /** Without its failed records, a route that met one stops at the first it met. */
  lemma {:induction false} StopsAtFailed(p: Processor, a: map<Key, Step>, b: map<Key, Step>, seen: seq<Seen>)
    requires forall k :: k in b <==> k in a && !a[k].status.StepFailed?
    requires forall k :: k in b ==> b[k] == a[k]
    requires RouteOf(p, a, seen).failedStep.Some?
    ensures var m := p.At(RouteSeen(p, Main, b, seen));
            m.Call? && Key(Main, m.key) in a && a[Key(Main, m.key)].status.StepFailed?
    decreases p.Left(seen)
  {
    match p.At(seen)
    case Return(_) =>
    case Throw(_, _, _) =>
    case Pause(key, _) =>
      StopsAtFailed(p, a, b, seen + [Slept]);
    case Call(key, _, recovery) =>
      var k := Key(Main, key);
      if a[k].status.StepCompleted? {
        StopsAtFailed(p, a, b, seen + [Got(Clone(a[k].result))]);
      }
  }

  /**
   * And it does call one: if replaying the failed run met a failed step, then the first live delivery after
   * `retry` that is not cut short starts the body of such a step again.
   */
  lemma RetryRunsAgain(book: Book, app: App, input: InitInput, s: Run, w: World, d: Delivery)
    requires Obeys(app, book) && s.stored.Some? && Sound(book, s.stored.value) && d.mode.Normal?
    requires s.stored.value.instance.status.Failed? && RouteIn(app, s.stored.value).failedStep.Some?
    requires var r := Next(app, input, s, RetryRun(3));
             RunLocked(w, app, d, r.stored, input, r.now, r.trace).Go?
    ensures var r := Next(app, input, s, RetryRun(3));
            exists key :: s.stored.value.Has(Key(Main, key), StepFailed)
                          && StartedAt(r.trace, Next(app, input, r, Deliver(w, d)).trace, Key(Main, key), 1)
  {
    hide Obeys, Sound, RunLocked, RouteOf, LiveSeen, StartedAt, RouteSeen, ProcessorObeys;
    var r := Next(app, input, s, RetryRun(3));
    NextSound(book, app, input, s, RetryRun(3));
    RetryResets(s.stored.value, 3, s.now);
    StopsAtFailed(app.main, s.stored.value.steps, r.stored.value.steps, []);
    var made := RouteSeen(app.main, Main, r.stored.value.steps, []);
    BeganSound(book, app, input, r, w);
    LockedTick(app, input, r, w, d);
    ObeysMain(app, book);
    ReplayFirst(book, w, app, d, Began(input, r, w), app.main, []);
    RetryStartsAgain(book, app, input, s, w, d, made, app.main.At(made).key);
  }

  // -- After `retryCompensation` -----------------------------------------------------------

  /** Compensations run in order: one without a record starts once those before it have settled. */
  lemma {:induction false} RollbacksStart(book: Book, w: World, app: App, d: Delivery, t: Tick, rs: seq<Rollback>,
                                          error: Err, report: Report, i: nat)
    requires Sound(book, t.rec) && t.phase == Compensation && !t.rec.instance.status.Cancelled?
    requires i < |rs| && CompKey(rs[i]) !in t.rec.steps
    requires var r := RunRollbacks(w, app, d, t, rs, error, report);
             && (r.Go? || !(r.signal.Crash? || r.signal.CancelledRun?))
             && forall j :: 0 <= j < i ==> Settled(r.tick.rec, CompKey(rs[j]))
    ensures StartedIn(t, RunRollbacks(w, app, d, t, rs, error, report).tick, CompKey(rs[i]), 1)
    decreases |rs|
  {
    hide ExecuteStep, Follows, Sound, StartedIn;
    var r := RunRollbacks(w, app, d, t, rs, error, report);
    var first := rs[0];
    var o, arg := RollbackOptions(app, first), Undo(first.output, error);
    StepSpans(book, w, app, d, t, first.key, o, arg);
    StepActs(w, app, d, t, first.key, o, arg);
    var c := ExecuteStep(w, app, d, t, first.key, o, arg);
    SpansSound(book, t, c.tick);
    if i > 0 {
      assert Settled(r.tick.rec, CompKey(first));
    }
    if first.key == rs[i].key {
      StepStarts(w, app, d, t, first.key, o, arg);
    }
    if c.Go? || c.signal.Raised? {
      var next := if c.Go? then report.(rolledBack := report.rolledBack + [first.key])
                  else report.(failed := report.failed + [(first.key, c.signal.err)]);
      RollbackActs(w, app, d, c.tick, rs[1..], error, next);
      if first.key != rs[i].key {
        assert rs[1..][i - 1] == rs[i];
        assert forall j :: 0 <= j < i - 1 ==> rs[1..][j] == rs[j + 1];
        RollbacksStart(book, w, app, d, c.tick, rs[1..], error, next, i - 1);
      }
      StartedMore(t, c.tick, r.tick, CompKey(rs[i]), 1);
    }
  }

  lemma AllAccounted(rec: Record, rs: seq<Rollback>, report: Report)
    requires Accounts(rec, rs, NO_REPORT, report)
    ensures forall j :: 0 <= j < |rs| ==> Settled(rec, CompKey(rs[j]))
  {
    forall j | 0 <= j < |rs| ensures Settled(rec, CompKey(rs[j])) {
      assert Undone(rec, rs[j]) || GaveUp(rec, rs[j]);
    }
  }

  lemma UnwindSame(w: World, t: Tick, signal: Signal)
    ensures var r := Unwind(w, t, signal);
            && r.tick.rec.steps == t.rec.steps && r.tick.trace == t.trace
            && (r.Go? && !r.value.RunCancelled? ==> signal.Yield?)
  {
  }

  lemma SettleSame(w: World, t: Tick, error: Err, report: Report)
    ensures SettleTerminal(w, t, error, report).tick.trace == t.trace
  {
    hide Merge;
  }

  /** The same in a failure sequence that is taken up again. */
  lemma SequenceUndoes(book: Book, w: World, app: App, d: Delivery, t: Tick, error: Err, i: nat)
    requires Sound(book, t.rec) && Obeys(app, book) && t.rec.instance.status.Compensating?
    requires var rs := LatestFirst(t.rollbacks);
             var r := FailureSequence(w, app, d, t, error);
             && i < |rs| && CompKey(rs[i]) !in t.rec.steps && r.Go? && !r.value.RunCancelled?
             && forall j :: 0 <= j < i ==> Settled(r.tick.rec, CompKey(rs[j]))
    ensures StartedIn(t, FailureSequence(w, app, d, t, error).tick, CompKey(LatestFirst(t.rollbacks)[i]), 1)
  {
    hide RunRollbacks, HandleFailure, Obeys, Sound, Moves, Merge, CompletedMainSteps, SettleTerminal, Accounts, Handed,
         Told, Keeps, Unwind, LatestFirst, StartedIn;
    var rs, r := LatestFirst(t.rollbacks), FailureSequence(w, app, d, t, error);
    var trigger := TriggerOf(t.rec.instance, error);
    SameMembers(t.rollbacks);
    var t1 := t.(phase := Compensation);
    var undone := RunRollbacks(w, app, d, t1, rs, trigger, NO_REPORT);
    assert undone == Compensate(w, app, d, t, trigger);
    CompensateMoves(book, w, app, d, t, trigger);
    if undone.Stop? {
      UnwindSame(w, undone.tick, undone.signal);
    } else {
      AllAccounted(undone.tick.rec, rs, undone.value);
      MovesSound(book, t, undone.tick);
      var info := FailureInfo(trigger, FailedStepOf(t), CompletedMainSteps(undone.tick.rec), undone.value);
      var handled := HandleFailure(w, app, d, undone.tick, info);
      HandleMoves(book, w, app, d, undone.tick, info);
      if handled.Stop? {
        UnwindSame(w, handled.tick, handled.signal);
      } else {
        SettleSame(w, handled.tick, trigger, undone.value);
      }
    }
    RollbacksStart(book, w, app, d, t1, rs, trigger, NO_REPORT, i);
    SameFrom(t, t1, undone.tick, r.tick, CompKey(rs[i]));
  }

  lemma SameFrom(t: Tick, t1: Tick, u: Tick, v: Tick, k: Key)
    requires t1.trace == t.trace && StartedIn(t1, u, k, 1) && t.trace <= u.trace <= v.trace
    ensures StartedIn(t, v, k, 1)
  {
    StartedMore(t1, u, v, k, 1);
  }

  /** What the replay of a run on its way down hands to its failure sequence. */
  function Replayed(app: App, input: InitInput, s: Run, w: World): Tick {
    var t := Began(input, s, w);
    t.(rollbacks := RouteIn(app, t.rec).rollbacks, failedStep := RouteIn(app, t.rec).failedStep)
  }

  lemma SequenceAgain(book: Book, app: App, input: InitInput, s: Run, w: World, d: Delivery) returns (error: Err)
    requires Obeys(app, book) && s.stored.Some? && Sound(book, s.stored.value)
    requires s.stored.value.instance.status.Compensating? && !RouteIn(app, s.stored.value).end.Pending?
    requires RunLocked(w, app, d, s.stored, input, s.now, s.trace).Go?
    ensures var t := Replayed(app, input, s, w);
            && RunLocked(w, app, d, s.stored, input, s.now, s.trace) == FailureSequence(w, app, d, t, error)
            && Sound(book, t.rec) && t.rec.instance.status.Compensating? && t.rec.steps == s.stored.value.steps
            && t.trace == s.trace && t.phase == Main && t.rollbacks == RouteIn(app, s.stored.value).rollbacks
            && t.rec.instance.failureError == s.stored.value.instance.failureError
            && t.rec.instance.failedStep == s.stored.value.instance.failedStep
    ensures Next(app, input, s, Deliver(w, d))
            == var r := RunLocked(w, app, d, s.stored, input, s.now, s.trace);
               Run(Some(r.tick.rec), r.tick.now, r.tick.trace)
  {
    hide Obeys, Sound, Eval, RouteOf, FailureSequence, Classify, SettleTrigger;
    BeganSound(book, app, input, s, w);
    LockedTick(app, input, s, w, d);
    var t := Began(input, s, w);
    assert RouteIn(app, t.rec) == RouteIn(app, s.stored.value);
    ReplayOnly(book, w, app, d, t);
    var run := Eval(w, app, d, t, app.main, []);
    error := if run.Stop? && run.signal.Raised? then SettleTrigger(d, Some(run.signal.err)) else SettleTrigger(d, None);
  }

  /**
   * After `retryCompensation` of a run whose forward replay is over, a delivery that is not cut short starts a
   * compensation that had failed, from its first attempt, once those that come before it have settled.
   */
  lemma RetryCompensationStartsAgain(book: Book, app: App, input: InitInput, s: Run, w: World, d: Delivery, i: nat)
    requires Obeys(app, book) && s.stored.Some? && Sound(book, s.stored.value)
    requires s.stored.value.instance.status.CompensationFailed? && !RouteIn(app, s.stored.value).end.Pending?
    requires var rs := LatestFirst(RouteIn(app, s.stored.value).rollbacks);
             i < |rs| && s.stored.value.Has(CompKey(rs[i]), StepFailed)
    requires var rs := LatestFirst(RouteIn(app, s.stored.value).rollbacks);
             var r := Next(app, input, s, RetryCompensation(3));
             var told := RunLocked(w, app, d, r.stored, input, r.now, r.trace);
             && told.Go? && !told.value.RunCancelled?
             && forall j :: 0 <= j < i ==> Settled(told.tick.rec, CompKey(rs[j]))
    ensures var rs := LatestFirst(RouteIn(app, s.stored.value).rollbacks);
            var r := Next(app, input, s, RetryCompensation(3));
            StartedAt(r.trace, Next(app, input, r, Deliver(w, d)).trace, CompKey(rs[i]), 1)
  {
    hide Obeys, Sound, RouteOf, FailureSequence, LatestFirst, RunLocked;
    var rec, r := s.stored.value, Next(app, input, s, RetryCompensation(3));
    NextSound(book, app, input, s, RetryCompensation(3));
    RetryCompResets(rec, 3, s.now);
    RouteOfMain(app.main, rec, r.stored.value, []);
    var error := SequenceAgain(book, app, input, r, w, d);
    SequenceUndoes(book, w, app, d, Replayed(app, input, r, w), error, i);
  }

  /** When the handler calls a step without a record, it starts the body. */
  lemma HandlerStarts(book: Book, w: World, app: App, d: Delivery, t: Tick, info: FailureInfo, made: seq<Seen>,
                      key: string)
    requires Sound(book, t.rec) && Obeys(app, book) && app.onFailure.Some? && !t.rec.instance.status.Cancelled?
    requires var told := t.(phase := Failure, trace := t.trace + [Handled(info)]);
             var handler := app.onFailure.value(info);
             made <= LiveSeen(w, app, d, told, handler, []) && handler.At(made).Call? && handler.At(made).key == key
    requires Key(Failure, key) !in t.rec.steps
    requires var r := HandleFailure(w, app, d, t, info); r.Go? || !r.signal.Crash?
    ensures StartedIn(t, HandleFailure(w, app, d, t, info).tick, Key(Failure, key), 1)
  {
    hide Eval, Sound, ProcessorObeys, LiveSeen, StartedIn;
    var told := t.(phase := Failure, trace := t.trace + [Handled(info)]);
    var handler := app.onFailure.value(info);
    EvalStarts(book, w, app, d, told, handler, [], made, key);
    EvalActs(w, app, d, told, handler, []);
    StartedMore(t, told, HandleFailure(w, app, d, t, info).tick, Key(Failure, key), 1);
  }

  /** The state in which a delivery of a run on its way down turns to the handler, and what it tells it. */
  function Compensated(app: App, input: InitInput, s: Run, w: World, d: Delivery): Eff<Report>
    requires s.stored.Some? && s.stored.value.instance.failureError.Some?
  {
    Compensate(w, app, d, Replayed(app, input, s, w), s.stored.value.instance.failureError.value)
  }

  function InfoAfter(app: App, input: InitInput, s: Run, w: World, d: Delivery): FailureInfo
    requires s.stored.Some? && s.stored.value.instance.failureError.Some? && Compensated(app, input, s, w, d).Go?
  {
    var undone := Compensated(app, input, s, w, d);
    FailureInfo(s.stored.value.instance.failureError.value, FailedStepOf(Replayed(app, input, s, w)),
                CompletedMainSteps(undone.tick.rec), undone.value)
  }

  /**
   * And it starts a handler step that had failed, from its first attempt, as soon as the handler calls it.
   */
  lemma RetryCompensationTellsAgain(book: Book, app: App, input: InitInput, s: Run, w: World, d: Delivery,
                                    made: seq<Seen>, key: string)
    requires Obeys(app, book) && s.stored.Some? && Sound(book, s.stored.value) && app.onFailure.Some?
    requires s.stored.value.instance.status.CompensationFailed? && !RouteIn(app, s.stored.value).end.Pending?
    requires s.stored.value.instance.failureError.Some? && s.stored.value.Has(Key(Failure, key), StepFailed)
    requires var r := Next(app, input, s, RetryCompensation(3));
             && RunLocked(w, app, d, r.stored, input, r.now, r.trace).Go?
             && r.stored.Some? && r.stored.value.instance.failureError.Some? && Compensated(app, input, r, w, d).Go?
             && var info, t := InfoAfter(app, input, r, w, d), Compensated(app, input, r, w, d).tick;
                var handler := app.onFailure.value(info);
                && made <= LiveSeen(w, app, d, t.(phase := Failure, trace := t.trace + [Handled(info)]), handler, [])
                && handler.At(made).Call? && handler.At(made).key == key
    ensures var r := Next(app, input, s, RetryCompensation(3));
            StartedAt(r.trace, Next(app, input, r, Deliver(w, d)).trace, Key(Failure, key), 1)
  {
    hide Obeys, Sound, RouteOf, LatestFirst, RunLocked, Compensate, HandleFailure, LiveSeen, Moves,
         CompletedMainSteps, SettleTerminal, Unwind, Accounts, Added, Told, Replayed;
    var rec, r := s.stored.value, Next(app, input, s, RetryCompensation(3));
    NextSound(book, app, input, s, RetryCompensation(3));
    RetryCompResets(rec, 3, s.now);
    RouteOfMain(app.main, rec, r.stored.value, []);
    var error := SequenceAgain(book, app, input, r, w, d);
    var t := Replayed(app, input, r, w);
    SequenceTellsAgain(book, w, app, d, t, error, made, key);
  }

  lemma SequenceTellsAgain(book: Book, w: World, app: App, d: Delivery, t: Tick, error: Err, made: seq<Seen>,
                           key: string)
    requires Sound(book, t.rec) && Obeys(app, book) && t.rec.instance.status.Compensating? && app.onFailure.Some?
    requires Key(Failure, key) !in t.rec.steps && FailureSequence(w, app, d, t, error).Go?
    requires var trigger := TriggerOf(t.rec.instance, error);
             var undone := Compensate(w, app, d, t, trigger);
             && undone.Go?
             && var u := undone.tick;
                var info := FailureInfo(trigger, FailedStepOf(t), CompletedMainSteps(u.rec), undone.value);
                var handler := app.onFailure.value(info);
                && made <= LiveSeen(w, app, d, u.(phase := Failure, trace := u.trace + [Handled(info)]), handler, [])
                && handler.At(made).Call? && handler.At(made).key == key
    ensures StartedIn(t, FailureSequence(w, app, d, t, error).tick, Key(Failure, key), 1)
  {
    hide Obeys, Sound, LatestFirst, Compensate, HandleFailure, LiveSeen, Moves, StartedIn, CompletedMainSteps,
         SettleTerminal,
         Unwind, Accounts, Told, Handed;
    var r := FailureSequence(w, app, d, t, error);
    var trigger := TriggerOf(t.rec.instance, error);
    var undone := Compensate(w, app, d, t, trigger);
    CompensateMoves(book, w, app, d, t, trigger);
    CompensateTouchesOwn(book, w, app, d, t, trigger);
    MovesSound(book, t, undone.tick);
    var info := FailureInfo(trigger, FailedStepOf(t), CompletedMainSteps(undone.tick.rec), undone.value);
    var handled := HandleFailure(w, app, d, undone.tick, info);
    HandleMoves(book, w, app, d, undone.tick, info);
    if handled.Stop? {
      UnwindSame(w, handled.tick, handled.signal);
      CrashUnwinds(w, handled.tick, handled.signal);
    } else {
      SettleSame(w, handled.tick, trigger, undone.value);
    }
    HandlerStarts(book, w, app, d, undone.tick, info, made, key);
    StartedMore(t, undone.tick, handled.tick, Key(Failure, key), 1);
    StartedMore(t, handled.tick, r.tick, Key(Failure, key), 1);
  }

  lemma CrashUnwinds(w: World, t: Tick, signal: Signal)
    ensures Unwind(w, t, signal).Go? ==> !signal.Crash?
  {
  }

  lemma CompensateTouchesOwn(book: Book, w: World, app: App, d: Delivery, t: Tick, error: Err)
    requires Sound(book, t.rec)
    ensures var u := Compensate(w, app, d, t, error).tick;
            forall k: Key :: k.phase == Failure && k in u.rec.steps ==> k in t.rec.steps
  {
    hide RunRollbacks, Sound, LatestFirst, Accounts, Follows;
    if t.rollbacks != [] {
      RollbacksAccount(book, w, app, d, t.(phase := Compensation), LatestFirst(t.rollbacks), error, NO_REPORT);
    }
  }
}
