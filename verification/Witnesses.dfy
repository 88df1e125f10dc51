/** Concrete runs: the inputs on the far side of the exact conditions. */
module Witnesses {
  import opened Values
  import opened Phases
  import opened Retries
  import opened Records
  import opened Processors
  import opened Steps
  import opened Ticks
  import opened Routes
  import opened Runs
  import opened Outcomes

  const INPUT := InitInput("i", "q", "j", "1", Null)
  const LIVE := Delivery(Normal, 1, 1, false, None)

  // -- A poll that runs out of attempts ------------------------------------------------------

  const POLL := "poll"
  const CHARGE := "charge"
  const ONCE := StepOptions(Some(RetryOptions(Some(1.0), None, None, None)), None)
  const UNDOABLE := StepOptions(None, Some(OnRollback(None)))
  const NOT_YET := Err("RetryLaterError", "not yet")
  const GAVE_UP := Err("Error", "gave up")

  /** The poll asks to be called again, whatever attempt it is on; the process dies after operation `crashAt`. */
  function Polling(crashAt: nat): World {
    World((k: Key, _) => if k.name == POLL then RetryLater(None, "not yet") else Succeeds(Null),
          _ => 0, _ => 0.0, crashAt, false)
  }

  /** Poll, and return the name of the error. */
  function NamePlan(seen: seq<Seen>): Move {
    if |seen| == 0 then Call(POLL, ONCE, Reads)
    else if seen[0].Caught? && seen[0].err.Some? then Return(Str(seen[0].err.value.name))
    else Return(Null)
  }

  const NAMING := App(Processor(NamePlan, 1), None, None, None)

  /** Poll; if that used up all attempts charge, otherwise give up. */
  function ChargePlan(seen: seq<Seen>): Move {
    if |seen| == 0 then Call(POLL, ONCE, Reads)
    else if |seen| > 1 then Return(Null)
    else if seen[0].Caught? && seen[0].err.Some? && seen[0].err.value.name == "DurableRetriesExhaustedError"
    then Call(CHARGE, UNDOABLE, Uncaught)
    else Throw(GAVE_UP, true, false)
  }

  const CHARGING := App(Processor(ChargePlan, 2), None, None, None)

  const POLLED := Step(Work, 1, StepFailed, Undefined, Some(NOT_YET), 1, 0, None, Some(0), None)
  const CHARGED := Step(Work, 2, StepCompleted, Null, None, 1, 0, Some(0), None, None)
  const AFTER_POLL := map[Key(Main, POLL) := POLLED]
  const AFTER_CHARGE := map[Key(Main, POLL) := POLLED, Key(Main, CHARGE) := CHARGED]

  function Handed(): Seen {
    Caught(Some(Exhausted(POLL, 1)))
  }

  function Replayed(): Seen {
    Caught(Some(NOT_YET))
  }

  /** One attempt is all the poll gets: live it raises one error and stores another. */
  lemma PollOnce(crashAt: nat, app: App, t: Tick)
    requires t.phase == Main && t.rec.steps == map[] && t.rec.instance.status.Running? && t.rec.Counter() == 0
    requires t.ops == 1 && t.now == 0 && crashAt > 3 && app.defaultRetry.None?
    ensures var r := ExecuteStep(Polling(crashAt), app, LIVE, t, POLL, ONCE, Nothing);
            && r.Stop? && r.signal == Raised(Exhausted(POLL, 1), true, false)
            && r.tick.rec.steps == AFTER_POLL && r.tick.ops == 4 && r.tick.now == 0 && r.tick.phase == Main
            && r.tick.rec.Counter() == 1 && r.tick.rec.instance.status.Running? && r.tick.rollbacks == t.rollbacks
  {
    hide Exhausted;
    OnceIsOne(app);
  }

  lemma OnceIsOne(app: App)
    requires app.defaultRetry.None?
    ensures Policy(app, ONCE).attempts == 1 && Limit(app, LIVE, ONCE, true) == Some(1)
  {
  }

  lemma NamingMoves()
    ensures NAMING.main.At([]) == Call(POLL, ONCE, Reads)
    ensures NAMING.main.At([Handed()]) == Return(Str("DurableRetriesExhaustedError"))
    ensures NAMING.main.At([Replayed()]) == Return(Str("RetryLaterError"))
    ensures [] + [Handed()] == [Handed()] && [] + [Replayed()] == [Replayed()]
  {
  }

  lemma NamesLive(t: Tick)
    requires t.phase == Main && t.rec.steps == map[] && t.rec.instance.status.Running? && t.rec.Counter() == 0
    requires t.ops == 1 && t.now == 0
    ensures var r := Eval(Polling(100), NAMING, LIVE, t, NAMING.main, []);
            && r.Go? && r.value == Str("DurableRetriesExhaustedError")
            && r.tick.rec.steps == AFTER_POLL && r.tick.ops == 4 && r.tick.rec.instance.status.Running?
  {
    hide ExecuteStep, Processor.At;
    NamingMoves();
    PollOnce(100, NAMING, t);
    var c := ExecuteStep(Polling(100), NAMING, LIVE, t, POLL, ONCE, Nothing);
    assert SeenOf(Reads, c) == Handed();
    assert Eval(Polling(100), NAMING, LIVE, c.tick, NAMING.main, [Handed()])
           == Go(c.tick, Str("DurableRetriesExhaustedError"));
  }

  lemma NamesReplayed()
    ensures RouteOf(NAMING.main, AFTER_POLL, []).end == Finished(Str("RetryLaterError"))
  {
    hide Processor.At;
    NamingMoves();
    assert Retold(Reads, POLLED, POLL) == Replayed();
    assert RouteOf(NAMING.main, AFTER_POLL, [Replayed()]).end == Finished(Str("RetryLaterError"));
  }

  /** A completed run whose output its own checkpoints do not give. */
  lemma OutputNotReplayed()
    ensures var n := RunAll(NAMING, INPUT, FRESH, [Deliver(Polling(100), LIVE)]);
            && n.stored.Some? && n.stored.value.instance.status.Completed?
            && n.stored.value.instance.output == Str("DurableRetriesExhaustedError")
            && RouteIn(NAMING, n.stored.value).end == Finished(Str("RetryLaterError"))
  {
    hide FailureSequence, Classify, Merge, Eval, RouteOf;
    var begun := Save(Polling(100), Opening(BeginTick(None, INPUT, 0), 0, []), BeginTick(None, INPUT, 0));
    NamesLive(begun.tick);
    NamesReplayed();
    var n := Next(NAMING, INPUT, FRESH, Deliver(Polling(100), LIVE));
    assert n.stored.value.steps == AFTER_POLL;
    assert RunAll(NAMING, INPUT, n, []) == n;
  }

  lemma ChargingMoves()
    ensures CHARGING.main.At([]) == Call(POLL, ONCE, Reads)
    ensures CHARGING.main.At([Handed()]) == Call(CHARGE, UNDOABLE, Uncaught)
    ensures CHARGING.main.At([Replayed()]) == Throw(GAVE_UP, true, false)
    ensures [] + [Handed()] == [Handed()] && [] + [Replayed()] == [Replayed()]
  {
  }

  /** The process dies with the charge just checkpointed. */
  lemma ChargeThenDie(t: Tick)
    requires t.phase == Main && t.rec.steps == AFTER_POLL && t.rec.instance.status.Running? && t.rec.Counter() == 1
    requires t.ops == 4 && t.now == 0
    ensures var r := ExecuteStep(Polling(6), CHARGING, LIVE, t, CHARGE, UNDOABLE, Nothing);
            && r.Stop? && r.signal == Crash && r.tick.rec.steps == AFTER_CHARGE && r.tick.now == 0
            && r.tick.rec.instance.status.Running?
  {
  }

  lemma ChargesLive(t: Tick)
    requires t.phase == Main && t.rec.steps == map[] && t.rec.instance.status.Running? && t.rec.Counter() == 0
    requires t.ops == 1 && t.now == 0
    ensures var r := Eval(Polling(6), CHARGING, LIVE, t, CHARGING.main, []);
            && r.Stop? && r.signal == Crash && r.tick.rec.steps == AFTER_CHARGE && r.tick.now == 0
            && r.tick.rec.instance.status.Running?
  {
    hide ExecuteStep, Processor.At;
    ChargingMoves();
    PollOnce(6, CHARGING, t);
    var c := ExecuteStep(Polling(6), CHARGING, LIVE, t, POLL, ONCE, Nothing);
    assert SeenOf(Reads, c) == Handed();
    ChargeThenDie(c.tick);
    var e := ExecuteStep(Polling(6), CHARGING, LIVE, c.tick, CHARGE, UNDOABLE, Nothing);
    assert Eval(Polling(6), CHARGING, LIVE, c.tick, CHARGING.main, [Handed()]) == Stop(e.tick, Crash);
  }

  /** The replay hears of the other error, and gives up with nothing registered. */
  lemma GivesUpReplayed(t: Tick)
    requires t.phase == Main && t.rec.steps == AFTER_CHARGE && t.rec.instance.status.Running? && t.rollbacks == []
    ensures var r := Eval(Polling(100), CHARGING, LIVE, t, CHARGING.main, []);
            && r.Stop? && r.signal == Raised(GAVE_UP, false, true) && r.tick.rec == t.rec && r.tick.rollbacks == []
            && r.tick.ops == t.ops
  {
    hide Processor.At, AttemptLoop;
    ChargingMoves();
    var c := ExecuteStep(Polling(100), CHARGING, LIVE, t, POLL, ONCE, Nothing);
    assert c.Stop? && c.signal == Raised(NOT_YET, true, false) && c.tick.rec == t.rec;
    assert SeenOf(Reads, c) == Replayed();
    assert Eval(Polling(100), CHARGING, LIVE, c.tick, CHARGING.main, [Replayed()])
           == Stop(c.tick, Raised(GAVE_UP, false, true));
  }

  const DIES := Deliver(Polling(6), LIVE)
  const REDELIVERED := Deliver(Polling(100), LIVE)

  lemma DiesCharged()
    ensures var n := Next(CHARGING, INPUT, FRESH, DIES);
            && n.stored.Some? && n.stored.value.steps == AFTER_CHARGE && n.stored.value.instance.status.Running?
  {
    hide FailureSequence, Classify, Merge, Eval;
    var begun := Save(Polling(6), Opening(BeginTick(None, INPUT, 0), 0, []), BeginTick(None, INPUT, 0));
    ChargesLive(begun.tick);
  }

  lemma FailsRedelivered(s: Run)
    requires s.stored.Some? && s.stored.value.steps == AFTER_CHARGE && s.stored.value.instance.status.Running?
    ensures var n := Next(CHARGING, INPUT, s, REDELIVERED);
            && n.stored.Some? && n.stored.value.steps == AFTER_CHARGE && n.stored.value.instance.status.Failed?
  {
    hide FailureSequence, Eval;
    var begun := Save(Polling(100), Opening(BeginTick(s.stored, INPUT, s.now), s.now, s.trace),
                      BeginTick(s.stored, INPUT, s.now));
    GivesUpReplayed(begun.tick);
  }

  /**
   * A failed run with a completed step that promises a compensation and never got one: the processor
   * looked at the error of a poll that had run out of attempts, and went another way on replay.
   */
  lemma FailedUncompensated()
    ensures var n := RunAll(CHARGING, INPUT, FRESH, [DIES, REDELIVERED]);
            && n.stored.Some? && n.stored.value.instance.status.Failed?
            && n.stored.value.Has(Key(Main, CHARGE), StepCompleted)
            && Key(Compensation, CHARGE) !in n.stored.value.steps
  {
    hide Next;
    DiesCharged();
    var s := Next(CHARGING, INPUT, FRESH, DIES);
    FailsRedelivered(s);
    var n := Next(CHARGING, INPUT, s, REDELIVERED);
    assert RunAll(CHARGING, INPUT, n, []) == n;
    assert RunAll(CHARGING, INPUT, s, [REDELIVERED]) == n;
  }

  // -- A worker that has been fenced off -------------------------------------------------------

  const BROKEN := App(Processor(_ => Throw(GAVE_UP, false, false), 0), None, None, None)
  const FENCED := World((_, _) => Succeeds(Null), _ => 0, _ => 0.0, 100, true)

  /** The failure is reported, for good, and the run is still `running`. */
  lemma FailureNotStored()
    ensures var first := RunLocked(FENCED, BROKEN, LIVE, None, INPUT, 0, []);
            && first.Go? && first.value == RunFailed(GAVE_UP)
            && first.tick.rec.instance.status.Running? && Unstored(first)
  {
    hide FailureSequence, Merge;
    var begun := Save(FENCED, Opening(BeginTick(None, INPUT, 0), 0, []), BeginTick(None, INPUT, 0));
    assert Eval(FENCED, BROKEN, LIVE, begun.tick, BROKEN.main, []) == Stop(begun.tick, Raised(GAVE_UP, false, false));
  }

  /** Its first body cancels the run. */
  const ABORTING := World((_, _) => NestedCancel, _ => 0, _ => 0.0, 100, true)
  const ABORTED := App(Processor(_ => Call(CHARGE, UNDOABLE, Uncaught), 1), None, None, None)

  /** The cancellation is reported, and the run is still `running`. */
  lemma CancellationNotStored()
    ensures var first := RunLocked(ABORTING, ABORTED, LIVE, None, INPUT, 0, []);
            && first.Go? && first.value == RunCancelled && first.tick.rec.instance.status.Running? && Unstored(first)
  {
    hide FailureSequence, Merge, Classify, ExecuteStep;
    var begun := Save(ABORTING, Opening(BeginTick(None, INPUT, 0), 0, []), BeginTick(None, INPUT, 0));
    ChargeAborts(begun.tick);
    var c := ExecuteStep(ABORTING, ABORTED, LIVE, begun.tick, CHARGE, UNDOABLE, Nothing);
    assert Eval(ABORTING, ABORTED, LIVE, begun.tick, ABORTED.main, []) == Stop(c.tick, CancelledRun);
  }

  lemma ChargeAborts(t: Tick)
    requires t.phase == Main && t.rec.steps == map[] && t.rec.instance.status.Running? && t.ops == 1
    ensures var r := ExecuteStep(ABORTING, ABORTED, LIVE, t, CHARGE, UNDOABLE, Nothing);
            && r.Stop? && r.signal == CancelledRun && r.tick.rec.instance.status.Running? && r.tick.ops == 3
  {
  }

  // -- An output the round trip changes ----------------------------------------------------------

  const TODAY := Date("2024-01-01T00:00:00.000Z")
  const DATED := App(Processor(_ => Return(TODAY), 0), None, None, None)
  const CALM := World((_, _) => Succeeds(Null), _ => 0, _ => 0.0, 100, false)

  /** The first delivery hands out a date, and every later one its text. */
  lemma DateThenText()
    ensures var first := RunLocked(CALM, DATED, LIVE, None, INPUT, 0, []);
            var n := Next(DATED, INPUT, FRESH, Deliver(CALM, LIVE));
            var later := RunLocked(CALM, DATED, LIVE, n.stored, INPUT, n.now, n.trace);
            && first.Go? && first.value == RunCompleted(TODAY)
            && later.Go? && later.value == RunCompleted(Str("2024-01-01T00:00:00.000Z"))
  {
    hide FailureSequence, Merge, Classify;
    var begun := Save(CALM, Opening(BeginTick(None, INPUT, 0), 0, []), BeginTick(None, INPUT, 0));
    assert Eval(CALM, DATED, LIVE, begun.tick, DATED.main, []) == Go(begun.tick, TODAY);
  }

  // -- A handler that does not come back to its step ------------------------------------------------

  const ONE_POLL := RetryOptions(Some(1.0), None, None, None)
  const CHARGE_ONCE := StepOptions(None, Some(OnRollback(Some(ONE_POLL))))
  const NAP := "nap"
  const REST := "rest"

  /** Compensations ask to be called again; everything else succeeds. */
  const UNDOING := World((k: Key, _) => if k.phase == Compensation then RetryLater(None, "not yet") else Succeeds(Null),
                         _ => 0, _ => 0.0, 100, false)

  function FailPlan(seen: seq<Seen>): Move {
    if |seen| == 0 then Call(CHARGE, CHARGE_ONCE, Uncaught) else Throw(GAVE_UP, true, false)
  }

  /** Sleep, under a name that depends on the error reported for the compensation. */
  function TellPlan(info: FailureInfo): Processor {
    var gaveUp := |info.report.failed| == 1 && info.report.failed[0].1 == NOT_YET;
    Processor(seen => if |seen| == 0 then Pause(if gaveUp then REST else NAP, 10) else Return(Null), 1)
  }

  const TELLING := App(Processor(FailPlan, 1), Some(TellPlan), None, None)

  const UNDO := StepOptions(Some(ONE_POLL), None)
  const CHARGED_FIRST := Step(Work, 1, StepCompleted, Null, None, 1, 0, Some(0), None, None)
  const UNDO_FAILED := Step(Work, 2, StepFailed, Undefined, Some(NOT_YET), 1, 0, None, Some(0), None)
  const NAPPING := Step(Sleep, 3, StepRunning, Undefined, None, 1, 0, None, None, Some(10))
  const REGISTERED := Rollback(CHARGE, 1, Null, Some(ONE_POLL))

  const ONLY_CHARGE := map[Key(Main, CHARGE) := CHARGED_FIRST]
  const UNDO_TRIED := ONLY_CHARGE[Key(Compensation, CHARGE) := UNDO_FAILED]
  const NAP_BEGUN := UNDO_TRIED[Key(Failure, NAP) := NAPPING]

  /** What the handler is told first, and what it is told the next time. */
  function FirstTold(): FailureInfo {
    FailureInfo(GAVE_UP, None, {CHARGE}, Report([], [(CHARGE, Exhausted(CHARGE, 1))]))
  }

  function ThenTold(): FailureInfo {
    FailureInfo(GAVE_UP, None, {CHARGE}, Report([], [(CHARGE, NOT_YET)]))
  }

  lemma TellingMoves()
    ensures TELLING.main.At([]) == Call(CHARGE, CHARGE_ONCE, Uncaught)
    ensures TELLING.main.At([Got(Null)]) == Throw(GAVE_UP, true, false)
    ensures TellPlan(FirstTold()).At([]) == Pause(NAP, 10) && TellPlan(ThenTold()).At([]) == Pause(REST, 10)
    ensures [] + [Got(Null)] == [Got(Null)]
  {
    assert Exhausted(CHARGE, 1).name != NOT_YET.name by {
      assert |Exhausted(CHARGE, 1).name| == 28;
    }
  }

  lemma ChargesFirst(app: App, t: Tick)
    requires t.phase == Main && t.rec.steps == map[] && t.rec.instance.status.Running? && t.rec.Counter() == 0
    requires t.ops == 1 && t.now == 0 && t.rollbacks == []
    ensures var r := ExecuteStep(UNDOING, app, LIVE, t, CHARGE, CHARGE_ONCE, Nothing);
            && r.Go? && r.value == Null && r.tick.rec.steps == ONLY_CHARGE && r.tick.ops == 4 && r.tick.now == 0
            && r.tick.rec.instance == t.rec.instance.(stepSeq := Some(1), updatedAt := 0)
            && r.tick.phase == Main && r.tick.rollbacks == [REGISTERED] && r.tick.failedStep == t.failedStep
            && r.tick.resume == t.resume
  {
  }

  lemma UndoGivesUp(app: App, t: Tick)
    requires t.phase == Compensation && t.rec.steps == ONLY_CHARGE && t.rec.instance.status.Compensating?
    requires t.rec.Counter() == 1 && t.ops == 5 && t.now == 0 && app.defaultRetry.None?
    ensures var r := ExecuteStep(UNDOING, app, LIVE, t, CHARGE, UNDO, Undo(Null, GAVE_UP));
            && r.Stop? && r.signal == Raised(Exhausted(CHARGE, 1), true, false)
            && r.tick.rec.steps == UNDO_TRIED && r.tick.ops == 8 && r.tick.now == 0
            && r.tick.rec.instance == t.rec.instance.(stepSeq := Some(2), updatedAt := 0)
            && r.tick.phase == Compensation && r.tick.resume == t.resume
  {
    hide Exhausted;
    UndoOnce(app);
  }

  lemma UndoOnce(app: App)
    requires app.defaultRetry.None?
    ensures Policy(app, UNDO).attempts == 1 && Limit(app, LIVE, UNDO, true) == Some(1)
    ensures RollbackOptions(app, REGISTERED) == UNDO
  {
  }

  lemma NapBegins(t: Tick)
    requires t.phase == Failure && t.rec.steps == UNDO_TRIED && t.rec.instance.status.Compensating?
    requires t.rec.Counter() == 2 && t.ops == 8 && t.now == 0 && t.resume.None?
    ensures var r := SleepFor(UNDOING, LIVE, t, NAP, 10);
            && r.Stop? && r.signal == Yield && r.tick.rec.steps == NAP_BEGUN && r.tick.now == 0
            && r.tick.resume == Some(Resume(10, Some(Key(Failure, NAP))))
            && r.tick.rec.instance == t.rec.instance.(stepSeq := Some(3), updatedAt := 0)
  {
  }

  lemma RestBegins(t: Tick)
    requires t.phase == Failure && t.rec.steps == NAP_BEGUN && t.rec.instance.status.Compensating?
    requires t.ops <= 50 && t.resume.None?
    ensures var r := SleepFor(UNDOING, LIVE, t, REST, 10);
            && r.Stop? && r.signal == Yield
            && r.tick.resume == Some(Resume(10, Some(Key(Failure, REST))))
            && Key(Failure, NAP) in r.tick.rec.steps && r.tick.rec.steps[Key(Failure, NAP)] == NAPPING
  {
  }

  lemma OneCompensation()
    ensures LatestFirst([REGISTERED]) == [REGISTERED]
  {
    assert [REGISTERED][..0] == [];
  }

  lemma ChargeCompleted(rec: Record)
    requires rec.steps == UNDO_TRIED || rec.steps == NAP_BEGUN
    ensures CompletedMainSteps(rec) == {CHARGE}
  {
    assert Key(Main, CHARGE) in rec.steps;
  }

  lemma ParksOnNap(t: Tick)
    requires t.phase == Main && t.rec.steps == ONLY_CHARGE && t.rec.instance.status.Running? && t.rec.Counter() == 1
    requires t.rec.instance.failureError.None? && t.rec.instance.failedStep.None?
    requires t.ops == 4 && t.now == 0 && t.rollbacks == [REGISTERED] && t.failedStep.None? && t.resume.None?
    ensures var r := FailureSequence(UNDOING, TELLING, LIVE, t, GAVE_UP);
            && r.Go? && r.value == Parked(Resume(10, Some(Key(Failure, NAP))))
            && r.tick.rec.steps == NAP_BEGUN && r.tick.now == 0 && r.tick.rec.instance.status.Compensating?
            && r.tick.rec.instance.failureError == Some(GAVE_UP) && r.tick.rec.instance.failedStep.None?
  {
    hide ExecuteStep, SleepFor, Processor.At, CompletedMainSteps, SettleTerminal, LatestFirst, Exhausted;
    var entered := SaveInstance(UNDOING, t, NO_CHANGE.(status := Some(Compensating), failureError := Some(GAVE_UP),
                                                       failedStep := None));
    var t1 := entered.tick.(phase := Compensation);
    OneCompensation();
    UndoOnce(TELLING);
    UndoGivesUp(TELLING, t1);
    var c := ExecuteStep(UNDOING, TELLING, LIVE, t1, CHARGE, UNDO, Undo(Null, GAVE_UP));
    var report := Report([], [(CHARGE, Exhausted(CHARGE, 1))]);
    assert NO_REPORT.failed + [(CHARGE, Exhausted(CHARGE, 1))] == [(CHARGE, Exhausted(CHARGE, 1))];
    assert RunRollbacks(UNDOING, TELLING, LIVE, c.tick, [], GAVE_UP, report) == Go(c.tick, report);
    assert RunRollbacks(UNDOING, TELLING, LIVE, t1, [REGISTERED], GAVE_UP, NO_REPORT) == Go(c.tick, report);
    ChargeCompleted(c.tick.rec);
    TellingMoves();
    var told := c.tick.(phase := Failure, trace := c.tick.trace + [Handled(FirstTold())]);
    NapBegins(told);
    var z := SleepFor(UNDOING, LIVE, told, NAP, 10);
    assert Eval(UNDOING, TELLING, LIVE, told, TellPlan(FirstTold()), []) == Stop(z.tick, Yield);
    assert HandleFailure(UNDOING, TELLING, LIVE, c.tick, FirstTold()) == Stop(z.tick, Yield);
  }

  /** The compensation's record replays the other error. */
  lemma UndoReplays(t: Tick)
    requires t.phase == Compensation && t.rec.steps == NAP_BEGUN && t.rec.instance.status.Compensating?
    ensures ExecuteStep(UNDOING, TELLING, LIVE, t, CHARGE, UNDO, Undo(Null, GAVE_UP))
            == Stop(t, Raised(NOT_YET, true, false))
  {
  }

  lemma ParksOnRest(t: Tick, error: Err)
    requires t.phase == Main && t.rec.steps == NAP_BEGUN && t.rec.instance.status.Compensating?
    requires t.rec.instance.failureError == Some(GAVE_UP) && t.rec.instance.failedStep.None?
    requires t.ops <= 50 && t.rollbacks == [REGISTERED] && t.failedStep.None? && t.resume.None?
    ensures var r := FailureSequence(UNDOING, TELLING, LIVE, t, error);
            && r.Go? && r.value == Parked(Resume(10, Some(Key(Failure, REST))))
            && Key(Failure, NAP) in r.tick.rec.steps && r.tick.rec.steps[Key(Failure, NAP)] == NAPPING
  {
    hide ExecuteStep, SleepFor, Processor.At, CompletedMainSteps, SettleTerminal, LatestFirst, Exhausted;
    var t1 := t.(phase := Compensation);
    OneCompensation();
    UndoOnce(TELLING);
    UndoReplays(t1);
    var report := Report([], [(CHARGE, NOT_YET)]);
    assert NO_REPORT.failed + [(CHARGE, NOT_YET)] == [(CHARGE, NOT_YET)];
    assert RunRollbacks(UNDOING, TELLING, LIVE, t1, [], GAVE_UP, report) == Go(t1, report);
    assert RunRollbacks(UNDOING, TELLING, LIVE, t1, [REGISTERED], GAVE_UP, NO_REPORT) == Go(t1, report);
    ChargeCompleted(t1.rec);
    TellingMoves();
    var told := t1.(phase := Failure, trace := t1.trace + [Handled(ThenTold())]);
    RestBegins(told);
    var z := SleepFor(UNDOING, LIVE, told, REST, 10);
    assert Eval(UNDOING, TELLING, LIVE, told, TellPlan(ThenTold()), []) == Stop(z.tick, Yield);
    assert HandleFailure(UNDOING, TELLING, LIVE, t1, ThenTold()) == Stop(z.tick, Yield);
  }

  const FAILS := Deliver(UNDOING, LIVE)

  lemma FirstParks()
    ensures var r := RunLocked(UNDOING, TELLING, LIVE, None, INPUT, 0, []);
            && r.Go? && r.value == Parked(Resume(10, Some(Key(Failure, NAP))))
            && r.tick.rec.steps == NAP_BEGUN && r.tick.now == 0 && r.tick.rec.instance.status.Compensating?
            && r.tick.rec.instance.failureError == Some(GAVE_UP) && r.tick.rec.instance.failedStep.None?
  {
    hide FailureSequence, ExecuteStep, Processor.At, Merge;
    var begun := Save(UNDOING, Opening(BeginTick(None, INPUT, 0), 0, []), BeginTick(None, INPUT, 0));
    ChargesFirst(TELLING, begun.tick);
    var c := ExecuteStep(UNDOING, TELLING, LIVE, begun.tick, CHARGE, CHARGE_ONCE, Nothing);
    TellingMoves();
    assert Eval(UNDOING, TELLING, LIVE, c.tick, TELLING.main, [Got(Null)]) == Stop(c.tick,
            Raised(GAVE_UP, false, true));
    assert Eval(UNDOING, TELLING, LIVE, begun.tick, TELLING.main, []) == Stop(c.tick, Raised(GAVE_UP, false, true));
    ParksOnNap(c.tick);
  }

  lemma ChargeReplays(t: Tick)
    requires t.phase == Main && t.rec.steps == NAP_BEGUN && t.rec.instance.status.Compensating? && t.rollbacks == []
    ensures ExecuteStep(UNDOING, TELLING, LIVE, t, CHARGE, CHARGE_ONCE, Nothing) == Go(t.(rollbacks := [REGISTERED]),
            Null)
  {
  }

  lemma SecondParks(s: Run)
    requires s.stored.Some? && s.stored.value.steps == NAP_BEGUN && s.stored.value.instance.status.Compensating?
    requires s.stored.value.instance.failureError == Some(GAVE_UP) && s.stored.value.instance.failedStep.None?
    ensures var r := RunLocked(UNDOING, TELLING, LIVE, s.stored, INPUT, s.now, s.trace);
            && r.Go? && r.value == Parked(Resume(10, Some(Key(Failure, REST))))
            && Key(Failure, NAP) in r.tick.rec.steps && r.tick.rec.steps[Key(Failure, NAP)] == NAPPING
  {
    hide FailureSequence, ExecuteStep, Processor.At, Merge, SettleTrigger;
    var rec := BeginTick(s.stored, INPUT, s.now);
    var begun := Save(UNDOING, Opening(rec, s.now, s.trace), rec);
    var t := begun.tick;
    ChargeReplays(t);
    var t1 := t.(rollbacks := [REGISTERED]);
    TellingMoves();
    assert Eval(UNDOING, TELLING, LIVE, t1, TELLING.main, [Got(Null)]) == Stop(t1, Raised(GAVE_UP, false, true));
    assert Eval(UNDOING, TELLING, LIVE, t, TELLING.main, []) == Stop(t1, Raised(GAVE_UP, false, true));
    ParksOnRest(t1, SettleTrigger(LIVE, Some(GAVE_UP)));
  }

  /**
   * The handler parks on one step; when that step is due it is told another error for the same
   * compensation, parks on another step, and leaves the first one where it was.
   */
  lemma HandlerTurnsAway()
    ensures var parked := Next(TELLING, INPUT, FRESH, FAILS);
            var due := Next(TELLING, INPUT, parked, Wait(10));
            var first := RunLocked(UNDOING, TELLING, LIVE, None, INPUT, 0, []);
            var second := RunLocked(UNDOING, TELLING, LIVE, due.stored, INPUT, due.now, due.trace);
            && first.Go? && first.value == Parked(Resume(10, Some(Key(Failure, NAP))))
            && second.Go? && second.value == Parked(Resume(10, Some(Key(Failure, REST))))
            && parked.stored.Some? && Key(Failure, NAP) in parked.stored.value.steps
            && Key(Failure, NAP) in second.tick.rec.steps
            && second.tick.rec.steps[Key(Failure, NAP)] == parked.stored.value.steps[Key(Failure, NAP)]
  {
    hide RunLocked;
    FirstParks();
    SecondParks(Next(TELLING, INPUT, Next(TELLING, INPUT, FRESH, FAILS), Wait(10)));
  }

  // -- A retry of the compensation that dies half way --------------------------------------------------

  const STUCK := App(Processor(FailPlan, 1), None, None, None)

  lemma StuckMoves()
    ensures STUCK.main.At([]) == Call(CHARGE, CHARGE_ONCE, Uncaught)
    ensures STUCK.main.At([Got(Null)]) == Throw(GAVE_UP, true, false)
    ensures [] + [Got(Null)] == [Got(Null)]
  {
  }

  lemma GivesUpUndoing(t: Tick)
    requires t.phase == Main && t.rec.steps == ONLY_CHARGE && t.rec.instance.status.Running? && t.rec.Counter() == 1
    requires t.rec.instance.failureError.None? && t.ops == 4 && t.now == 0 && t.rollbacks == [REGISTERED]
    ensures var r := FailureSequence(UNDOING, STUCK, LIVE, t, GAVE_UP);
            && r.tick.rec.steps == UNDO_TRIED && r.tick.rec.instance.status.CompensationFailed?
  {
    hide ExecuteStep, LatestFirst, Exhausted;
    var entered := SaveInstance(UNDOING, t, NO_CHANGE.(status := Some(Compensating), failureError := Some(GAVE_UP),
                                                       failedStep := t.failedStep));
    var t1 := entered.tick.(phase := Compensation);
    OneCompensation();
    UndoOnce(STUCK);
    UndoGivesUp(STUCK, t1);
    var c := ExecuteStep(UNDOING, STUCK, LIVE, t1, CHARGE, UNDO, Undo(Null, GAVE_UP));
    var report := Report([], [(CHARGE, Exhausted(CHARGE, 1))]);
    assert NO_REPORT.failed + [(CHARGE, Exhausted(CHARGE, 1))] == [(CHARGE, Exhausted(CHARGE, 1))];
    assert RunRollbacks(UNDOING, STUCK, LIVE, c.tick, [], GAVE_UP, report) == Go(c.tick, report);
    assert RunRollbacks(UNDOING, STUCK, LIVE, t1, [REGISTERED], GAVE_UP, NO_REPORT) == Go(c.tick, report);
  }

  lemma GivesUp()
    ensures var n := Next(STUCK, INPUT, FRESH, FAILS);
            && n.stored.Some? && n.stored.value.steps == UNDO_TRIED
            && n.stored.value.instance.status.CompensationFailed?
  {
    hide FailureSequence, ExecuteStep, Processor.At, Merge;
    var begun := Save(UNDOING, Opening(BeginTick(None, INPUT, 0), 0, []), BeginTick(None, INPUT, 0));
    ChargesFirst(STUCK, begun.tick);
    var c := ExecuteStep(UNDOING, STUCK, LIVE, begun.tick, CHARGE, CHARGE_ONCE, Nothing);
    StuckMoves();
    assert Eval(UNDOING, STUCK, LIVE, c.tick, STUCK.main, [Got(Null)]) == Stop(c.tick, Raised(GAVE_UP, false, true));
    assert Eval(UNDOING, STUCK, LIVE, begun.tick, STUCK.main, []) == Stop(c.tick, Raised(GAVE_UP, false, true));
    GivesUpUndoing(c.tick);
  }

  /**
   * The run still says that a compensation failed, and its store holds no compensation record at all: the
   * operator's `retryCompensation` has dropped the failed one and died before it changed the status.
   */
  lemma GivenUpForgotten()
    ensures var n := RunAll(STUCK, INPUT, FRESH, [FAILS, RetryCompensation(1)]);
            && n.stored.Some? && n.stored.value.instance.status.CompensationFailed?
            && n.stored.value.Has(Key(Main, CHARGE), StepCompleted)
            && Key(Compensation, CHARGE) !in n.stored.value.steps
  {
    hide Next;
    GivesUp();
    var s := Next(STUCK, INPUT, FRESH, FAILS);
    Forgets(s);
    var n := Next(STUCK, INPUT, s, RetryCompensation(1));
    assert RunAll(STUCK, INPUT, n, []) == n;
    assert RunAll(STUCK, INPUT, s, [RetryCompensation(1)]) == n;
  }

  lemma Forgets(s: Run)
    requires s.stored.Some? && s.stored.value.steps == UNDO_TRIED && s.stored.value.instance.status.CompensationFailed?
    ensures var n := Next(STUCK, INPUT, s, RetryCompensation(1));
            && n.stored.Some? && n.stored.value.instance.status.CompensationFailed?
            && n.stored.value.Has(Key(Main, CHARGE), StepCompleted)
            && Key(Compensation, CHARGE) !in n.stored.value.steps
  {
  }
}
