/** A run that completes although it had started compensating: why the guard is needed. */
module Reversal {
  import opened Values
  import opened Phases
  import opened Records
  import opened Processors
  import opened Steps
  import opened Ticks
  import opened Runs

  const CHARGE := "charge"
  const NAP := "nap"
  const UNDOABLE := StepOptions(None, Some(OnRollback(None)))

  /** Charge, wait ten milliseconds, finish. */
  function Plan(seen: seq<Seen>): Move {
    if |seen| == 0 then Call(CHARGE, UNDOABLE, Uncaught)
    else if |seen| == 1 then Pause(NAP, 10)
    else Return(Null)
  }

  const APP := App(Processor(Plan, 2), None, None, None)
  const INPUT := InitInput("i", "q", "j", "1", Null)

  /** Every body succeeds at once; the process dies after operation `crashAt`. */
  function Dying(crashAt: nat): World {
    World((_, _) => Succeeds(Null), _ => 0, _ => 0.0, crashAt, false)
  }

  const LIVE := Delivery(Normal, 1, 1, false, None)
  const POST_MORTEM := Delivery(Settle, 1, 1, false, Some(STALLED))

  /** Dies with the sleep just begun. */
  const FIRST := Deliver(Dying(4), LIVE)
  /** Settles the dead job: undoes the charge, and dies before the run has ended. */
  const SECOND := Deliver(Dying(4), POST_MORTEM)
  /** A live delivery finds the sleep still pending. */
  const THIRD := Deliver(Dying(100), LIVE)

  function Done(seqNo: nat): Step {
    Step(Work, seqNo, StepCompleted, Null, None, 1, 0, Some(0), None, None)
  }

  const SLEEPING := Step(Sleep, 2, StepRunning, Undefined, None, 1, 0, None, None, Some(10))

  const DONE_CHARGE := map[Key(Main, CHARGE) := Done(1)]
  const ASLEEP := map[Key(Main, CHARGE) := Done(1), Key(Main, NAP) := SLEEPING]
  const UNDONE := map[Key(Main, CHARGE) := Done(1), Key(Main, NAP) := SLEEPING, Key(Compensation, CHARGE) := Done(3)]

  lemma ChargeOnce(t: Tick)
    requires t.phase == Main && t.rec.steps == map[] && t.rec.instance.status.Running? && t.rec.Counter() == 0
    requires t.ops == 1 && t.now == 0
    ensures var r := ExecuteStep(Dying(4), APP, LIVE, t, CHARGE, UNDOABLE, Nothing);
            && r.Go? && r.value == Null && r.tick.rec.steps == DONE_CHARGE && r.tick.ops == 4 && r.tick.now == 0
            && r.tick.phase == Main && r.tick.rec.Counter() == 1 && r.tick.rec.instance.status.Running?
            && r.tick.rec.instance.failureError == t.rec.instance.failureError
  {
  }

  lemma NapBegins(t: Tick)
    requires t.phase == Main && t.rec.steps == DONE_CHARGE && t.rec.instance.status.Running? && t.rec.Counter() == 1
    requires t.ops == 4 && t.now == 0
    ensures var r := SleepFor(Dying(4), LIVE, t, NAP, 10);
            && r.Stop? && r.signal == Crash && r.tick.rec.steps == ASLEEP && r.tick.now == 0
            && r.tick.rec.Counter() == 2 && r.tick.rec.instance.status.Running?
            && r.tick.rec.instance.failureError == t.rec.instance.failureError
  {
  }

  lemma Moves()
    ensures APP.main.At([]) == Call(CHARGE, UNDOABLE, Uncaught)
    ensures APP.main.At([Got(Null)]) == Pause(NAP, 10)
    ensures APP.main.At([Got(Null), Slept]) == Return(Null)
    ensures [] + [Got(Null)] == [Got(Null)] && [Got(Null)] + [Slept] == [Got(Null), Slept]
  {
  }

  lemma FirstDelivery()
    ensures var n := Next(APP, INPUT, FRESH, FIRST);
            && n.stored.Some? && n.now == 0 && n.stored.value.steps == ASLEEP
            && n.stored.value.instance.status.Running? && n.stored.value.Counter() == 2
            && n.stored.value.instance.failureError.None?
  {
    hide FailureSequence, Classify, Merge;
    var begun := Save(Dying(4), Opening(BeginTick(None, INPUT, 0), 0, []), BeginTick(None, INPUT, 0));
    assert begun.Go?;
    var t := begun.tick;
    assert t == Opening(BeginTick(None, INPUT, 0), 0, []).(ops := 1);
    hide Execute, Save;
    var z := FirstTick(t);
    assert RunLocked(Dying(4), APP, LIVE, None, INPUT, 0, []) == Stop(z, Crash);
  }

  lemma FirstTick(t: Tick) returns (z: Tick)
    requires t == Opening(BeginTick(None, INPUT, 0), 0, []).(ops := 1)
    ensures Execute(Dying(4), APP, LIVE, t) == Stop(z, Crash)
    ensures z.now == 0 && z.rec.steps == ASLEEP && z.rec.instance.status.Running? && z.rec.Counter() == 2
            && z.rec.instance.failureError.None?
  {
    hide FailureSequence, Classify, Merge, ExecuteStep, SleepFor, Processor.At, Save;
    ChargeOnce(t);
    var c := ExecuteStep(Dying(4), APP, LIVE, t, CHARGE, UNDOABLE, Nothing);
    Moves();
    NapBegins(c.tick);
    z := SleepFor(Dying(4), LIVE, c.tick, NAP, 10).tick;
    assert Eval(Dying(4), APP, LIVE, c.tick, APP.main, [Got(Null)]) == Stop(z, Crash);
    assert Eval(Dying(4), APP, LIVE, t, APP.main, []) == Stop(z, Crash);
  }

  const UNDO_OPTIONS := StepOptions(Some(DEFAULT_ROLLBACK_RETRY), None)
  const STALLED := Err("Error", "stalled")
  const CHARGED := Rollback(CHARGE, 1, Null, None)

  lemma UndoneOnce(t: Tick)
    requires t.phase == Compensation && t.rec.steps == ASLEEP && t.rec.instance.status.Compensating?
             && t.rec.Counter() == 2
    requires t.ops == 2 && t.now == 0
    ensures var r := ExecuteStep(Dying(4), APP, POST_MORTEM, t, CHARGE, UNDO_OPTIONS, Undo(Null, STALLED));
            && r.Stop? && r.signal == Crash && r.tick.rec.steps == UNDONE && r.tick.now == 0
            && r.tick.rec.Counter() == 3 && r.tick.rec.instance.status.Compensating?
  {
    hide Policy, HandleStepError;
  }

  lemma SettlesCharge(t: Tick)
    requires t.phase == Main && t.rec.steps == ASLEEP && t.rollbacks == []
    ensures Eval(Dying(4), APP, POST_MORTEM, t, APP.main, []) == Stop(t.(rollbacks := [CHARGED]), SettleIncomplete)
  {
    hide Processor.At;
    Moves();
    var c := ExecuteStep(Dying(4), APP, POST_MORTEM, t, CHARGE, UNDOABLE, Nothing);
    assert c == Go(t.(rollbacks := [CHARGED]), Null);
    assert Eval(Dying(4), APP, POST_MORTEM, c.tick, APP.main, [Got(Null)]) == Stop(c.tick, SettleIncomplete);
  }

  lemma SecondDelivery(s: Run)
    requires s.stored.Some? && s.now == 0 && s.stored.value.steps == ASLEEP
    requires s.stored.value.instance.status.Running? && s.stored.value.Counter() == 2
    requires s.stored.value.instance.failureError.None?
    ensures var n := Next(APP, INPUT, s, SECOND);
            && n.stored.Some? && n.now == 0 && n.stored.value.steps == UNDONE
            && n.stored.value.instance.status.Compensating? && n.stored.value.Counter() == 3
  {
    var begun := Save(Dying(4), Opening(BeginTick(s.stored, INPUT, 0), 0, s.trace), BeginTick(s.stored, INPUT, 0));
    assert begun.Go?;
    var t := begun.tick;
    SettlesCharge(t);
    var t1 := t.(rollbacks := [CHARGED]);
    var entered := SaveInstance(Dying(4), t1,
                                NO_CHANGE.(status := Some(Compensating), failureError := Some(STALLED),
                                           failedStep := None));
    assert entered.Go?;
    var t2 := entered.tick.(phase := Compensation);
    hide ExecuteStep, Eval, SaveInstance, Save;
    UndoneOnce(t2);
    var z := ExecuteStep(Dying(4), APP, POST_MORTEM, t2, CHARGE, UNDO_OPTIONS, Undo(Null, STALLED));
    assert LatestFirst([CHARGED]) == [CHARGED] by {
      assert [CHARGED][..0] == [];
    }
    assert RunRollbacks(Dying(4), APP, POST_MORTEM, t2, [CHARGED], STALLED, NO_REPORT) == Stop(z.tick, Crash);
    assert Compensate(Dying(4), APP, POST_MORTEM, entered.tick, STALLED) == Stop(z.tick, Crash);
    assert FailureSequence(Dying(4), APP, POST_MORTEM, t1, STALLED) == Stop(z.tick, Crash);
    assert Execute(Dying(4), APP, POST_MORTEM, t) == Stop(z.tick, Crash);
  }

  /** Replaying the charge of a live delivery. */
  lemma ReplaysCharge(t: Tick)
    requires t.phase == Main && t.rec.steps == UNDONE && !t.rec.instance.status.Cancelled? && t.rollbacks == []
    ensures ExecuteStep(Dying(100), APP, LIVE, t, CHARGE, UNDOABLE, Nothing) == Go(t.(rollbacks := [CHARGED]), Null)
  {
  }

  lemma ThirdDelivery(s: Run)
    requires s.stored.Some? && s.now == 0 && s.stored.value.steps == UNDONE
    requires s.stored.value.instance.status.Compensating?
    ensures var n := Next(APP, INPUT, s, THIRD);
            && n.stored.Some? && n.now == 0 && n.stored.value.steps == UNDONE
            && n.stored.value.instance.status.Yielded?
  {
    hide FailureSequence, Classify, ReplaySettledStep, AttemptLoop;
    var begun := Save(Dying(100), Opening(BeginTick(s.stored, INPUT, 0), 0, s.trace), BeginTick(s.stored, INPUT, 0));
    assert begun.Go?;
    var t := begun.tick;
    ReplaysCharge(t);
    var t1 := t.(rollbacks := [CHARGED]);
    var z := SleepFor(Dying(100), LIVE, t1, NAP, 10);
    assert z == Stop(t1.(resume := Some(Resume(10, Some(Key(Main, NAP))))), Yield);
    hide ExecuteStep, SleepFor, Processor.At;
    Moves();
    assert Eval(Dying(100), APP, LIVE, t1, APP.main, [Got(Null)]) == Stop(z.tick, Yield);
    assert Eval(Dying(100), APP, LIVE, t, APP.main, []) == Stop(z.tick, Yield);
  }

  lemma FourthDelivery(s: Run)
    requires s.stored.Some? && s.now == 10 && s.stored.value.steps == UNDONE
    requires s.stored.value.instance.status.Yielded?
    ensures var n := Next(APP, INPUT, s, THIRD);
            && n.stored.Some? && n.stored.value.instance.status.Completed?
            && n.stored.value.Has(Key(Main, CHARGE), StepCompleted)
            && n.stored.value.Has(Key(Compensation, CHARGE), StepCompleted)
  {
    hide Merge, FailureSequence, Classify, ReplaySettledStep, AttemptLoop;
    var begun := Save(Dying(100), Opening(BeginTick(s.stored, INPUT, 10), 10, s.trace), BeginTick(s.stored, INPUT, 10));
    assert begun.Go?;
    var t := begun.tick;
    ReplaysCharge(t);
    var t1 := t.(rollbacks := [CHARGED]);
    var z := SleepFor(Dying(100), LIVE, t1, NAP, 10);
    assert z.Go? && z.tick.rec == t1.rec.WakeStep(Key(Main, NAP), 10);
    hide ExecuteStep, SleepFor, Processor.At;
    Moves();
    assert Eval(Dying(100), APP, LIVE, z.tick, APP.main, [Got(Null), Slept]) == Go(z.tick, Null);
    assert Eval(Dying(100), APP, LIVE, t1, APP.main, [Got(Null)]) == Go(z.tick, Null);
    assert Eval(Dying(100), APP, LIVE, t, APP.main, []) == Go(z.tick, Null);
  }

  /**
   * The family of inputs the guard shuts out is real: settle a dead job, die on the way, and deliver
   * it live again. The run completes, although the step it completed with has been compensated.
   */
  lemma CompensatedYetCompleted()
    ensures var n := RunAll(APP, INPUT, FRESH, [FIRST, SECOND, THIRD, Wait(10), THIRD]);
            && n.stored.Some? && n.stored.value.instance.status.Completed?
            && n.stored.value.Has(Key(Main, CHARGE), StepCompleted)
            && n.stored.value.Has(Key(Compensation, CHARGE), StepCompleted)
  {
    hide Next;
    FirstDelivery();
    var s1 := Next(APP, INPUT, FRESH, FIRST);
    SecondDelivery(s1);
    var s2 := Next(APP, INPUT, s1, SECOND);
    ThirdDelivery(s2);
    var s3 := Next(APP, INPUT, s2, THIRD);
    Rests(s3);
    var s4 := Next(APP, INPUT, s3, Wait(10));
    FourthDelivery(s4);
    var s5 := Next(APP, INPUT, s4, THIRD);
    assert RunAll(APP, INPUT, s5, []) == s5;
    assert RunAll(APP, INPUT, s4, [THIRD]) == s5;
    assert RunAll(APP, INPUT, s3, [Wait(10), THIRD]) == s5;
    assert RunAll(APP, INPUT, s2, [THIRD, Wait(10), THIRD]) == s5;
    assert RunAll(APP, INPUT, s1, [SECOND, THIRD, Wait(10), THIRD]) == s5;
  }

  lemma Rests(s: Run)
    ensures Next(APP, INPUT, s, Wait(10)) == s.(now := s.now + 10)
  {
  }
}
