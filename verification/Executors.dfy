/** The step executor and the suspension controller as the objects a delivery works with. */
module Executors {
  import opened Values
  import opened Phases
  import opened Retries
  import opened Records
  import opened Processors
  import opened Steps

  /** What a call hands its caller: a value, or a signal that unwinds it. */
  datatype Reply<+T> = Returned(value: T) | Unwound(signal: Signal) {
    predicate IsFailure() {
      Unwound?
    }

    function PropagateFailure<U>(): Reply<U>
      requires Unwound?
    {
      Unwound(signal)
    }

    function Extract(): T
      requires Returned?
    {
      value
    }

    /** The reply together with the state it leaves. */
    ghost function With(t: Tick): Eff<T> {
      match this
      case Returned(value) => Go(t, value)
      case Unwound(signal) => Stop(t, signal)
    }
  }

  /** The record of the run in the store, the clock, and the history of the run. */
  class Session {
    const world: World
    var rec: Record
    var now: nat
    var ops: nat
    var trace: seq<Act>

    constructor (world: World, rec: Record, now: nat, trace: seq<Act>)
      ensures this.world == world && this.rec == rec && this.now == now && this.ops == 0 && this.trace == trace
    {
      this.world, this.rec, this.now, this.ops, this.trace := world, rec, now, 0, trace;
    }

    /** One operation goes by; the process may die right after it. */
    method Pass() returns (r: Reply<()>)
      modifies this`now, this`ops
      ensures now == old(now) + world.lag(old(ops)) && ops == old(ops) + 1
      ensures r == if old(ops) >= world.crashAt then Unwound(Crash) else Returned(())
    {
      var dies := ops >= world.crashAt;
      now := now + world.lag(ops);
      ops := ops + 1;
      if dies {
        return Unwound(Crash);
      }
      return Returned(());
    }

    method Save(newRec: Record, acts: seq<Act>) returns (r: Reply<()>)
      modifies this
      ensures rec == newRec && trace == old(trace) + acts
      ensures now == old(now) + world.lag(old(ops)) && ops == old(ops) + 1
      ensures r == if old(ops) >= world.crashAt then Unwound(Crash) else Returned(())
    {
      rec := newRec;
      trace := trace + acts;
      r := Pass();
    }

    method SleepInProcess(ms: nat)
      modifies this`now
      ensures now == old(now) + ms
    {
      now := now + ms;
    }
  }

  /** The single owner of the decision to wait. The delay it keeps is noted with the step that asked for it. */
  class SuspensionController {
    const mode: Mode
    var pendingResume: Option<Resume>

    constructor (mode: Mode)
      ensures this.mode == mode && pendingResume.None?
    {
      this.mode, pendingResume := mode, None;
    }

    method TakePendingResume() returns (resume: Option<Resume>)
      modifies this
      ensures resume == old(pendingResume) && pendingResume.None?
    {
      resume := pendingResume;
      pendingResume := None;
    }

    method YieldToBullMQ(delay: nat, k: Key) returns (signal: Signal)
      modifies this
      ensures if mode.Settle? then signal == Raised(NO_SUSPEND, false, false) && pendingResume == old(pendingResume)
              else signal == Yield && pendingResume == Some(Earliest(old(pendingResume), Resume(delay, Some(k))))
    {
      if mode.Settle? {
        return Raised(NO_SUSPEND, false, false);
      }
      if pendingResume.None? || delay < pendingResume.value.delay {
        pendingResume := Some(Resume(delay, Some(k)));
      }
      return Yield;
    }

    method WaitOrYield(session: Session, kind: StepKind, delay: nat, k: Key) returns (r: Reply<()>)
      modifies this, session`now
      ensures mode.Settle? ==> pendingResume == old(pendingResume)
      ensures mode.Settle? && kind.Sleep? ==>
                r == Unwound(Raised(NO_SLEEP, false, false)) && session.now == old(session.now)
      ensures mode.Settle? && kind.Work? ==> r == Returned(()) && session.now == old(session.now) + delay
      ensures mode.Normal? ==> r == Unwound(Yield) && session.now == old(session.now)
                               && pendingResume == Some(Earliest(old(pendingResume), Resume(delay, Some(k))))
    {
      if mode.Settle? {
        if kind.Sleep? {
          return Unwound(Raised(NO_SLEEP, false, false));
        }
        session.SleepInProcess(delay);
        return Returned(());
      }
      var signal := YieldToBullMQ(delay, k);
      return Unwound(signal);
    }
  }

  /** Several yields of one tick, each recording its delay. */
  function Pending(asked: seq<Resume>): Option<Resume> {
    if asked == [] then None else Some(Earliest(Pending(asked[..|asked| - 1]), asked[|asked| - 1]))
  }

  /** Of all yields the earliest is the one taken. */
  lemma {:induction false} LeastDelayTaken(asked: seq<Resume>)
    requires asked != []
    ensures Pending(asked).value in asked
    ensures forall i :: 0 <= i < |asked| ==> Pending(asked).value.delay <= asked[i].delay
  {
    var n := |asked| - 1;
    if n > 0 {
      LeastDelayTaken(asked[..n]);
      assert forall i :: 0 <= i < n ==> asked[..n][i] == asked[i];
    }
  }

  /** A step that yields when the clock reads `seen`, to wait until `wake`. */
  datatype Yielding = Yielding(k: Key, seen: nat, wake: nat) {
    function Asks(): Resume {
      Resume(if seen <= wake then wake - seen else 0, Some(k))
    }
  }

  function Asked(waits: seq<Yielding>): seq<Resume> {
    seq(|waits|, i requires 0 <= i < |waits| => waits[i].Asks())
  }

  /**
   * However many steps yield, and however far the clock has moved by the time the job is parked, the step
   * whose yield was taken has reached its wake time when the job is due.
   */
  lemma TakenYieldIsDue(waits: seq<Yielding>, parkedAt: nat)
    requires waits != [] && forall i :: 0 <= i < |waits| ==> waits[i].seen <= parkedAt
    ensures var taken := Pending(Asked(waits));
            taken.Some?
            && exists y :: y in waits && taken.value == y.Asks() && y.wake <= parkedAt + taken.value.delay
  {
    LeastDelayTaken(Asked(waits));
    var i :| 0 <= i < |waits| && Asked(waits)[i] == Pending(Asked(waits)).value;
    assert waits[i] in waits;
  }

  class StepExecutor {
    const session: Session
    const suspension: SuspensionController
    const app: App
    const delivery: Delivery
    var activePhase: Phase
    var rollbacks: seq<Rollback>
    var failedStepKey: Option<string>

    constructor (session: Session, app: App, delivery: Delivery)
      ensures Valid() && fresh(suspension)
      ensures this.session == session && this.app == app && this.delivery == delivery
      ensures View() == Tick(session.rec, session.now, session.ops, Main, [], None, None, session.trace)
    {
      this.session, this.app, this.delivery := session, app, delivery;
      activePhase, rollbacks, failedStepKey := Main, [], None;
      suspension := new SuspensionController(delivery.mode);
    }

    ghost predicate Valid() {
      suspension.mode == delivery.mode
    }

    ghost function View(): Tick
      reads this, session, suspension
    {
      Tick(session.rec, session.now, session.ops, activePhase, rollbacks, failedStepKey, suspension.pendingResume,
           session.trace)
    }

    method SetPhase(phase: Phase)
      modifies this`activePhase
      ensures View() == old(View()).(phase := phase)
    {
      activePhase := phase;
    }

    method RegisterRollback(key: string, seqNo: nat, output: Value, o: StepOptions)
      modifies this`rollbacks
      ensures View() == Register(old(View()), key, seqNo, output, o)
    {
      if activePhase == Main && o.onRollback.Some? {
        rollbacks := rollbacks + [Rollback(key, seqNo, output, o.onRollback.value.retry)];
      }
    }

    method Execute(key: string, o: StepOptions, arg: Argument) returns (r: Reply<Value>)
      requires Valid()
      modifies this, session, suspension
      ensures r.With(View()) == ExecuteStep(session.world, app, delivery, old(View()), key, o, arg)
    {
      hide BeginOrReplay, AttemptLoop, ReplaySettledStep;
      if delivery.mode.Settle? && activePhase == Main {
        r := ReplaySettlementMainStep(key, o);
        return;
      }
      var begin :- BeginOrReplayWritableStep(key, o);
      match begin
      case Replayed(value) => return Returned(value);
      case Live(a) => r := RunStepAttemptLoop(key, o, arg, a);
    }

    method ReplaySettlementMainStep(key: string, o: StepOptions) returns (r: Reply<Value>)
      requires Valid()
      modifies this, session, suspension
      ensures r.With(View()) == ReplaySettledStep(old(View()), key, o)
    {
      var k := Key(activePhase, key);
      if session.rec.Has(k, StepCompleted) {
        var s := session.rec.steps[k];
        RegisterRollback(key, s.seqNo, Clone(s.result), o);
        return Returned(Clone(s.result));
      }
      if session.rec.Has(k, StepFailed) {
        failedStepKey := Some(key);
        return Unwound(Raised(session.rec.steps[k].error.GetOr(MissingError(key)), true, false));
      }
      return Unwound(SettleIncomplete);
    }

    method BeginOrReplayWritableStep(key: string, o: StepOptions) returns (r: Reply<Begin>)
      requires Valid()
      modifies this, session, suspension
      ensures r.With(View()) == BeginOrReplay(session.world, delivery, old(View()), key, o)
    {
      var k := Key(activePhase, key);
      var now := session.now;
      var (rec, begin) := session.rec.BeginStep(k, Work, now, None);
      if begin.StepMissing? || begin.StepCancelled? {
        return Unwound(CancelledRun);
      }
      if begin.StepCreated? {
        var _ :- session.Save(rec, []);
        return Returned(Live(Attempt(1, begin.seqNo, now)));
      }
      var existing := begin.step;
      if existing.status.StepCompleted? {
        RegisterRollback(key, existing.seqNo, Clone(existing.result), o);
        return Returned(Replayed(Clone(existing.result)));
      }
      if existing.status.StepFailed? {
        if activePhase == Main {
          failedStepKey := Some(key);
        }
        return Unwound(Raised(existing.error.GetOr(MissingError(key)), true, false));
      }
      if existing.nextRunAt.Some? && existing.nextRunAt.value > now {
        var _ :- suspension.WaitOrYield(session, Work, existing.nextRunAt.value - now, k);
      }
      var a := Attempt(existing.attempts + 1, existing.seqNo, existing.startedAt);
      var _ :- session.Save(session.rec.SaveStep(k, RunningStep(a)), []);
      return Returned(Live(a));
    }

    /** Run the body until it checkpoints, fails for good, or yields. */
    method RunStepAttemptLoop(key: string, o: StepOptions, arg: Argument, first: Attempt) returns (r: Reply<Value>)
      requires Valid()
      modifies this, session, suspension
      ensures r.With(View()) == AttemptLoop(session.world, app, delivery, old(View()), key, o, arg, first)
    {
      hide RunAttempt, Steps.Policy;
      var a := first;
      while true
        invariant AttemptLoop(session.world, app, delivery, View(), key, o, arg, a)
                  == AttemptLoop(session.world, app, delivery, old(View()), key, o, arg, first)
        decreases if a.attempts < Steps.Policy(app, o).attempts then Steps.Policy(app, o).attempts - a.attempts else 0
      {
        var done :- RunBody(key, o, arg, a);
        if done.Some? {
          return Returned(done.value);
        }
        a := a.(attempts := a.attempts + 1);
      }
    }

    /** One turn of the loop. */
    method RunBody(key: string, o: StepOptions, arg: Argument, a: Attempt) returns (r: Reply<Option<Value>>)
      requires Valid()
      modifies this, session, suspension
      ensures r.With(View()) == RunAttempt(session.world, app, delivery, old(View()), key, o, arg, a)
    {
      hide Steps.HandleStepError, Steps.Policy, Checkpoint, Retake;
      var k := Key(activePhase, key);
      session.trace := session.trace + [Started(k, a.attempts, session.now, arg)];
      var _ :- session.Pass();
      var outcome := Thrown(delivery, session.world.body(k, a.attempts));
      match outcome
      case Succeeds(value) =>
        var output := Clone(value);
        var _ :- SaveCheckpoint(k, a, output);
        RegisterRollback(key, a.seqNo, output, o);
        return Returned(Some(output));
      case NestedYield(wait) =>
        var signal := suspension.YieldToBullMQ(wait, k);
        return Unwound(signal);
      case NestedCancel =>
        return Unwound(CancelledRun);
      case _ =>
        var delay :- HandleStepError(key, o, a, outcome);
        var _ :- TakeNextAttempt(k, a, delay);
        return Returned(None);
    }

    method SaveCheckpoint(k: Key, a: Attempt, output: Value) returns (r: Reply<()>)
      requires Valid()
      modifies session
      ensures r.With(View()) == Checkpoint(session.world, old(View()), k, a, output)
    {
      var step := Step(Work, a.seqNo, StepCompleted, output, None, a.attempts, a.startedAt, Some(session.now), None,
                       None);
      r := session.Save(session.rec.SaveStep(k, step), [Ended(k, a.attempts)]);
    }

    method TakeNextAttempt(k: Key, a: Attempt, delay: nat) returns (r: Reply<()>)
      requires Valid()
      modifies this, session, suspension
      ensures r.With(View()) == Retake(session.world, delivery, old(View()), k, a, delay)
    {
      var _ :- suspension.WaitOrYield(session, Work, delay, k);
      r := session.Save(session.rec.SaveStep(k, RunningStep(a.(attempts := a.attempts + 1))), []);
    }

    method HandleStepError(key: string, o: StepOptions, a: Attempt, b: Body) returns (r: Reply<nat>)
      requires Valid() && (b.Fails? || b.RetryLater?)
      modifies this, session, suspension
      ensures r.With(View()) == Steps.HandleStepError(session.world, app, delivery, old(View()), key, o, a, b)
    {
      hide Steps.FailStep, Delay, RecordRetry, Limit, Policy;
      if b.Fails? && b.nonRetryable {
        var _ :- FailStep(key, a, b.err);
        return Unwound(Raised(b.err, true, true));
      }
      var retry := Policy(app, o);
      var limit := Limit(app, delivery, o, b.RetryLater?);
      if limit.None? || a.attempts < limit.value {
        var delay: nat;
        if b.RetryLater? && b.delay.Some? {
          delay := b.delay.value;
        } else {
          delay := ComputeBackoff(retry, a.attempts, session.world.random(session.ops));
        }
        r := RecordRetryOf(key, a, b, delay, limit);
        return;
      }
      var _ :- FailStep(key, a, ErrorOf(b));
      return Unwound(Raised(if b.RetryLater? then Exhausted(key, a.attempts) else b.err, true, false));
    }

    method RecordRetryOf(key: string, a: Attempt, b: Body, delay: nat, limit: Option<nat>) returns (r: Reply<nat>)
      requires Valid() && (b.Fails? || b.RetryLater?)
      modifies this, session, suspension
      ensures r.With(View()) == RecordRetry(session.world, delivery, old(View()), key, a, b, delay, limit)
    {
      hide RetryStep, Record.SaveStep, Earliest;
      var k := Key(activePhase, key);
      var step := RetryRecord(a, b, if delivery.mode.Settle? then None else Some(session.now + delay));
      var _ :- session.Save(session.rec.SaveStep(k, step), [Retried(k, a.attempts, limit)]);
      if delivery.mode.Settle? {
        return Returned(delay);
      }
      var signal := suspension.YieldToBullMQ(delay, k);
      return Unwound(signal);
    }

    /** The record of a failure that will be retried. */
    function RetryRecord(a: Attempt, b: Body, nextRunAt: Option<nat>): (step: Step)
      requires b.Fails? || b.RetryLater?
      reads this, session, suspension
      ensures step == RetryStep(View(), a, b, nextRunAt)
    {
      Step(Work, a.seqNo, StepRunning, Undefined, if b.Fails? then Some(b.err) else None, a.attempts, a.startedAt,
           None, if b.Fails? then Some(session.now) else None, nextRunAt)
    }

    method FailStep(key: string, a: Attempt, error: Err) returns (r: Reply<()>)
      requires Valid()
      modifies this, session
      ensures r.With(View()) == Steps.FailStep(session.world, old(View()), key, a, error)
    {
      if activePhase == Main {
        failedStepKey := Some(key);
      }
      var k := Key(activePhase, key);
      var step := Step(Work, a.seqNo, StepFailed, Undefined, Some(error), a.attempts, a.startedAt, None,
                       Some(session.now), None);
      r := session.Save(session.rec.SaveStep(k, step), [Ended(k, a.attempts)]);
    }

    method SleepFor(key: string, delay: int) returns (r: Reply<()>)
      requires Valid()
      modifies this, session, suspension
      ensures r.With(View()) == Steps.SleepFor(session.world, delivery, old(View()), key, delay)
    {
      hide Record.WakeStep, Record.BeginStep, Earliest;
      var k := Key(activePhase, key);
      if delivery.mode.Settle? && activePhase == Main {
        return if session.rec.Has(k, StepCompleted) then Returned(()) else Unwound(SettleIncomplete);
      }
      var now := session.now;
      var (rec, begin) := session.rec.BeginStep(k, Sleep, now, Some(now + MaxInt(0, delay)));
      if begin.StepMissing? || begin.StepCancelled? {
        return Unwound(CancelledRun);
      }
      if begin.StepExisting? {
        if begin.step.status.StepCompleted? {
          return Returned(());
        }
        var wakeAt := begin.step.nextRunAt.GetOr(0);
        if wakeAt > now {
          r := suspension.WaitOrYield(session, Sleep, wakeAt - now, k);
          return;
        }
        r := session.Save(session.rec.WakeStep(k, session.now), []);
        return;
      }
      var _ :- session.Save(rec, []);
      if delay <= 0 {
        r := session.Save(session.rec.WakeStep(k, now), []);
        return;
      }
      r := suspension.WaitOrYield(session, Sleep, delay, k);
    }
  }
}
