/** The per-delivery runtime as the object that drives a step executor. */
module Runtimes {
  import opened Values
  import opened Phases
  import opened Records
  import opened Processors
  import opened Steps
  import opened Ticks
  import opened Executors
  import opened Locks
  import MemoryStores

  const LOCK_TTL_MS: nat := 30_000
  const LOCK_CONTENTION_RETRY_MS: nat := 5_000

  /** What BullMQ is told, and when the job is due again if it was parked. */
  datatype Reported = Reported(outcome: Outcome, due: Option<nat>)

  function Suspend(r: Eff<Outcome>): Reported
    requires r.Go?
  {
    if r.value.Parked? then Reported(Suspended, Some(r.tick.now + r.value.resume.delay)) else Reported(r.value, None)
  }

  class DurableRuntime {
    const app: App
    const delivery: Delivery
    var runCount: nat
    var enteredCompensating: bool

    constructor (app: App, delivery: Delivery)
      ensures this.app == app && this.delivery == delivery && runCount == 1 && !enteredCompensating
    {
      this.app, this.delivery, runCount, enteredCompensating := app, delivery, 1, false;
    }

    ghost predicate Drives(ctx: StepExecutor) {
      ctx.Valid() && ctx.app == app && ctx.delivery == delivery
    }

    /**
     * One delivery from end to end. A contended lock parks the job briefly; otherwise the tick runs under
     * the lock, and a yield parks the job only once the lock is free again. A crash leaves the lock to expire.
     */
    method Run(locks: MemoryStores.MemoryStateStore, token: string, world: World, stored: Option<Record>,
               input: InitInput, now: nat, trace: seq<Act>)
      returns (r: Reply<Reported>)
      modifies this, locks`locks
      ensures HeldByOther(old(locks.locks), input.id, token, now) ==>
                r == Returned(Reported(Suspended, Some(now + LOCK_CONTENTION_RETRY_MS)))
                && locks.locks == old(locks.locks)
      ensures !HeldByOther(old(locks.locks), input.id, token, now) ==>
                var held := Acquire(old(locks.locks), input.id, token, LOCK_TTL_MS, now).0;
                var tick := Ticks.RunLocked(world, app, delivery, stored, input, now, trace);
                if tick.Go? then r == Returned(Suspend(tick)) && locks.locks == Release(held, input.id, token)
                else r == Unwound(tick.signal) && locks.locks == held
    {
      hide Ticks.RunLocked;
      var acquired := locks.AcquireLock(input.id, token, LOCK_TTL_MS, now);
      if !acquired {
        return Returned(Reported(Suspended, Some(now + LOCK_CONTENTION_RETRY_MS)));
      }
      var outcome, ctx := RunLocked(world, stored, input, now, trace);
      if outcome.Unwound? {
        return Unwound(outcome.signal);
      }
      locks.ReleaseLock(input.id, token);
      if outcome.value.Parked? {
        return Returned(Reported(Suspended, Some(ctx.session.now + outcome.value.resume.delay)));
      }
      return Returned(Reported(outcome.value, None));
    }

    /** The part of a delivery that runs under the instance lock. */
    method RunLocked(world: World, stored: Option<Record>, input: InitInput, now: nat, trace: seq<Act>)
      returns (r: Reply<Outcome>, ctx: StepExecutor)
      modifies this
      ensures r.With(ctx.View()) == Ticks.RunLocked(world, app, delivery, stored, input, now, trace)
      ensures var i := BeginTick(stored, input, now).instance;
              if i.status.Terminal() || world.crashAt == 0
              then runCount == old(runCount) && enteredCompensating == old(enteredCompensating)
              else runCount == i.runCount && enteredCompensating == i.status.Compensating?
    {
      hide Ticks.Execute;
      var rec := BeginTick(stored, input, now);
      var session := new Session(world, rec, now, trace);
      ctx := new StepExecutor(session, app, delivery);
      if rec.instance.status.Terminal() {
        return Returned(Replay(rec.instance)), ctx;
      }
      var begun := session.Save(rec, []);
      if begun.Unwound? {
        return Unwound(begun.signal), ctx;
      }
      runCount := rec.instance.runCount;
      enteredCompensating := rec.instance.status.Compensating?;
      r := Execute(ctx);
    }

    /** Run the processor and persist the outcome. */
    method Execute(ctx: StepExecutor) returns (r: Reply<Outcome>)
      requires Drives(ctx) && enteredCompensating == ctx.session.rec.instance.status.Compensating?
      modifies ctx, ctx.session, ctx.suspension
      ensures r.With(ctx.View()) == Ticks.Execute(ctx.session.world, app, delivery, old(ctx.View()))
    {
      hide Eval, FailureSequence, Ticks.Classify, SettleTrigger, Merge;
      var run := Process(ctx, app.main);
      match run
      case Returned(value) =>
        if enteredCompensating {
          r := RunFailureSequence(ctx, SettleTrigger(delivery, None));
          return;
        }
        var settled :- End(ctx, Finish(value));
        return Returned(if settled then RunCompleted(value) else Suspended);
      case Unwound(signal) =>
        match signal
        case Crash => return Unwound(Crash);
        case Yield =>
          var _ :- SaveInstanceFields(ctx, NO_CHANGE.(status := Some(Yielded)));
          r := ParkJob(ctx);
        case CancelledRun => r := Cancelled(ctx);
        case SettleIncomplete => r := RunFailureSequence(ctx, SettleTrigger(delivery, None));
        case Raised(err, stepScoped, unrecoverable) =>
          if enteredCompensating {
            r := RunFailureSequence(ctx, SettleTrigger(delivery, Some(err)));
          } else {
            r := Classify(ctx, err, stepScoped, unrecoverable);
          }
    }

    /** Call user code: hand it what its steps and sleeps yield until it returns, throws or is unwound. */
    method Process(ctx: StepExecutor, p: Processor) returns (r: Reply<Value>)
      requires Drives(ctx)
      modifies ctx, ctx.session, ctx.suspension
      ensures r.With(ctx.View()) == Eval(ctx.session.world, app, delivery, old(ctx.View()), p, [])
    {
      hide ExecuteStep, Steps.SleepFor;
      var seen: seq<Seen> := [];
      while true
        invariant Eval(ctx.session.world, app, delivery, ctx.View(), p, seen)
                  == Eval(ctx.session.world, app, delivery, old(ctx.View()), p, [])
        decreases p.Left(seen)
      {
        match p.At(seen)
        case Return(value) => return Returned(value);
        case Throw(err, unrecoverable, marked) => return Unwound(Raised(err, marked, unrecoverable));
        case Pause(key, delay) =>
          var _ :- ctx.SleepFor(key, delay);
          seen := seen + [Slept];
        case Call(key, o, recovery) =>
          var step := ctx.Execute(key, o, Nothing);
          if step.Returned? {
            seen := seen + [Got(step.value)];
          } else if !recovery.Uncaught? && step.signal.Raised? {
            seen := seen + [CaughtOf(recovery, step.signal.err)];
          } else {
            return Unwound(step.signal);
          }
      }
    }

    method SaveInstanceFields(ctx: StepExecutor, patch: Patch) returns (r: Reply<()>)
      requires Drives(ctx)
      modifies ctx.session
      ensures r.With(ctx.View()) == SaveInstance(ctx.session.world, old(ctx.View()), patch)
    {
      r := ctx.session.Save(ctx.session.rec.Update(patch, ctx.session.now), []);
    }

    /** The terminal transition, refused when another holder has taken the lock over. */
    method End(ctx: StepExecutor, ending: Ending) returns (r: Reply<bool>)
      requires Drives(ctx)
      modifies ctx.session
      ensures r.With(ctx.View()) == EndRun(ctx.session.world, old(ctx.View()), ending)
    {
      var session := ctx.session;
      var _ :- session.Save(if session.world.fenced then session.rec else session.rec.End(ending, session.now), []);
      return Returned(!session.world.fenced);
    }

    method Cancelled(ctx: StepExecutor) returns (r: Reply<Outcome>)
      requires Drives(ctx)
      modifies ctx.session
      ensures r.With(ctx.View()) == CancelRun(ctx.session.world, old(ctx.View()))
    {
      var _ :- End(ctx, Cancel);
      return Returned(RunCancelled);
    }

    method ParkJob(ctx: StepExecutor) returns (r: Reply<Outcome>)
      requires Drives(ctx)
      modifies ctx.suspension
      ensures r.With(ctx.View()) == Park(old(ctx.View()))
    {
      var resume := ctx.suspension.TakePendingResume();
      return Returned(Parked(resume.GetOr(DEFAULT_RESUME)));
    }

    /** An error escaped the processor of a tick that was not already compensating. */
    method Classify(ctx: StepExecutor, err: Err, stepScoped: bool, unrecoverable: bool) returns (r: Reply<Outcome>)
      requires Drives(ctx)
      modifies ctx, ctx.session, ctx.suspension
      ensures r.With(ctx.View())
              == Ticks.Classify(ctx.session.world, app, delivery, old(ctx.View()), err, stepScoped, unrecoverable)
    {
      hide FailureSequence, Merge;
      var hopeless := unrecoverable || err.name == "UnrecoverableError" || delivery.discarded;
      var attemptsRemain := delivery.attempt < delivery.attemptsTotal;
      if delivery.mode.Normal? && !stepScoped && !hopeless && attemptsRemain {
        var _ :- SaveInstanceFields(ctx, NO_CHANGE.(status := Some(Yielded)));
        return Returned(Retriable(err));
      }
      if ctx.rollbacks == [] && app.onFailure.None? {
        if ctx.failedStepKey.Some? {
          var _ :- SaveInstanceFields(ctx, NO_CHANGE.(failedStep := ctx.failedStepKey));
        }
        var _ :- End(ctx, Fail(err));
        return Returned(RunFailed(err));
      }
      r := RunFailureSequence(ctx, err);
    }

    /** Compensate, tell the handler, end the run; a yield leaves it compensating. */
    method RunFailureSequence(ctx: StepExecutor, error: Err) returns (r: Reply<Outcome>)
      requires Drives(ctx)
      modifies ctx, ctx.session, ctx.suspension
      ensures r.With(ctx.View()) == FailureSequence(ctx.session.world, app, delivery, old(ctx.View()), error)
    {
      hide Compensate, Ticks.HandleFailure, Ticks.SettleTerminal, Merge, CompletedMainSteps, Unwind, SaveInstance;
      var current := ctx.session.rec.instance;
      if !current.status.Compensating? {
        var _ :- SaveInstanceFields(ctx, NO_CHANGE.(status := Some(Compensating), failureError := Some(error),
                                                    failedStep := ctx.failedStepKey));
      }
      var trigger := current.failureError.GetOr(error);
      var failedStep := current.failedStep.OrElse(ctx.failedStepKey);
      var report := RunRegistered(ctx, trigger);
      if report.Unwound? {
        r := UnwindSequence(ctx, report.signal);
        return;
      }
      var info := FailureInfo(trigger, failedStep, CompletedMainSteps(ctx.session.rec), report.value);
      var handled := HandleFailure(ctx, info);
      if handled.Unwound? {
        r := UnwindSequence(ctx, handled.signal);
        return;
      }
      r := SettleTerminal(ctx, trigger, report.value);
    }

    method UnwindSequence(ctx: StepExecutor, signal: Signal) returns (r: Reply<Outcome>)
      requires Drives(ctx)
      modifies ctx, ctx.session, ctx.suspension
      ensures r.With(ctx.View()) == Unwind(ctx.session.world, old(ctx.View()), signal)
    {
      match signal
      case Yield => r := ParkJob(ctx);
      case CancelledRun => r := Cancelled(ctx);
      case _ => return Unwound(signal);
    }

    /** Compensations latest step first. */
    method RunRegistered(ctx: StepExecutor, error: Err) returns (r: Reply<Report>)
      requires Drives(ctx)
      modifies ctx, ctx.session, ctx.suspension
      ensures r.With(ctx.View()) == Compensate(ctx.session.world, app, delivery, old(ctx.View()), error)
    {
      hide ExecuteStep, LatestFirst;
      var report := NO_REPORT;
      var registered := ctx.rollbacks;
      if registered == [] {
        return Returned(report);
      }
      var ordered := LatestFirst(registered);
      ctx.SetPhase(Compensation);
      ghost var start := ctx.View();
      assert ordered[0..] == ordered;
      for i := 0 to |ordered|
        invariant Ticks.RunRollbacks(ctx.session.world, app, delivery, ctx.View(), ordered[i..], error, report)
                  == Ticks.RunRollbacks(ctx.session.world, app, delivery, start, ordered, error, NO_REPORT)
      {
        var rb := ordered[i];
        assert ordered[i..][0] == rb && ordered[i..][1..] == ordered[i + 1..];
        var step := ctx.Execute(rb.key, RollbackOptions(app, rb), Undo(rb.output, error));
        if step.Returned? {
          report := report.(rolledBack := report.rolledBack + [rb.key]);
        } else if step.signal.Raised? {
          report := report.(failed := report.failed + [(rb.key, step.signal.err)]);
        } else {
          return Unwound(step.signal);
        }
      }
      return Returned(report);
    }

    /** A real error of the handler itself is swallowed. */
    method HandleFailure(ctx: StepExecutor, info: FailureInfo) returns (r: Reply<()>)
      requires Drives(ctx)
      modifies ctx, ctx.session, ctx.suspension
      ensures r.With(ctx.View()) == Ticks.HandleFailure(ctx.session.world, app, delivery, old(ctx.View()), info)
    {
      hide Eval;
      match app.onFailure
      case None => return Returned(());
      case Some(handler) =>
        ctx.SetPhase(Failure);
        ctx.session.trace := ctx.session.trace + [Handled(info)];
        var told := Process(ctx, handler(info));
        if told.Unwound? && !told.signal.Raised? && !told.signal.SettleIncomplete? {
          return Unwound(told.signal);
        }
        return Returned(());
    }

    method SettleTerminal(ctx: StepExecutor, error: Err, report: Report) returns (r: Reply<Outcome>)
      requires Drives(ctx)
      modifies ctx.session
      ensures r.With(ctx.View()) == Ticks.SettleTerminal(ctx.session.world, old(ctx.View()), error, report)
    {
      if |report.rolledBack| > 0 || |report.failed| > 0 {
        var _ :- SaveInstanceFields(ctx, NO_CHANGE.(compensation := Some(report)));
      }
      var settled :- End(ctx, if |report.failed| > 0 then FailCompensation(error) else Fail(error));
      return Returned(if settled then RunFailed(error) else Suspended);
    }
  }
}
