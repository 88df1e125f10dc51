/** One delivery of a run, from the begin-tick write to the outcome BullMQ is told. */
module Ticks {
  import opened Values
  import opened Phases
  import opened Retries
  import opened Records
  import opened Processors
  import opened Steps

  datatype Outcome =
    | RunCompleted(output: Value)
    | Suspended
    | Retriable(error: Err)
    | RunFailed(error: Err)
    | RunCancelled
    | Parked(resume: Resume)

  const DEFAULT_RESUME_DELAY_MS: nat := 1_000
  const DEFAULT_RESUME := Resume(DEFAULT_RESUME_DELAY_MS, None)

  const DEFAULT_ROLLBACK_RETRY :=
    RetryOptions(Some(5.0), Some(Shaped(Some(Exponential), Some(1_000), None, Some(30_000))), None, None)

  const INSTANCE_FAILED := Err("Error", "Instance failed")
  const RESUMED_COMPENSATION := Err("Error", "durable run failed (resumed compensation)")

  const NO_REPORT := Report([], [])

  function SaveInstance(w: World, t: Tick, patch: Patch): Eff<()> {
    Save(w, t, t.rec.Update(patch, t.now))
  }

  /** The terminal transition, refused when another holder has taken the lock over. */
  function EndRun(w: World, t: Tick, ending: Ending): Eff<bool> {
    var (t1, _) :- Save(w, t, if w.fenced then t.rec else t.rec.End(ending, t.now));
    Go(t1, !w.fenced)
  }

  function CancelRun(w: World, t: Tick): Eff<Outcome> {
    var (t1, _) :- EndRun(w, t, Cancel);
    Go(t1, RunCancelled)
  }

  function Park(t: Tick): Eff<Outcome> {
    Go(t.(resume := None), Parked(t.resume.GetOr(DEFAULT_RESUME)))
  }

  function SettleTrigger(d: Delivery, fallback: Option<Err>): Err {
    d.settleError.OrElse(fallback).GetOr(RESUMED_COMPENSATION)
  }

  // -- The failure sequence ----------------------------------------------------

  /** Insert into a list sorted by descending sequence number, after its equals. */
  function InsertByAge(r: Rollback, rest: seq<Rollback>): (sorted: seq<Rollback>)
    ensures forall i :: 0 <= i < |sorted| ==> sorted[i] == r || sorted[i] in rest
  {
    if rest == [] || r.seqNo > rest[0].seqNo then [r] + rest else [rest[0]] + InsertByAge(r, rest[1..])
  }

  /** The registered compensations, latest step first. */
  function LatestFirst(registered: seq<Rollback>): seq<Rollback> {
    if registered == [] then []
    else InsertByAge(registered[|registered| - 1], LatestFirst(registered[..|registered| - 1]))
  }

  function RollbackOptions(app: App, r: Rollback): StepOptions {
    StepOptions(Some(r.retry.OrElse(app.defaultRollbackRetry).GetOr(DEFAULT_ROLLBACK_RETRY)), None)
  }

  /** Compensate each of `ordered` in turn; a compensation that fails for good does not block the rest. */
  function RunRollbacks(w: World, app: App, d: Delivery, t: Tick, ordered: seq<Rollback>, error: Err, report: Report)
    : Eff<Report>
    decreases |ordered|
  {
    if ordered == [] then Go(t, report)
    else
      var r := ordered[0];
      var step := ExecuteStep(w, app, d, t, r.key, RollbackOptions(app, r), Undo(r.output, error));
      if step.Go? then
        RunRollbacks(w, app, d, step.tick, ordered[1..], error, report.(rolledBack := report.rolledBack + [r.key]))
      else if step.signal.Raised? then
        RunRollbacks(w, app, d, step.tick, ordered[1..], error,
                     report.(failed := report.failed + [(r.key, step.signal.err)]))
      else Stop(step.tick, step.signal)
  }

  function Compensate(w: World, app: App, d: Delivery, t: Tick, error: Err): Eff<Report> {
    if t.rollbacks == [] then Go(t, NO_REPORT)
    else RunRollbacks(w, app, d, t.(phase := Compensation), LatestFirst(t.rollbacks), error, NO_REPORT)
  }

  function CompletedMainSteps(rec: Record): set<string> {
    set k | k in rec.steps && k.phase == Main && rec.steps[k].kind == Work && rec.steps[k].status == StepCompleted
      :: k.name
  }

  /** Run `onFailure`, if there is one. A real error of its own is logged and swallowed. */
  function HandleFailure(w: World, app: App, d: Delivery, t: Tick, info: FailureInfo): Eff<()> {
    match app.onFailure
    case None => Go(t, ())
    case Some(handler) =>
      var r := Eval(w, app, d, t.(phase := Failure, trace := t.trace + [Handled(info)]), handler(info), []);
      if r.Go? || r.signal.Raised? || r.signal.SettleIncomplete? then Go(r.tick, ()) else Stop(r.tick, r.signal)
  }

  function SettleTerminal(w: World, t: Tick, error: Err, report: Report): Eff<Outcome> {
    var (t1, _) :- if report != NO_REPORT
                   then SaveInstance(w, t, NO_CHANGE.(compensation := Some(report)))
                   else Go(t, ());
    var (t2, settled) :- EndRun(w, t1, if report.failed != [] then FailCompensation(error) else Fail(error));
    Go(t2, if settled then RunFailed(error) else Suspended)
  }

  /** A yield or a cancellation inside the failure sequence; the run stays `compensating` when it yields. */
  function Unwind(w: World, t: Tick, signal: Signal): Eff<Outcome> {
    match signal
    case Yield => Park(t)
    case CancelledRun => CancelRun(w, t)
    case _ => Stop(t, signal)
  }

  function FailureSequence(w: World, app: App, d: Delivery, t: Tick, error: Err): Eff<Outcome> {
    var current := t.rec.instance;
    var (t1, _) :- if current.status.Compensating? then Go(t, ())
                   else SaveInstance(w, t, NO_CHANGE.(status := Some(Compensating), failureError := Some(error),
                                                      failedStep := t.failedStep));
    var trigger := current.failureError.GetOr(error);
    var failedStep := current.failedStep.OrElse(t.failedStep);
    var undone := Compensate(w, app, d, t1, trigger);
    if undone.Stop? then Unwind(w, undone.tick, undone.signal)
    else
      var info := FailureInfo(trigger, failedStep, CompletedMainSteps(undone.tick.rec), undone.value);
      var handled := HandleFailure(w, app, d, undone.tick, info);
      if handled.Stop? then Unwind(w, handled.tick, handled.signal)
      else SettleTerminal(w, handled.tick, trigger, undone.value)
  }

  // -- One tick ----------------------------------------------------------------

  /** Nothing to compensate and nobody to tell: fail without ever being `compensating`. */
  function FailFast(w: World, t: Tick, err: Err): Eff<Outcome> {
    var (t1, _) :- if t.failedStep.Some?
                   then SaveInstance(w, t, NO_CHANGE.(failedStep := t.failedStep))
                   else Go(t, ());
    var (t2, _) :- EndRun(w, t1, Fail(err));
    Go(t2, RunFailed(err))
  }

  /** An error escaped the processor of a tick that was not already compensating. */
  function Classify(w: World, app: App, d: Delivery, t: Tick, err: Err, stepScoped: bool, unrecoverable: bool)
    : Eff<Outcome>
  {
    var hopeless := unrecoverable || err.name == "UnrecoverableError" || d.discarded;
    if d.mode.Normal? && !stepScoped && !hopeless && d.attempt < d.attemptsTotal then
      var (t1, _) :- SaveInstance(w, t, NO_CHANGE.(status := Some(Yielded)));
      Go(t1, Retriable(err))
    else if t.rollbacks == [] && app.onFailure.None? then FailFast(w, t, err)
    else FailureSequence(w, app, d, t, err)
  }

  function Conclude(w: World, app: App, d: Delivery, entered: bool, run: Eff<Value>): Eff<Outcome> {
    var t := run.tick;
    if run.Go? then
      if entered then FailureSequence(w, app, d, t, SettleTrigger(d, None))
      else
        var (t1, settled) :- EndRun(w, t, Finish(run.value));
        Go(t1, if settled then RunCompleted(run.value) else Suspended)
    else
      match run.signal
      case Crash => Stop(t, Crash)
      case Yield =>
        var (t1, _) :- SaveInstance(w, t, NO_CHANGE.(status := Some(Yielded)));
        Park(t1)
      case CancelledRun => CancelRun(w, t)
      case SettleIncomplete => FailureSequence(w, app, d, t, SettleTrigger(d, None))
      case Raised(err, stepScoped, unrecoverable) =>
        if entered then FailureSequence(w, app, d, t, SettleTrigger(d, Some(err)))
        else Classify(w, app, d, t, err, stepScoped, unrecoverable)
  }

  function Execute(w: World, app: App, d: Delivery, t: Tick): Eff<Outcome> {
    Conclude(w, app, d, t.rec.instance.status.Compensating?, Eval(w, app, d, t, app.main, []))
  }

  /** A delivery of a run that has already ended repeats its outcome. */
  function Replay(i: Instance): Outcome
    requires i.status.Terminal()
  {
    match i.status
    case Completed => RunCompleted(i.output)
    case Cancelled => RunCancelled
    case _ => RunFailed(i.error.GetOr(INSTANCE_FAILED))
  }

  function Opening(rec: Record, now: nat, trace: seq<Act>): Tick {
    Tick(rec, now, 0, Main, [], None, None, trace)
  }

  /** The part of a delivery that runs under the instance lock. */
  function RunLocked(w: World, app: App, d: Delivery, stored: Option<Record>, input: InitInput, now: nat,
                     trace: seq<Act>)
    : Eff<Outcome>
  {
    var rec := BeginTick(stored, input, now);
    if rec.instance.status.Terminal() then Go(Opening(rec, now, trace), Replay(rec.instance))
    else
      var (t, _) :- Save(w, Opening(rec, now, trace), rec);
      Execute(w, app, d, t)
  }
}
