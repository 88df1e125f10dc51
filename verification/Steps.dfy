/** The step state machine of one delivery, as functions from tick state to tick state. */
module Steps {
  import opened Values
  import opened Phases
  import opened Retries
  import opened Records
  import opened Processors
  import Text

  /** A live delivery, or the post-mortem one that settles a job which already failed. */
  datatype Mode = Normal | Settle

  /** The job side of a delivery. `attempt` is `attemptsMade + 1`. */
  datatype Delivery = Delivery(mode: Mode, attempt: nat, attemptsTotal: nat, discarded: bool, settleError: Option<Err>)

  /** A compensation registered by a completed step. */
  datatype Rollback = Rollback(key: string, seqNo: nat, output: Value, retry: Option<RetryOptions>)

  /** What a compensation handler is called with. */
  datatype Argument = Nothing | Undo(output: Value, error: Err)

  /** The history a delivery leaves behind. */
  datatype Act =
    | Started(key: Key, attempt: nat, at: nat, argument: Argument)
    | Retried(key: Key, attempt: nat, limit: Option<nat>)
    | Ended(key: Key, attempt: nat)
    | Handled(info: FailureInfo)

  /** A wish to be delivered again: after how long, and for which step. */
  datatype Resume = Resume(delay: nat, awaits: Option<Key>)

  datatype Tick = Tick(
    rec: Record, now: nat, ops: nat,
    phase: Phase, rollbacks: seq<Rollback>, failedStep: Option<string>,
    resume: Option<Resume>, trace: seq<Act>)

  /** How a tick is cut short: the process dying, or one of the errors the runtime interprets. */
  datatype Signal =
    | Crash
    | Yield
    | CancelledRun
    | SettleIncomplete
    | Raised(err: Err, stepScoped: bool, unrecoverable: bool)

  /** The outcome of a piece of a tick: a value, or a signal that unwinds its callers. */
  datatype Eff<+T> = Go(tick: Tick, value: T) | Stop(tick: Tick, signal: Signal) {
    predicate IsFailure() {
      Stop?
    }

    function PropagateFailure<U>(): Eff<U>
      requires Stop?
    {
      Stop(tick, signal)
    }

    function Extract(): (Tick, T)
      requires Go?
    {
      (tick, value)
    }
  }

  const NO_SUSPEND := Err("Error", "bullmq-durable: cannot suspend during stall settlement (no job to delay)")
  const NO_SLEEP := Err("Error", "bullmq-durable: ctx.sleep is not supported during stall settlement")

  function MissingError(key: string): Err {
    Err("Error", "Step \"" + key + "\" failed")
  }

  function Exhausted(key: string, attempts: nat): Err {
    Err("DurableRetriesExhaustedError", "Step \"" + key + "\" failed after " + Text.Decimal(attempts) + " attempt(s)")
  }

  /** One operation goes by; the process may die right after it. */
  function Pass(w: World, t: Tick): Eff<()> {
    var next := t.(ops := t.ops + 1, now := t.now + w.lag(t.ops));
    if t.ops >= w.crashAt then Stop(next, Crash) else Go(next, ())
  }

  function Save(w: World, t: Tick, rec: Record, acts: seq<Act> := []): Eff<()> {
    Pass(w, t.(rec := rec, trace := t.trace + acts))
  }

  // -- Waiting ---------------------------------------------------------------

  function Earliest(pending: Option<Resume>, r: Resume): Resume {
    if pending.None? || r.delay < pending.value.delay then r else pending.value
  }

  /** Unwind the tick; the job is delivered again when step `k` is due. */
  function YieldToBullMQ<T>(d: Delivery, t: Tick, delay: nat, k: Key): Eff<T> {
    if d.mode.Settle? then Stop(t, Raised(NO_SUSPEND, false, false))
    else Stop(t.(resume := Some(Earliest(t.resume, Resume(delay, Some(k))))), Yield)
  }

  function WaitBackoff(d: Delivery, t: Tick, delay: nat, k: Key): Eff<()> {
    if d.mode.Settle? then Go(t.(now := t.now + delay), ()) else YieldToBullMQ(d, t, delay, k)
  }

  function WaitSleep<T>(d: Delivery, t: Tick, delay: nat, k: Key): Eff<T> {
    if d.mode.Settle? then Stop(t, Raised(NO_SLEEP, false, false)) else YieldToBullMQ(d, t, delay, k)
  }

  // -- Steps -----------------------------------------------------------------

  /** A live attempt of a step. */
  datatype Attempt = Attempt(attempts: nat, seqNo: nat, startedAt: nat)

  datatype Begin = Replayed(value: Value) | Live(attempt: Attempt)

  function Register(t: Tick, key: string, seqNo: nat, output: Value, o: StepOptions): Tick {
    if t.phase == Main && o.onRollback.Some?
    then t.(rollbacks := t.rollbacks + [Rollback(key, seqNo, output, o.onRollback.value.retry)])
    else t
  }

  function MarkFailed(t: Tick, key: string): Tick {
    if t.phase == Main then t.(failedStep := Some(key)) else t
  }

  function RunningStep(a: Attempt): Step {
    Step(Work, a.seqNo, StepRunning, Undefined, None, a.attempts, a.startedAt, None, None, None)
  }

  /** The error a failed record replays. */
  function StoredError(s: Step, key: string): Err {
    s.error.GetOr(MissingError(key))
  }

  /** What a recovering call is handed when its failed record replays. */
  function Retold(recovery: Recovery, s: Step, key: string): Seen {
    CaughtOf(recovery, StoredError(s, key))
  }

  function ReplaySettledStep(t: Tick, key: string, o: StepOptions): Eff<Value> {
    var k := Key(t.phase, key);
    if t.rec.Has(k, StepCompleted) then
      var output := Clone(t.rec.steps[k].result);
      Go(Register(t, key, t.rec.steps[k].seqNo, output, o), output)
    else if t.rec.Has(k, StepFailed) then
      Stop(t.(failedStep := Some(key)), Raised(StoredError(t.rec.steps[k], key), true, false))
    else Stop(t, SettleIncomplete)
  }

  function BeginOrReplay(w: World, d: Delivery, t: Tick, key: string, o: StepOptions): Eff<Begin> {
    var k := Key(t.phase, key);
    var (rec, begin) := t.rec.BeginStep(k, Work, t.now, None);
    match begin
    case StepMissing => Stop(t, CancelledRun)
    case StepCancelled => Stop(t, CancelledRun)
    case StepCreated(seqNo) =>
      var (t1, _) :- Save(w, t, rec);
      Go(t1, Live(Attempt(1, seqNo, t.now)))
    case StepExisting(s) =>
      match s.status
      case StepCompleted =>
        Go(Register(t, key, s.seqNo, Clone(s.result), o), Replayed(Clone(s.result)))
      case StepFailed =>
        Stop(MarkFailed(t, key), Raised(StoredError(s, key), true, false))
      case StepRunning =>
        var (t1, _) :- if s.nextRunAt.Some? && s.nextRunAt.value > t.now
                       then WaitBackoff(d, t, s.nextRunAt.value - t.now, k)
                       else Go(t, ());
        var a := Attempt(s.attempts + 1, s.seqNo, s.startedAt);
        var (t2, _) :- Save(w, t1, t1.rec.SaveStep(k, RunningStep(a)));
        Go(t2, Live(a))
  }

  function Policy(app: App, o: StepOptions): (retry: ResolvedRetry)
    ensures retry.attempts >= 1 && 0.0 <= retry.jitter <= 1.0
  {
    ResolveRetry(o.retry, app.defaultRetry)
  }

  function ConfiguredAttempts(o: Option<RetryOptions>): Option<real> {
    if o.Some? then o.value.attempts else None
  }

  /** The attempts a step's own options or the worker default configure. */
  function Configured(app: App, o: StepOptions): Option<real> {
    ConfiguredAttempts(o.retry).OrElse(ConfiguredAttempts(app.defaultRetry))
  }

  /** The attempt budget for this kind of failure; `None` is an unbounded poll. */
  function Limit(app: App, d: Delivery, o: StepOptions, later: bool): (limit: Option<nat>)
    ensures limit.Some? ==> limit.value == Policy(app, o).attempts
    ensures d.mode.Settle? ==> limit.Some?
  {
    if later && Configured(app, o).None? && d.mode.Normal? then None else Some(Policy(app, o).attempts)
  }

  /** A body's failure, with the complaint a nested suspension raises during settlement. */
  function Thrown(d: Delivery, b: Body): Body {
    if b.NestedYield? && d.mode.Settle? then Fails(NO_SUSPEND, false) else b
  }

  function ErrorOf(b: Body): Err
    requires b.Fails? || b.RetryLater?
  {
    if b.Fails? then b.err else Err("RetryLaterError", b.reason)
  }

  function FailStep(w: World, t: Tick, key: string, a: Attempt, error: Err): Eff<()> {
    var k := Key(t.phase, key);
    var step := Step(Work, a.seqNo, StepFailed, Undefined, Some(error), a.attempts, a.startedAt,
                     None, Some(t.now), None);
    Save(w, MarkFailed(t, key), t.rec.SaveStep(k, step), [Ended(k, a.attempts)])
  }

  /** The record a retryable failure leaves: still running, with an error unless it was a poll. */
  function RetryStep(t: Tick, a: Attempt, b: Body, nextRunAt: Option<nat>): Step
    requires b.Fails? || b.RetryLater?
  {
    var failed := b.Fails?;
    Step(Work, a.seqNo, StepRunning, Undefined, if failed then Some(b.err) else None, a.attempts, a.startedAt,
         None, if failed then Some(t.now) else None, nextRunAt)
  }

  /** Record a failure to be retried: a settlement hands back the delay, a live delivery yields. */
  function RecordRetry(w: World, d: Delivery, t: Tick, key: string, a: Attempt, b: Body, delay: nat, limit: Option<nat>)
    : (r: Eff<nat>)
    requires b.Fails? || b.RetryLater?
    ensures r.Go? ==> d.mode.Settle?
  {
    var k := Key(t.phase, key);
    var acts := [Retried(k, a.attempts, limit)];
    if d.mode.Settle? then
      var (t1, _) :- Save(w, t, t.rec.SaveStep(k, RetryStep(t, a, b, None)), acts);
      Go(t1, delay)
    else
      var (t1, _) :- Save(w, t, t.rec.SaveStep(k, RetryStep(t, a, b, Some(t.now + delay))), acts);
      YieldToBullMQ(d, t1, delay, k)
  }

  /** A body failed: give up, yield until the retry is due, or hand back the delay to wait in process. */
  function HandleStepError(w: World, app: App, d: Delivery, t: Tick, key: string, o: StepOptions, a: Attempt, b: Body)
    : (r: Eff<nat>)
    requires b.Fails? || b.RetryLater?
    ensures r.Go? ==> d.mode.Settle? && a.attempts < Policy(app, o).attempts
  {
    if b.Fails? && b.nonRetryable then
      var (t1, _) :- FailStep(w, t, key, a, b.err);
      Stop(t1, Raised(b.err, true, true))
    else
      var limit := Limit(app, d, o, b.RetryLater?);
      if limit.None? || a.attempts < limit.value then
        var delay := if b.RetryLater? && b.delay.Some? then b.delay.value
                     else Delay(Policy(app, o), a.attempts, w.random(t.ops));
        RecordRetry(w, d, t, key, a, b, delay, limit)
      else
        var (t1, _) :- FailStep(w, t, key, a, ErrorOf(b));
        Stop(t1, Raised(if b.RetryLater? then Exhausted(key, a.attempts) else b.err, true, false))
  }

  /** Persist the result of a body that succeeded. */
  function Checkpoint(w: World, t: Tick, k: Key, a: Attempt, output: Value): Eff<()> {
    var step := Step(Work, a.seqNo, StepCompleted, output, None, a.attempts, a.startedAt, Some(t.now), None, None);
    Save(w, t, t.rec.SaveStep(k, step), [Ended(k, a.attempts)])
  }

  /** Wait, then take up the attempt after `a`. */
  function Retake(w: World, d: Delivery, t: Tick, k: Key, a: Attempt, delay: nat): Eff<()> {
    var (t1, _) :- WaitBackoff(d, t, delay, k);
    Save(w, t1, t1.rec.SaveStep(k, RunningStep(a.(attempts := a.attempts + 1))))
  }

  /** Run the body once: its checkpointed value, or nothing when the next attempt has been taken up. */
  function RunAttempt(w: World, app: App, d: Delivery, t: Tick, key: string, o: StepOptions, arg: Argument, a: Attempt)
    : (r: Eff<Option<Value>>)
    ensures r.Go? && r.value.None? ==> a.attempts < Policy(app, o).attempts
  {
    var k := Key(t.phase, key);
    var (t1, _) :- Pass(w, t.(trace := t.trace + [Started(k, a.attempts, t.now, arg)]));
    var outcome := Thrown(d, w.body(k, a.attempts));
    match outcome
    case Succeeds(value) =>
      var output := Clone(value);
      var (t2, _) :- Checkpoint(w, t1, k, a, output);
      Go(Register(t2, key, a.seqNo, output, o), Some(output))
    case NestedYield(wait) => Stop(t1.(resume := Some(Earliest(t1.resume, Resume(wait, Some(k))))), Yield)
    case NestedCancel => Stop(t1, CancelledRun)
    case _ =>
      var (t2, delay) :- HandleStepError(w, app, d, t1, key, o, a, outcome);
      var (t3, _) :- Retake(w, d, t2, k, a, delay);
      Go(t3, None)
  }

  /** Run the body until it checkpoints, fails for good, or yields. */
  function AttemptLoop(w: World, app: App, d: Delivery, t: Tick, key: string, o: StepOptions, arg: Argument, a: Attempt)
    : Eff<Value>
    decreases if a.attempts < Policy(app, o).attempts then Policy(app, o).attempts - a.attempts else 0
  {
    var (t1, done) :- RunAttempt(w, app, d, t, key, o, arg, a);
    if done.Some? then Go(t1, done.value)
    else AttemptLoop(w, app, d, t1, key, o, arg, a.(attempts := a.attempts + 1))
  }

  predicate SettlementReplay(d: Delivery, t: Tick) {
    d.mode.Settle? && t.phase == Main
  }

  function ExecuteStep(w: World, app: App, d: Delivery, t: Tick, key: string, o: StepOptions,
                       arg: Argument): Eff<Value> {
    if SettlementReplay(d, t) then ReplaySettledStep(t, key, o)
    else
      var (t1, begin) :- BeginOrReplay(w, d, t, key, o);
      match begin
      case Replayed(value) => Go(t1, value)
      case Live(a) => AttemptLoop(w, app, d, t1, key, o, arg, a)
  }

  function SleepFor(w: World, d: Delivery, t: Tick, key: string, delay: int): Eff<()> {
    var k := Key(t.phase, key);
    if SettlementReplay(d, t) then
      if t.rec.Has(k, StepCompleted) then Go(t, ()) else Stop(t, SettleIncomplete)
    else
      var wait := MaxInt(0, delay);
      var (rec, begin) := t.rec.BeginStep(k, Sleep, t.now, Some(t.now + wait));
      match begin
      case StepMissing => Stop(t, CancelledRun)
      case StepCancelled => Stop(t, CancelledRun)
      case StepExisting(s) =>
        if s.status.StepCompleted? then Go(t, ())
        else
          var (t1, _) :- if s.nextRunAt.GetOr(0) > t.now then WaitSleep(d, t, s.nextRunAt.GetOr(0) - t.now, k)
                         else Go(t, ());
          Save(w, t1, t1.rec.WakeStep(k, t1.now))
      case StepCreated(_) =>
        var (t1, _) :- Save(w, t, rec);
        if delay <= 0 then Save(w, t1, t1.rec.WakeStep(k, t.now))
        else WaitSleep(d, t1, delay, k)
  }

  /** After this call the processor goes on. */
  predicate GoesOn(recovery: Recovery, c: Eff<Value>) {
    c.Go? || (!recovery.Uncaught? && c.signal.Raised?)
  }

  /** What it is handed. */
  function SeenOf(recovery: Recovery, c: Eff<Value>): Seen
    requires GoesOn(recovery, c)
  {
    if c.Go? then Got(c.value) else CaughtOf(recovery, c.signal.err)
  }

  /** Run a processor in the current phase, from what it has been handed so far. */
  function Eval(w: World, app: App, d: Delivery, t: Tick, p: Processor, seen: seq<Seen>): Eff<Value>
    decreases p.Left(seen)
  {
    match p.At(seen)
    case Return(value) => Go(t, value)
    case Throw(err, unrecoverable, marked) => Stop(t, Raised(err, marked, unrecoverable))
    case Pause(key, delay) =>
      var (t1, _) :- SleepFor(w, d, t, key, delay);
      Eval(w, app, d, t1, p, seen + [Slept])
    case Call(key, o, recovery) =>
      var c := ExecuteStep(w, app, d, t, key, o, Nothing);
      if GoesOn(recovery, c) then Eval(w, app, d, c.tick, p, seen + [SeenOf(recovery, c)])
      else Stop(c.tick, c.signal)
  }
}
