/** Persisted state of one run, and each store operation as a function on it. */
module Records {
  import opened Values
  import opened Phases

  datatype Status =
    | Running
    | Yielded
    | Compensating
    | Completed
    | Failed
    | CompensationFailed
    | Cancelled
  {
    predicate Terminal() {
      Completed? || Failed? || CompensationFailed? || Cancelled?
    }
  }

  const TERMINAL_STATUSES: seq<Status> := [Completed, Failed, Cancelled, CompensationFailed]

  /** What became of each compensation. */
  datatype Report = Report(rolledBack: seq<string>, failed: seq<(string, Err)>)

  datatype Instance = Instance(
    id: string, queueName: string, jobName: string, originalJobId: string,
    status: Status,
    input: Value, output: Value,
    error: Option<Err>, failureError: Option<Err>, failedStep: Option<string>,
    compensation: Option<Report>,
    runCount: nat, resumeSeq: Option<nat>, stepSeq: Option<nat>,
    createdAt: nat, updatedAt: nat, completedAt: Option<nat>, failedAt: Option<nat>)

  /** A partial instance; `None` and `Undefined` are fields the patch does not define. */
  datatype Patch = Patch(
    id: Option<string>, queueName: Option<string>, jobName: Option<string>, originalJobId: Option<string>,
    status: Option<Status>,
    input: Value, output: Value,
    error: Option<Err>, failureError: Option<Err>, failedStep: Option<string>,
    compensation: Option<Report>,
    runCount: Option<nat>, stepSeq: Option<nat>,
    createdAt: Option<nat>, updatedAt: Option<nat>, completedAt: Option<nat>, failedAt: Option<nat>)

  const NO_CHANGE := Patch(None, None, None, None, None, Undefined, Undefined, None, None, None, None,
                           None, None, None, None, None, None)

  function Present(v: Value, previous: Value): Value {
    if v.Undefined? then previous else v
  }

  /** Shallow-merge the defined fields of a patch. */
  function Merge(i: Instance, p: Patch): Instance {
    Instance(
      p.id.GetOr(i.id), p.queueName.GetOr(i.queueName), p.jobName.GetOr(i.jobName),
      p.originalJobId.GetOr(i.originalJobId), p.status.GetOr(i.status),
      Present(p.input, i.input), Present(p.output, i.output),
      p.error.OrElse(i.error), p.failureError.OrElse(i.failureError), p.failedStep.OrElse(i.failedStep),
      p.compensation.OrElse(i.compensation),
      p.runCount.GetOr(i.runCount), i.resumeSeq, p.stepSeq.OrElse(i.stepSeq),
      p.createdAt.GetOr(i.createdAt), p.updatedAt.GetOr(i.updatedAt),
      p.completedAt.OrElse(i.completedAt), p.failedAt.OrElse(i.failedAt))
  }

  datatype StepStatus = StepRunning | StepCompleted | StepFailed

  datatype StepKind = Work | Sleep

  datatype Step = Step(
    kind: StepKind, seqNo: nat, status: StepStatus,
    result: Value, error: Option<Err>, attempts: nat,
    startedAt: nat, completedAt: Option<nat>, failedAt: Option<nat>, nextRunAt: Option<nat>)

  /** What a patch says of an optional field: nothing, explicitly `undefined`, or a value. */
  datatype Change<+T> = Leave | Unset | Put(value: T)

  function Changed<T>(previous: Option<T>, change: Change<T>, unsets: bool): Option<T> {
    match change
    case Leave => previous
    case Unset => if unsets then None else previous
    case Put(value) => Some(value)
  }

  /** A partial step; `result` is `Some(Undefined)` when it is explicitly `undefined`. */
  datatype StepPatch = StepPatch(
    kind: Option<StepKind>, seqNo: Option<nat>, status: Option<StepStatus>, result: Option<Value>,
    error: Change<Err>, attempts: Option<nat>, startedAt: Option<nat>,
    completedAt: Change<nat>, failedAt: Change<nat>, nextRunAt: Change<nat>)
  {
    /** The patch on all fields but the result. `unsets` tells whether an explicit `undefined` erases a field. */
    function On(s: Step, unsets: bool): Step {
      s.(kind := kind.GetOr(s.kind), seqNo := seqNo.GetOr(s.seqNo), status := status.GetOr(s.status),
         error := Changed(s.error, error, unsets), attempts := attempts.GetOr(s.attempts),
         startedAt := startedAt.GetOr(s.startedAt), completedAt := Changed(s.completedAt, completedAt, unsets),
         failedAt := Changed(s.failedAt, failedAt, unsets), nextRunAt := Changed(s.nextRunAt, nextRunAt, unsets))
    }
  }

  /** The patch that ends a sleep. */
  function Waking(now: nat): StepPatch {
    StepPatch(None, None, Some(StepCompleted), None, Leave, None, None, Put(now), Leave, Leave)
  }

  datatype InitInput = InitInput(id: string, queueName: string, jobName: string, jobId: string, input: Value)

  datatype BeginResult =
    | StepMissing
    | StepCancelled
    | StepExisting(step: Step)
    | StepCreated(seqNo: nat)

  /** How a run can end. */
  datatype Ending = Finish(output: Value) | Fail(error: Err) | FailCompensation(error: Err) | Cancel {
    function Target(): (s: Status)
      ensures s.Terminal()
    {
      match this
      case Finish(_) => Completed
      case Fail(_) => Failed
      case FailCompensation(_) => CompensationFailed
      case Cancel => Cancelled
    }

    function Apply(i: Instance, now: nat): Instance {
      match this
      case Finish(output) =>
        i.(status := Completed, output := Clone(output), completedAt := Some(now), updatedAt := now)
      case Fail(error) =>
        i.(status := Failed, error := Some(error), failedAt := Some(now), updatedAt := now)
      case FailCompensation(error) =>
        i.(status := CompensationFailed, error := Some(error), failedAt := Some(now), updatedAt := now)
      case Cancel => i.(status := Cancelled, updatedAt := now)
    }
  }

  datatype Record = Record(instance: Instance, steps: map<Key, Step>, terminalAt: Option<nat>) {

    /** The last sequence number handed to a step. */
    function Counter(): nat {
      instance.stepSeq.GetOr(0)
    }

    predicate Has(key: Key, status: StepStatus) {
      key in steps && steps[key].status == status
    }

    function Update(patch: Patch, now: nat): Record {
      Record(
        Merge(instance, patch.(input := Clone(patch.input), output := Clone(patch.output), updatedAt := Some(now))),
        steps,
        if patch.status.Some? && patch.status.value.Terminal() then terminalAt.OrElse(Some(now)) else terminalAt)
    }

    function End(ending: Ending, now: nat): Record {
      Record(ending.Apply(instance, now), steps, Some(now))
    }

    function BeginStep(key: Key, kind: StepKind, now: nat, nextRunAt: Option<nat>): (Record, BeginResult) {
      if instance.status.Cancelled? then (this, StepCancelled)
      else if key in steps then (this, StepExisting(steps[key]))
      else
        var seqNo := Counter() + 1;
        var step := Step(kind, seqNo, StepRunning, Undefined, None, 1, now, None, None, nextRunAt);
        (Record(instance.(stepSeq := Some(seqNo), updatedAt := now), steps[key := step], terminalAt),
         StepCreated(seqNo))
    }

    function SaveStep(key: Key, step: Step): Record {
      this.(steps := steps[key := step.(result := Clone(step.result))])
    }

    /** Merge a JSON copy of the patch, which has lost what was explicitly `undefined`. */
    function UpdateStep(key: Key, patch: StepPatch): Record {
      if key in steps then
        var s := steps[key];
        var result := Present(Clone(patch.result.GetOr(Undefined)), s.result);
        this.(steps := steps[key := patch.On(s, false).(result := result)])
      else this
    }

    /** Mark a step completed, leaving its other fields alone. */
    function WakeStep(key: Key, now: nat): Record {
      if key in steps
      then this.(steps := steps[key := steps[key].(status := StepCompleted, completedAt := Some(now))])
      else this
    }

    function RemoveSteps(keys: set<Key>): Record {
      this.(steps := steps - keys)
    }

    /** The fields an operator's `retry` clears. */
    function ClearFailure(): Record {
      this.(instance := instance.(error := None, failedAt := None, failureError := None, failedStep := None,
                                  compensation := None))
    }

    /** The fields an operator's `retryCompensation` clears. */
    function ClearOutcome(): Record {
      this.(instance := instance.(error := None, failedAt := None, compensation := None))
    }
  }

  lemma WakesByPatch(rec: Record, key: Key, now: nat)
    ensures rec.WakeStep(key, now) == rec.UpdateStep(key, Waking(now))
  {
  }

  /** Begin a delivery: create the run, or count the delivery and mark it running unless it has ended. */
  function BeginTick(stored: Option<Record>, input: InitInput, now: nat): Record {
    match stored
    case None =>
      Record(
        Instance(input.id, input.queueName, input.jobName, input.jobId, Running, Clone(input.input), Undefined,
                 None, None, None, None, 1, None, None, now, now, None, None),
        map[], None)
    case Some(r) =>
      if r.instance.status.Terminal() then r
      else r.(instance := r.instance.(
                runCount := r.instance.runCount + 1,
                status := if r.instance.status.Compensating? then Compensating else Running,
                updatedAt := now))
  }
}
