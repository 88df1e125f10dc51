/** How often a body may start before its step settles. */
module Budgets {
  import opened Values
  import opened Phases
  import opened Records
  import opened Processors
  import opened Steps
  import opened Ticks
  import opened Journal
  import opened StepCalls
  import opened Routes
  import opened Sagas
  import opened Failures
  import opened Runs
  import opened Guarantees
  import opened Checkpoints
  import opened Compensating

  // -- Counting ------------------------------------------------------------------------------

  predicate Starts(act: Act, k: Key) {
    act.Started? && act.key == k
  }

  /** How often the body of `k` started. */
  function StartCount(acts: seq<Act>, k: Key): nat {
    if acts == [] then 0 else (if Starts(acts[0], k) then 1 else 0) + StartCount(acts[1..], k)
  }

  /** How often it started without its outcome being recorded: the process died, or the body suspended the tick. */
  function Interrupted(acts: seq<Act>, k: Key): nat {
    if acts == [] then 0
    else (if Starts(acts[0], k) && (|acts| == 1 || !Closing(acts[1])) then 1 else 0) + Interrupted(acts[1..], k)
  }

  ghost predicate Orderly(acts: seq<Act>) {
    && (forall i, j :: 0 <= i < j < |acts| ==> Increasing(acts[i], acts[j]))
    && (forall i :: 1 <= i < |acts| && Closing(acts[i]) ==>
          acts[i - 1].Started? && acts[i - 1].key == acts[i].key && acts[i - 1].attempt == acts[i].attempt)
  }

  predicate Within(acts: seq<Act>, k: Key, least: nat, m: nat) {
    && (forall i :: 0 <= i < |acts| && Starts(acts[i], k) ==> least <= acts[i].attempt)
    && (forall i :: 0 <= i < |acts| && acts[i].Retried? && acts[i].key == k ==> acts[i].attempt < m)
  }

  lemma OrderlyRest(acts: seq<Act>)
    requires Orderly(acts) && acts != []
    ensures Orderly(acts[1..])
  {
    var rest := acts[1..];
    assert forall i :: 0 <= i < |rest| ==> rest[i] == acts[i + 1];
  }

  lemma WithinRest(acts: seq<Act>, k: Key, least: nat, m: nat, next: nat)
    requires Orderly(acts) && Within(acts, k, least, m) && acts != []
    requires next == if Starts(acts[0], k) then acts[0].attempt + 1 else least
    ensures Within(acts[1..], k, next, m)
  {
    var rest := acts[1..];
    forall i | 0 <= i < |rest| && Starts(rest[i], k) ensures next <= rest[i].attempt {
      assert rest[i] == acts[i + 1] && Increasing(acts[0], acts[i + 1]);
    }
    assert forall i :: 0 <= i < |rest| ==> rest[i] == acts[i + 1];
  }

  lemma {:induction false} NoMoreStarts(acts: seq<Act>, k: Key)
    requires forall i :: 0 <= i < |acts| ==> !Starts(acts[i], k)
    ensures StartCount(acts, k) == 0
  {
    if acts != [] {
      assert forall i :: 0 <= i < |acts[1..]| ==> acts[1..][i] == acts[i + 1];
      NoMoreStarts(acts[1..], k);
    }
  }

  /** Numbers run upwards and only a number below `m` is retried, so at most `m` starts are not interruptions. */
  lemma {:induction false} CountStarts(acts: seq<Act>, k: Key, least: nat, m: nat)
    requires Orderly(acts) && Within(acts, k, least, m) && m >= 1
    ensures StartCount(acts, k) <= Interrupted(acts, k) + if least < m then m - least + 1 else 1
    decreases |acts|
  {
    hide Orderly, Within;
    if acts != [] {
      var next := if Starts(acts[0], k) then acts[0].attempt + 1 else least;
      OrderlyRest(acts);
      WithinRest(acts, k, least, m, next);
      CountStarts(acts[1..], k, next, m);
      if Starts(acts[0], k) && |acts| > 1 && Closing(acts[1]) {
        ClosedStart(acts, k, least, m);
      }
      FirstStart(acts, k, least, m);
    }
  }

  lemma FirstStart(acts: seq<Act>, k: Key, least: nat, m: nat)
    requires Within(acts, k, least, m) && acts != []
    ensures Starts(acts[0], k) ==> least <= acts[0].attempt
  {
  }

  lemma ClosedStart(acts: seq<Act>, k: Key, least: nat, m: nat)
    requires Orderly(acts) && Within(acts, k, least, m) && |acts| > 1 && Starts(acts[0], k) && Closing(acts[1])
    ensures acts[1].Retried? ==> acts[0].attempt < m
    ensures acts[1].Ended? ==> StartCount(acts[1..], k) == 0
  {
    assert acts[1].key == k && acts[1].attempt == acts[0].attempt;
    if acts[1].Ended? {
      var rest := acts[1..];
      forall i | 0 <= i < |rest| ensures !Starts(rest[i], k) {
        assert rest[i] == acts[i + 1];
        assert i > 0 ==> Increasing(acts[1], acts[i + 1]);
      }
      NoMoreStarts(rest, k);
    }
  }

  // -- Every retry of a run is within its step's policy ----------------------------------------

  /** The options a step of any phase runs under. A compensation's come from the step it undoes. */
  function OptionsOf(app: App, book: Book, k: Key): Option<StepOptions> {
    if k.phase == Compensation then
      match book(Key(Main, k.name))
      case AsSleep => None
      case AsStep(o, _) =>
        if o.onRollback.None? then None
        else Some(RollbackOptions(app, Rollback(k.name, 0, Undefined, o.onRollback.value.retry)))
    else
      match book(k)
      case AsSleep => None
      case AsStep(o, _) => Some(o)
  }

  predicate Budgeted(app: App, book: Book, act: Act) {
    act.Retried? ==>
      OptionsOf(app, book, act.key).Some? && LimitFits(app, OptionsOf(app, book, act.key).value, act.limit)
  }

  /** Registered compensations carry the retry policy the book knows. */
  predicate Booked(book: Book, rs: seq<Rollback>) {
    forall i :: 0 <= i < |rs| ==>
      var use := book(Key(Main, rs[i].key));
      use.AsStep? && use.options.onRollback.Some? && use.options.onRollback.value.retry == rs[i].retry
  }

  lemma {:induction false} EvalBudgeted(w: World, app: App, d: Delivery, t: Tick, p: Processor, seen: seq<Seen>,
                                        book: Book)
    requires t.phase != Compensation && ProcessorObeys(p, t.phase, book)
    ensures Added(t, Eval(w, app, d, t, p, seen).tick, act => Budgeted(app, book, act))
    decreases p.Left(seen)
  {
    hide ExecuteStep, SleepFor, LimitFits;
    assert MoveObeys(p.At(seen), t.phase, book);
    match p.At(seen)
    case Return(_) =>
    case Throw(_, _, _) =>
    case Pause(key, delay) =>
      SleepActs(w, d, t, key, delay);
      var c := SleepFor(w, d, t, key, delay);
      if c.Go? {
        EvalBudgeted(w, app, d, c.tick, p, seen + [Slept], book);
      }
    case Call(key, o, recovery) =>
      StepActs(w, app, d, t, key, o, Nothing);
      var c := ExecuteStep(w, app, d, t, key, o, Nothing);
      AddedWeaken(t, c.tick, act => About(app, act, Key(t.phase, key), o, Nothing), act => Budgeted(app, book, act));
      if GoesOn(recovery, c) {
        EvalBudgeted(w, app, d, c.tick, p, seen + [SeenOf(recovery, c)], book);
        AddedTrans(t, c.tick, Eval(w, app, d, t, p, seen).tick, act => Budgeted(app, book, act));
      }
  }

  lemma {:induction false} RollbacksBudgeted(w: World, app: App, d: Delivery, t: Tick, rs: seq<Rollback>, error: Err,
                                             report: Report, book: Book)
    requires t.phase == Compensation && Booked(book, rs)
    ensures Added(t, RunRollbacks(w, app, d, t, rs, error, report).tick, act => Budgeted(app, book, act))
    decreases |rs|
  {
    hide ExecuteStep, LimitFits;
    var r := RunRollbacks(w, app, d, t, rs, error, report);
    if rs != [] {
      var first := rs[0];
      var o := RollbackOptions(app, first);
      var c := ExecuteStep(w, app, d, t, first.key, o, Undo(first.output, error));
      StepActs(w, app, d, t, first.key, o, Undo(first.output, error));
      AddedWeaken(t, c.tick, act => About(app, act, CompKey(first), o, Undo(first.output, error)),
                  act => Budgeted(app, book, act));
      if c.Go? || c.signal.Raised? {
        var next := if c.Go? then report.(rolledBack := report.rolledBack + [first.key])
                    else report.(failed := report.failed + [(first.key, c.signal.err)]);
        RollbacksBudgeted(w, app, d, c.tick, rs[1..], error, next, book);
        AddedTrans(t, c.tick, r.tick, act => Budgeted(app, book, act));
      }
    }
  }

  lemma OrderedBooked(book: Book, rs: seq<Rollback>)
    requires Booked(book, rs)
    ensures Booked(book, LatestFirst(rs))
  {
    SameMembers(rs);
    var ordered := LatestFirst(rs);
    forall i | 0 <= i < |ordered|
      ensures var use := book(Key(Main, ordered[i].key));
              use.AsStep? && use.options.onRollback.Some? && use.options.onRollback.value.retry == ordered[i].retry
    {
      var j :| 0 <= j < |rs| && rs[j] == ordered[i];
    }
  }

  lemma CompensateBudgeted(w: World, app: App, d: Delivery, t: Tick, error: Err, book: Book)
    requires Booked(book, t.rollbacks)
    ensures Added(t, Compensate(w, app, d, t, error).tick, act => Budgeted(app, book, act))
  {
    hide RunRollbacks, Budgeted, Booked;
    if t.rollbacks != [] {
      OrderedBooked(book, t.rollbacks);
      RollbacksBudgeted(w, app, d, t.(phase := Compensation), LatestFirst(t.rollbacks), error, NO_REPORT, book);
    }
  }

  lemma HandleBudgeted(w: World, app: App, d: Delivery, t: Tick, info: FailureInfo, book: Book)
    requires Obeys(app, book)
    ensures Added(t, HandleFailure(w, app, d, t, info).tick, act => Budgeted(app, book, act))
  {
    hide Eval, LimitFits, ProcessorObeys;
    if app.onFailure.Some? {
      var t1 := t.(phase := Failure, trace := t.trace + [Handled(info)]);
      EvalBudgeted(w, app, d, t1, app.onFailure.value(info), [], book);
      AddedTrans(t, t1, HandleFailure(w, app, d, t, info).tick, act => Budgeted(app, book, act));
    }
  }

  lemma SequenceBudgeted(w: World, app: App, d: Delivery, t: Tick, error: Err, book: Book)
    requires Obeys(app, book) && Booked(book, t.rollbacks)
    ensures Added(t, FailureSequence(w, app, d, t, error).tick, act => Budgeted(app, book, act))
  {
    hide Compensate, HandleFailure, Obeys, Budgeted, Booked, Merge, CompletedMainSteps;
    var fits := act => Budgeted(app, book, act);
    var r := FailureSequence(w, app, d, t, error);
    var entered := Enter(w, t, error);
    assert entered.tick.trace == t.trace && entered.tick.rollbacks == t.rollbacks;
    if entered.Go? {
      var trigger := TriggerOf(t.rec.instance, error);
      var undone := Compensate(w, app, d, entered.tick, trigger);
      CompensateBudgeted(w, app, d, entered.tick, trigger, book);
      if undone.Go? {
        var info := FailureInfo(trigger, FailedStepOf(t), CompletedMainSteps(undone.tick.rec), undone.value);
        var handled := HandleFailure(w, app, d, undone.tick, info);
        HandleBudgeted(w, app, d, undone.tick, info, book);
        AddedTrans(entered.tick, undone.tick, handled.tick, fits);
        assert r.tick.trace == handled.tick.trace;
      } else {
        assert r.tick.trace == undone.tick.trace;
      }
    }
  }

  lemma ExecuteBudgeted(book: Book, w: World, app: App, d: Delivery, t: Tick)
    requires Sound(book, t.rec) && Obeys(app, book) && Ready(t)
    ensures Added(t, Execute(w, app, d, t).tick, act => Budgeted(app, book, act))
  {
    hide Eval, Sound, Obeys, Execute, FailureSequence, Budgeted, Booked, Added, AllFromSteps;
    var fits := act => Budgeted(app, book, act);
    var run := Eval(w, app, d, t, app.main, []);
    var u := Execute(w, app, d, t).tick;
    ObeysMain(app, book);
    EvalBudgeted(w, app, d, t, app.main, [], book);
    ExecuteSplits(w, app, d, t);
    if u.trace == run.tick.trace {
      SameAdded(t, run.tick, u, fits);
    } else {
      var error :| u == FailureSequence(w, app, d, run.tick, error).tick;
      ForwardRegisters(book, w, app, d, t);
      FromStepsBooked(book, run.tick.rec, run.tick.rollbacks);
      SequenceBudgeted(w, app, d, run.tick, error, book);
      AddedTrans(t, run.tick, u, fits);
    }
  }

  lemma FromStepsBooked(book: Book, rec: Record, rs: seq<Rollback>)
    requires AllFromSteps(book, rec, rs)
    ensures Booked(book, rs)
  {
    forall i | 0 <= i < |rs|
      ensures var use := book(Key(Main, rs[i].key));
              use.AsStep? && use.options.onRollback.Some? && use.options.onRollback.value.retry == rs[i].retry
    {
      assert FromStep(book, rec, rs[i]);
    }
  }

  lemma NextBudgeted(book: Book, app: App, input: InitInput, s: Run, e: Event)
    requires Obeys(app, book) && (s.stored.Some? ==> Sound(book, s.stored.value))
    ensures Added(AsTick(input, s), AsTick(input, Next(app, input, s, e)), act => Budgeted(app, book, act))
  {
    hide Obeys, Sound, RunLocked, Execute, Budgeted;
    if e.Deliver? && Unended(s) && !Skipped(s, e.delivery) {
      DeliverTick(app, input, s, e.world, e.delivery);
      BeganSound(book, app, input, s, e.world);
      var t := Began(input, s, e.world);
      ExecuteBudgeted(book, e.world, app, e.delivery, t);
    } else if e.Deliver? && !Unended(s) {
      DeliverEnded(app, input, s, e.world, e.delivery);
    }
  }

  lemma {:induction false} RunBudgeted(book: Book, app: App, input: InitInput, s: Run, es: seq<Event>)
    requires Obeys(app, book) && (s.stored.Some? ==> Sound(book, s.stored.value))
    ensures Added(AsTick(input, s), AsTick(input, RunAll(app, input, s, es)), act => Budgeted(app, book, act))
    decreases |es|
  {
    hide Obeys, Sound, Next, Budgeted;
    if es != [] {
      var n := Next(app, input, s, es[0]);
      NextBudgeted(book, app, input, s, es[0]);
      NextSound(book, app, input, s, es[0]);
      RunBudgeted(book, app, input, n, es[1..]);
      AddedTrans(AsTick(input, s), AsTick(input, n), AsTick(input, RunAll(app, input, n, es[1..])),
                 act => Budgeted(app, book, act));
    }
  }

  // -- The budget ------------------------------------------------------------------------------

  /** A retry of `k` that was bounded; without configured attempts, a poll's is not. */
  predicate Bounded(acts: seq<Act>, k: Key) {
    forall i :: 0 <= i < |acts| && acts[i].Retried? && acts[i].key == k ==> acts[i].limit.Some?
  }

  lemma TailOrderly(a: Tick, b: Tick, fits: Act -> bool)
    requires Follows(a, b) && Added(a, b, fits)
    ensures Orderly(b.trace[|a.trace|..])
  {
    hide Advances;
    var tail, from := b.trace[|a.trace|..], |a.trace|;
    assert forall i :: 0 <= i < |tail| ==> tail[i] == b.trace[from + i];
  }

  lemma TailWithin(app: App, book: Book, a: Tick, b: Tick, k: Key, m: nat)
    requires Follows(a, b) && Added(a, b, act => Budgeted(app, book, act))
    requires OptionsOf(app, book, k).Some? && m == Policy(app, OptionsOf(app, book, k).value).attempts
    requires Configured(app, OptionsOf(app, book, k).value).Some? || Bounded(b.trace[|a.trace|..], k)
    ensures Within(b.trace[|a.trace|..], k, 1, m)
  {
    hide Advances, Policy, OptionsOf, Configured;
    var tail, from := b.trace[|a.trace|..], |a.trace|;
    forall i | 0 <= i < |tail|
      ensures Starts(tail[i], k) ==> 1 <= tail[i].attempt
      ensures tail[i].Retried? && tail[i].key == k ==> tail[i].attempt < m
    {
      assert tail[i] == b.trace[from + i] && ActFits(a, b, b.trace[from + i]);
      assert Budgeted(app, book, b.trace[from + i]);
    }
  }

  /**
   * Retry budget: over any deliveries, crashes and suspensions between two operator retries, each
   * start of a body carries a higher attempt number than the one before, none follows the recorded end,
   * and a step with bounded retries starts at most `attempts` times, plus once per interruption.
   */
  lemma RetryBudget(book: Book, app: App, input: InitInput, s: Run, es: seq<Event>, k: Key)
    requires Obeys(app, book) && (s.stored.Some? ==> Sound(book, s.stored.value))
    requires forall i :: 0 <= i < |es| ==> !RemovesSteps(es[i])
    requires OptionsOf(app, book, k).Some?
    ensures var n := RunAll(app, input, s, es);
            && s.trace <= n.trace
            && var acts := n.trace[|s.trace|..];
               var o := OptionsOf(app, book, k).value;
               && (forall i, j :: 0 <= i < j < |acts| && Starts(acts[j], k) ==>
                     && (Starts(acts[i], k) ==> acts[i].attempt < acts[j].attempt)
                     && !(acts[i].Ended? && acts[i].key == k))
               && (Configured(app, o).Some? || Bounded(acts, k) ==>
                     StartCount(acts, k) <= Policy(app, o).attempts + Interrupted(acts, k))
  {
    hide Obeys, Sound, RunAll, Follows, Added, Policy, OptionsOf, Configured, Within, LimitFits;
    var n := RunAll(app, input, s, es);
    var a, b := AsTick(input, s), AsTick(input, n);
    RunFollows(book, app, input, s, es);
    RunBudgeted(book, app, input, s, es);
    TimePasses(a, b);
    TailOrderly(a, b, act => Budgeted(app, book, act));
    var acts := n.trace[|s.trace|..];
    var o := OptionsOf(app, book, k).value;
    assert forall i, j :: 0 <= i < j < |acts| ==> Increasing(acts[i], acts[j]);
    if Configured(app, o).Some? || Bounded(acts, k) {
      TailWithin(app, book, a, b, k, Policy(app, o).attempts);
      CountStarts(acts, k, 1, Policy(app, o).attempts);
    }
  }
}
