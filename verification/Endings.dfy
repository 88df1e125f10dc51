/** What a run that has ended has behind it: a failure was told, and a completion was never on its way down. */
module Endings {
  import opened Values
  import opened Phases
  import opened Records
  import opened Processors
  import opened Steps
  import opened Ticks
  import opened Journal
  import opened Routes
  import opened Sagas
  import opened Failures
  import opened Runs
  import opened Guarantees
  import opened Compensating
  import opened Irreversible
  import opened LiveRuns
  import opened Progress

  // -- Failures are told ---------------------------------------------------------------------

  predicate Lost(status: Status) {
    status.Failed? || status.CompensationFailed?
  }

  /** What the handler was told is what the ended run has on record. */
  ghost predicate Informed(info: FailureInfo, rec: Record) {
    && rec.instance.error == Some(info.error)
    && (forall name :: name in info.completed <==>
          rec.Has(Key(Main, name), StepCompleted) && rec.steps[Key(Main, name)].kind.Work?)
    && (info.report == NO_REPORT || rec.instance.compensation == Some(info.report))
  }

  /** Between `a` and `b` the handler was told of the failure that `b` has on record. */
  ghost predicate WasTold(a: Tick, b: Tick) {
    exists i :: |a.trace| <= i < |b.trace| && b.trace[i].Handled? && Informed(b.trace[i].info, b.rec)
  }

  lemma HandleTells(w: World, app: App, d: Delivery, t: Tick, info: FailureInfo)
    requires app.onFailure.Some?
    ensures var r := HandleFailure(w, app, d, t, info);
            t.trace + [Handled(info)] <= r.tick.trace
  {
    hide Eval;
    EvalActs(w, app, d, t.(phase := Failure, trace := t.trace + [Handled(info)]), app.onFailure.value(info), []);
  }

  lemma CompletedNames(rec: Record)
    ensures forall name :: name in CompletedMainSteps(rec) <==>
              rec.Has(Key(Main, name), StepCompleted) && rec.steps[Key(Main, name)].kind.Work?
  {
    forall name | rec.Has(Key(Main, name), StepCompleted) && rec.steps[Key(Main, name)].kind.Work?
      ensures name in CompletedMainSteps(rec)
    {
      assert Key(Main, name).phase == Main && Key(Main, name).name == name;
    }
  }

  lemma TellsEnd(w: World, base: Tick, before: Tick, t: Tick, info: FailureInfo, trigger: Err, report: Report)
    requires base.trace <= before.trace && before.trace + [Handled(info)] <= t.trace
    requires info.error == trigger && info.report == report && info.completed == CompletedMainSteps(t.rec)
    requires t.rec.instance.status.Compensating?
    ensures var u := SettleTerminal(w, t, trigger, report).tick;
            Lost(u.rec.instance.status) ==> WasTold(base, u)
  {
    hide SettleTerminal, CompletedMainSteps;
    var u := SettleTerminal(w, t, trigger, report).tick;
    SettleWrites(w, t, trigger, report);
    CompletedNames(t.rec);
    assert CompletedMainSteps(u.rec) == CompletedMainSteps(t.rec) by {
      SameCompleted(t.rec, u.rec);
    }
    assert u.trace[|before.trace|] == (before.trace + [Handled(info)])[|before.trace|];
  }

  lemma SameCompleted(a: Record, b: Record)
    requires b.steps == a.steps
    ensures CompletedMainSteps(b) == CompletedMainSteps(a)
  {
  }

  lemma UnwindKeeps(w: World, t: Tick, signal: Signal)
    requires t.rec.instance.status.Compensating?
    ensures !Lost(Unwind(w, t, signal).tick.rec.instance.status)
  {
  }

  lemma SequenceTold(book: Book, w: World, app: App, d: Delivery, t: Tick, error: Err)
    requires Sound(book, t.rec) && Obeys(app, book) && app.onFailure.Some?
    ensures var u := FailureSequence(w, app, d, t, error).tick;
            Lost(u.rec.instance.status) ==> WasTold(t, u)
  {
    hide Compensate, HandleFailure, Obeys, Sound, Moves, Merge, CompletedMainSteps, SettleTerminal, Accounts, Added,
         Handed, Told, Keeps, WasTold, Unwind;
    var entered := Enter(w, t, error);
    EnterUnderway(book, w, t, error);
    if entered.Go? {
      var trigger := TriggerOf(t.rec.instance, error);
      var undone := Compensate(w, app, d, entered.tick, trigger);
      CompensateMoves(book, w, app, d, entered.tick, trigger);
      MovesFollows(book, entered.tick, undone.tick);
      if undone.Stop? {
        UnwindKeeps(w, undone.tick, undone.signal);
      } else {
        var info := FailureInfo(trigger, FailedStepOf(t), CompletedMainSteps(undone.tick.rec), undone.value);
        var handled := HandleFailure(w, app, d, undone.tick, info);
        HandleMoves(book, w, app, d, undone.tick, info);
        HandleTells(w, app, d, undone.tick, info);
        MovesFollows(book, undone.tick, handled.tick);
        CompletedSame(undone.tick.rec, handled.tick.rec);
        if handled.Stop? {
          UnwindKeeps(w, handled.tick, handled.signal);
        } else {
          TellsEnd(w, t, undone.tick, handled.tick, info, trigger, undone.value);
        }
      }
    }
  }

  lemma ClassifyFails(w: World, app: App, d: Delivery, t: Tick, err: Err, stepScoped: bool, unrecoverable: bool)
    requires app.onFailure.Some? && !Lost(t.rec.instance.status)
    ensures var u := Classify(w, app, d, t, err, stepScoped, unrecoverable).tick;
            Lost(u.rec.instance.status) ==> u == FailureSequence(w, app, d, t, err).tick
  {
    hide FailureSequence;
  }

  /** With a handler set, only the failure sequence fails a run. */
  lemma ConcludeFails(w: World, app: App, d: Delivery, run: Eff<Value>)
    requires app.onFailure.Some? && !Lost(run.tick.rec.instance.status)
    ensures var u := Conclude(w, app, d, run.tick.rec.instance.status.Compensating?, run).tick;
            Lost(u.rec.instance.status) ==> exists error :: u == FailureSequence(w, app, d, run.tick, error).tick
  {
    hide FailureSequence, Classify, SettleTrigger;
    if run.Stop? && run.signal.Raised? {
      ClassifyFails(w, app, d, run.tick, run.signal.err, run.signal.stepScoped, run.signal.unrecoverable);
    }
  }

  lemma ExecuteTold(book: Book, w: World, app: App, d: Delivery, t: Tick)
    requires Sound(book, t.rec) && Obeys(app, book) && Ready(t) && app.onFailure.Some?
    ensures var u := Execute(w, app, d, t).tick;
            Lost(u.rec.instance.status) ==> WasTold(t, u)
  {
    hide Eval, Sound, Obeys, FailureSequence, Conclude, WasTold, Follows;
    RanHere(book, w, app, d, t);
    var run := Eval(w, app, d, t, app.main, []);
    var u := Execute(w, app, d, t).tick;
    RanBefore(book, d, t, run);
    ConcludeFails(w, app, d, run);
    if Lost(u.rec.instance.status) {
      var error :| u == FailureSequence(w, app, d, run.tick, error).tick;
      SequenceTold(book, w, app, d, run.tick, error);
      ToldSince(t, run.tick, u);
    }
  }

  lemma RanBefore(book: Book, d: Delivery, t: Tick, run: Eff<Value>)
    requires Ready(t) && Ran(book, d, t, run)
    ensures Sound(book, run.tick.rec) && SameRun(t.rec.instance, run.tick.rec.instance) && t.trace <= run.tick.trace
  {
  }

  lemma ToldSince(a: Tick, b: Tick, c: Tick)
    requires a.trace <= b.trace && WasTold(b, c)
    ensures WasTold(a, c)
  {
  }

  /**
   * Nobody fails in silence: with a failure handler set, the delivery that ends a run as failed has told the
   * handler the error, the completed steps and the report that the ended run has on record.
   */
  lemma FailuresAreTold(book: Book, app: App, input: InitInput, s: Run, w: World, d: Delivery)
    requires Obeys(app, book) && app.onFailure.Some? && (s.stored.Some? ==> Sound(book, s.stored.value)) && Unended(s)
    ensures var n := Next(app, input, s, Deliver(w, d));
            n.stored.Some? && Lost(n.stored.value.instance.status) ==>
              exists i :: |s.trace| <= i < |n.trace| && n.trace[i].Handled? && Informed(n.trace[i].info, n.stored.value)
  {
    hide Obeys, Sound, RunLocked, Execute, Skipped;
    if Skipped(s, d) {
      SkippedStays(app, input, s, w, d);
    } else {
      DeliverTick(app, input, s, w, d);
      BeganSound(book, app, input, s, w);
      ExecuteTold(book, w, app, d, Began(input, s, w));
    }
  }

  // -- Completions were never on their way down -----------------------------------------------

  predicate Upright(status: Status) {
    status.Running? || status.Yielded? || status.Completed?
  }

  predicate ForwardOnly(rec: Record, trace: seq<Act>) {
    && (forall k :: k in rec.steps ==> k.phase == Main)
    && (forall i :: 0 <= i < |trace| ==> InPhase(trace[i], Main))
  }

  /** A run that is not on its way down has no other records and no other history than forward ones. */
  predicate Spotless(s: Run) {
    if s.stored.None? then s.trace == []
    else Upright(s.stored.value.instance.status) ==> ForwardOnly(s.stored.value, s.trace)
  }

  lemma TickSpotless(book: Book, w: World, app: App, d: Delivery, t: Tick)
    requires Sound(book, t.rec) && Obeys(app, book) && Ready(t) && ForwardOnly(t.rec, t.trace)
    ensures var u := Execute(w, app, d, t).tick;
            Upright(u.rec.instance.status) ==> ForwardOnly(u.rec, u.trace)
  {
    hide Eval, Sound, ProcessorObeys, FailureSequence, Conclude, FailureEnds, Written, Follows, ForwardOnly;
    var run := Eval(w, app, d, t, app.main, []);
    var u := Execute(w, app, d, t).tick;
    RanHere(book, w, app, d, t);
    RanBefore(book, d, t, run);
    EvalSpans(book, w, app, d, t, app.main, []);
    EvalActs(w, app, d, t, app.main, []);
    ForwardStays(book, t, run.tick);
    ConcludeWrites(w, app, d, run);
    if Written(run.tick, u) {
      ForwardWrites(run.tick, u);
    } else {
      var error :| u == FailureSequence(w, app, d, run.tick, error).tick;
      FailureSequenceEnds(book, w, app, d, run.tick, error);
      EndsDown(book, run.tick, error, u);
    }
  }

  lemma ForwardStays(book: Book, t: Tick, u: Tick)
    requires Spans(book, t, u) && t.phase == Main && Added(t, u, act => InPhase(act, Main))
    requires ForwardOnly(t.rec, t.trace)
    ensures ForwardOnly(u.rec, u.trace)
  {
    hide Follows, Sound;
    forall i | 0 <= i < |u.trace| ensures InPhase(u.trace[i], Main) {
      if i < |t.trace| {
        assert u.trace[i] == t.trace[i];
      }
    }
  }

  lemma ForwardWrites(t: Tick, u: Tick)
    requires Written(t, u) && ForwardOnly(t.rec, t.trace)
    ensures ForwardOnly(u.rec, u.trace)
  {
  }

  lemma EndsDown(book: Book, t: Tick, error: Err, u: Tick)
    requires FailureEnds(book, t, error, u)
    ensures !Upright(u.rec.instance.status)
  {
    hide Moves, Closed, Added;
  }

  lemma ResumedDown(book: Book, app: App, t: Tick, u: Tick)
    requires Resumed(book, app, t, u)
    ensures !Upright(u.rec.instance.status)
  {
    hide RouteOf, Moves, Added;
  }

  lemma BeganSpotless(input: InitInput, s: Run, w: World)
    requires Unended(s) && Spotless(s)
    ensures var t := Began(input, s, w);
            if s.stored.Some? && s.stored.value.instance.status.Compensating? then t.rec.instance.status.Compensating?
            else t.rec.instance.status.Running? && ForwardOnly(t.rec, t.trace)
  {
  }

  lemma NextSpotless(book: Book, app: App, input: InitInput, s: Run, e: Event)
    requires Obeys(app, book) && (s.stored.Some? ==> Sound(book, s.stored.value))
    requires GuardedEvent(app, input, s, e) && !e.RetryRun? && Spotless(s)
    ensures Spotless(Next(app, input, s, e))
  {
    hide Obeys, Sound, RunLocked, Execute, FaithfulEvent, ForwardOnly, Guard, Resumed, Skipped, Began;
    if e.Deliver? {
      var w, d := e.world, e.delivery;
      if Skipped(s, d) {
        SkippedStays(app, input, s, w, d);
      } else if !Unended(s) {
        DeliverEnded(app, input, s, w, d);
      } else {
        var t := Began(input, s, w);
        DeliverTick(app, input, s, w, d);
        BeganSound(book, app, input, s, w);
        BeganSpotless(input, s, w);
        if t.rec.instance.status.Compensating? {
          BeganMain(app, s, t);
          SameGuard(app, d, s.stored.value, t.rec);
          ExecuteResumes(book, w, app, d, t);
          ResumedDown(book, app, t, Execute(w, app, d, t).tick);
        } else {
          TickSpotless(book, w, app, d, t);
        }
      }
    }
  }

  lemma SameGuard(app: App, d: Delivery, a: Record, b: Record)
    requires Guard(app, d, a) && RouteIn(app, b) == RouteIn(app, a)
    ensures Guard(app, d, b)
  {
    hide RouteOf;
  }

  /**
   * A completed run has never been on its way down: in a guarded history without an operator's `retry` its
   * store holds no compensation and no handler step, and no compensation and no handler has ever acted.
   */
  lemma {:induction false} CompletedNeverCompensated(book: Book, app: App, input: InitInput, s: Run, es: seq<Event>)
    requires Obeys(app, book) && (s.stored.Some? ==> Sound(book, s.stored.value)) && Spotless(s)
    requires Guarded(app, input, s, es) && forall i :: 0 <= i < |es| ==> !es[i].RetryRun?
    ensures Spotless(RunAll(app, input, s, es))
    decreases |es|
  {
    hide Obeys, Sound, Next, GuardedEvent, Spotless;
    if es != [] {
      NextSpotless(book, app, input, s, es[0]);
      NextSound(book, app, input, s, es[0]);
      CompletedNeverCompensated(book, app, input, Next(app, input, s, es[0]), es[1..]);
    }
  }

  /** The same from scratch, with the condition on the events alone. */
  lemma CompletedNeverCompensatedLive(book: Book, app: App, input: InitInput, es: seq<Event>)
    requires Obeys(app, book) && PlainLive(app, book, es) && forall i :: 0 <= i < |es| ==> !es[i].RetryRun?
    ensures var n := RunAll(app, input, FRESH, es);
            n.stored.Some? && n.stored.value.instance.status.Completed? ==> ForwardOnly(n.stored.value, n.trace)
  {
    hide Obeys, Sound, RunAll, Guarded, Plain, Committed;
    LiveReach(book, app, input, es, []);
    CompletedNeverCompensated(book, app, input, FRESH, es);
  }
}
