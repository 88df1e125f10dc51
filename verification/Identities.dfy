/** What a run is stays what it is, and its deliveries are counted. */
module Identities {
  import opened Values
  import opened Records
  import opened Processors
  import opened Steps
  import opened Ticks
  import opened Journal
  import opened Routes
  import opened Sagas
  import opened Failures
  import opened Runs
  import opened Guarantees

  /** The same run, after the same number of deliveries. */
  predicate SameIdentity(a: Instance, b: Instance) {
    && b.id == a.id && b.queueName == a.queueName && b.jobName == a.jobName && b.originalJobId == a.originalJobId
    && b.input == a.input && b.createdAt == a.createdAt && b.runCount == a.runCount && b.resumeSeq == a.resumeSeq
  }

  lemma EndIdentity(w: World, t: Tick, ending: Ending)
    ensures SameIdentity(t.rec.instance, EndRun(w, t, ending).tick.rec.instance)
  {
    hide Clone;
  }

  lemma SaveIdentity(w: World, t: Tick, patch: Patch)
    requires patch.id.None? && patch.queueName.None? && patch.jobName.None? && patch.originalJobId.None?
    requires patch.input.Undefined? && patch.createdAt.None? && patch.runCount.None?
    ensures SameIdentity(t.rec.instance, SaveInstance(w, t, patch).tick.rec.instance)
  {
  }

  lemma SettleIdentity(w: World, t: Tick, error: Err, report: Report)
    ensures SameIdentity(t.rec.instance, SettleTerminal(w, t, error, report).tick.rec.instance)
  {
    hide SaveInstance, EndRun, Merge;
    var patch := NO_CHANGE.(compensation := Some(report));
    SaveIdentity(w, t, patch);
    var t1 := if report != NO_REPORT then SaveInstance(w, t, patch).tick else t;
    EndIdentity(w, t1, if report.failed != [] then FailCompensation(error) else Fail(error));
  }

  lemma UnwindIdentity(w: World, t: Tick, signal: Signal)
    ensures SameIdentity(t.rec.instance, Unwind(w, t, signal).tick.rec.instance)
  {
    hide EndRun;
    EndIdentity(w, t, Cancel);
  }

  lemma EnterIdentity(w: World, t: Tick, error: Err)
    ensures SameIdentity(t.rec.instance, Enter(w, t, error).tick.rec.instance)
  {
    hide SaveInstance;
    SaveIdentity(w, t, NO_CHANGE.(status := Some(Compensating), failureError := Some(error),
                                  failedStep := t.failedStep));
  }

  lemma SequenceIdentity(book: Book, w: World, app: App, d: Delivery, t: Tick, error: Err)
    requires Sound(book, t.rec) && Obeys(app, book)
    ensures SameIdentity(t.rec.instance, FailureSequence(w, app, d, t, error).tick.rec.instance)
  {
    hide Compensate, HandleFailure, Obeys, Sound, Moves, Merge, CompletedMainSteps, SettleTerminal, Accounts, Added,
         Handed, Told, Keeps, Unwind, LatestFirst;
    var entered := Enter(w, t, error);
    EnterUnderway(book, w, t, error);
    EnterIdentity(w, t, error);
    if entered.Go? {
      var trigger := TriggerOf(t.rec.instance, error);
      var undone := Compensate(w, app, d, entered.tick, trigger);
      CompensateMoves(book, w, app, d, entered.tick, trigger);
      MovesSound(book, entered.tick, undone.tick);
      if undone.Stop? {
        UnwindIdentity(w, undone.tick, undone.signal);
      } else {
        var info := FailureInfo(trigger, FailedStepOf(t), CompletedMainSteps(undone.tick.rec), undone.value);
        var handled := HandleFailure(w, app, d, undone.tick, info);
        HandleMoves(book, w, app, d, undone.tick, info);
        if handled.Stop? {
          UnwindIdentity(w, handled.tick, handled.signal);
        } else {
          SettleIdentity(w, handled.tick, trigger, undone.value);
        }
      }
    }
  }

  lemma FailFastIdentity(w: World, t: Tick, err: Err)
    ensures SameIdentity(t.rec.instance, FailFast(w, t, err).tick.rec.instance)
  {
    hide SaveInstance, EndRun;
    var patch := NO_CHANGE.(failedStep := t.failedStep);
    SaveIdentity(w, t, patch);
    EndIdentity(w, if t.failedStep.Some? then SaveInstance(w, t, patch).tick else t, Fail(err));
  }

  lemma ClassifyIdentity(book: Book, w: World, app: App, d: Delivery, t: Tick, err: Err, stepScoped: bool,
                         unrecoverable: bool)
    requires Sound(book, t.rec) && Obeys(app, book)
    ensures SameIdentity(t.rec.instance, Classify(w, app, d, t, err, stepScoped, unrecoverable).tick.rec.instance)
  {
    hide FailureSequence, FailFast, SaveInstance, Sound, Obeys;
    SequenceIdentity(book, w, app, d, t, err);
    FailFastIdentity(w, t, err);
    SaveIdentity(w, t, NO_CHANGE.(status := Some(Yielded)));
  }

  lemma ExecuteIdentity(book: Book, w: World, app: App, d: Delivery, t: Tick)
    requires Sound(book, t.rec) && Obeys(app, book) && Ready(t)
    ensures SameIdentity(t.rec.instance, Execute(w, app, d, t).tick.rec.instance)
  {
    hide Eval, FailureSequence, Classify, SaveInstance, EndRun, Sound, Obeys, SettleTrigger, Follows;
    RanHere(book, w, app, d, t);
    var run := Eval(w, app, d, t, app.main, []);
    if run.Stop? && run.signal.Raised? {
      SequenceIdentity(book, w, app, d, run.tick, SettleTrigger(d, Some(run.signal.err)));
      ClassifyIdentity(book, w, app, d, run.tick, run.signal.err, run.signal.stepScoped, run.signal.unrecoverable);
    } else {
      SequenceIdentity(book, w, app, d, run.tick, SettleTrigger(d, None));
      SaveIdentity(w, run.tick, NO_CHANGE.(status := Some(Yielded)));
      EndIdentity(w, run.tick, if run.Go? then Finish(run.value) else Cancel);
    }
  }

  // -- Whole runs --------------------------------------------------------------------------

  /** The deliveries of a history that did not just repeat an outcome or look at a run that is not there. */
  function Deliveries(app: App, input: InitInput, s: Run, es: seq<Event>): nat
    decreases |es|
  {
    if es == [] then 0
    else
      (if es[0].Deliver? && Unended(s) && !Skipped(s, es[0].delivery) then 1 else 0)
      + Deliveries(app, input, Next(app, input, s, es[0]), es[1..])
  }

  function RunCount(s: Run): nat {
    if s.stored.None? then 0 else s.stored.value.instance.runCount
  }

  /** The run is the one its first delivery was for. */
  predicate IsFor(i: Instance, input: InitInput) {
    && i.id == input.id && i.queueName == input.queueName && i.jobName == input.jobName
    && i.originalJobId == input.jobId && i.input == Clone(input.input) && i.resumeSeq.None?
  }

  lemma DeliveryCounts(book: Book, app: App, input: InitInput, s: Run, w: World, d: Delivery)
    requires Obeys(app, book) && (s.stored.Some? ==> Sound(book, s.stored.value)) && Unended(s) && !Skipped(s, d)
    ensures var n := Next(app, input, s, Deliver(w, d));
            && n.stored.Some? && RunCount(n) == RunCount(s) + 1
            && (if s.stored.None? then IsFor(n.stored.value.instance, input)
                && n.stored.value.instance.createdAt == s.now
                else SameIdentity(s.stored.value.instance, n.stored.value.instance.(runCount := RunCount(s))))
  {
    hide Obeys, Sound, RunLocked, Execute, Clone;
    DeliverTick(app, input, s, w, d);
    BeganSound(book, app, input, s, w);
    ExecuteIdentity(book, w, app, d, Began(input, s, w));
  }

  lemma OthersIdentity(app: App, input: InitInput, s: Run, e: Event)
    requires !e.Deliver? && s.stored.Some?
    ensures var n := Next(app, input, s, e);
            n.stored.Some? && SameIdentity(s.stored.value.instance, n.stored.value.instance)
  {
  }

  /**
   * Whatever happens to a run, it keeps the identity, the input and the creation time of its first delivery,
   * and its counter counts its deliveries.
   */
  lemma {:induction false} IdentityFixed(book: Book, app: App, input: InitInput, s: Run, es: seq<Event>)
    requires Obeys(app, book) && (s.stored.Some? ==> Sound(book, s.stored.value))
    ensures var n := RunAll(app, input, s, es);
            && RunCount(n) == RunCount(s) + Deliveries(app, input, s, es)
            && (s.stored.Some? ==>
                  n.stored.Some?
                  && SameIdentity(s.stored.value.instance, n.stored.value.instance.(runCount := RunCount(s))))
            && (s.stored.None? && n.stored.Some? ==> IsFor(n.stored.value.instance, input))
    decreases |es|
  {
    hide Obeys, Sound, Next, Clone, Skipped;
    if es != [] {
      var e := es[0];
      if !e.Deliver? {
        if s.stored.Some? {
          OthersIdentity(app, input, s, e);
        } else {
          OthersNothing(app, input, s, e);
        }
      } else if !Unended(s) {
        DeliverEnded(app, input, s, e.world, e.delivery);
      } else if Skipped(s, e.delivery) {
        SkippedStays(app, input, s, e.world, e.delivery);
      } else {
        DeliveryCounts(book, app, input, s, e.world, e.delivery);
      }
      NextSound(book, app, input, s, e);
      IdentityFixed(book, app, input, Next(app, input, s, e), es[1..]);
    }
  }

  lemma OthersNothing(app: App, input: InitInput, s: Run, e: Event)
    requires !e.Deliver? && s.stored.None?
    ensures Next(app, input, s, e).stored.None?
  {
  }
}
