/** Post-mortem deliveries, and what an operator's `retryCompensation` starts again. */
module Settlements {
  import opened Values
  import opened Phases
  import opened Records
  import opened Processors
  import opened Steps
  import opened Ticks
  import opened Journal
  import opened Routes
  import opened Sagas
  import opened Failures
  import opened Runs
  import opened Guarantees
  import opened Checkpoints
  import opened Compensating
  import opened Irreversible
  import opened LiveRuns
  import opened Budgets
  import Ordering

  // -- The forward phase of a settlement --------------------------------------------------------

  predicate OffMain(act: Act) {
    !InPhase(act, Main)
  }

  lemma FailureOffMain(a: Tick, b: Tick, rs: seq<Rollback>, trigger: Err, failedStep: Option<string>)
    requires Added(a, b, act => FailureAct(act, rs, trigger, failedStep))
    ensures Added(a, b, OffMain)
  {
    hide LatestFirst;
  }

  /** What a settlement does to the forward phase: it reads it. */
  ghost predicate Settled(app: App, a: Tick, run: Eff<Value>, u: Tick) {
    && run.tick == a.(rollbacks := run.tick.rollbacks, failedStep := run.tick.failedStep)
    && run.tick.rollbacks == RouteIn(app, a.rec).rollbacks
    && MainSame(a.rec, u.rec)
    && Added(a, u, OffMain)
  }

  lemma ExecuteSettles(book: Book, w: World, app: App, d: Delivery, t: Tick)
    requires Sound(book, t.rec) && Obeys(app, book) && Ready(t) && d.mode.Settle?
    ensures Settled(app, t, Eval(w, app, d, t, app.main, []), Execute(w, app, d, t).tick)
  {
    hide Eval, Sound, Obeys, RouteOf, Execute, Follows, FailureEnds, MainSame, Added, Agrees, ChangesOnRoute, OffMain,
         ReadsExhausted;
    var run := Eval(w, app, d, t, app.main, []);
    var u := Execute(w, app, d, t).tick;
    EvalSettling(w, app, d, t, app.main, []);
    SettleSignals(w, app, d, t, app.main, []);
    ForwardEnds(book, w, app, d, t);
    NotesHere(t, run, RouteIn(app, run.tick.rec));
    Ordering.ExecuteMain(book, w, app, d, t);
    SplitFrom(book, w, app, d, t);
    if u.trace == run.tick.trace {
      NoneAdded(t, u);
    } else {
      var error :| FailureEnds(book, run.tick, error, u);
      EndsAdded(book, run.tick, error, u);
      SameStart(t, run.tick, u);
    }
  }

  lemma NoneAdded(t: Tick, u: Tick)
    requires u.trace == t.trace
    ensures Added(t, u, OffMain)
  {
  }

  lemma SameStart(t: Tick, run: Tick, u: Tick)
    requires run.trace == t.trace && Added(run, u, OffMain)
    ensures Added(t, u, OffMain)
  {
  }

  lemma EndsAdded(book: Book, t: Tick, error: Err, u: Tick)
    requires FailureEnds(book, t, error, u)
    ensures Added(t, u, OffMain)
  {
    hide Moves, Closed, FailureAct;
    FailureOffMain(t, u, t.rollbacks, TriggerOf(t.rec.instance, error), FailedStepOf(t));
  }

  /**
   * Settlement safety: a post-mortem delivery starts no forward body and leaves every forward record as
   * it is, on whatever run, wherever it dies.
   */
  lemma SettlementSafe(book: Book, app: App, input: InitInput, s: Run, w: World, d: Delivery)
    requires Obeys(app, book) && (s.stored.Some? ==> Sound(book, s.stored.value)) && d.mode.Settle?
    ensures var n := Next(app, input, s, Deliver(w, d));
            && (s.stored.None? || s.stored.value.instance.status.Terminal() ==> n == s)
            && (s.stored.Some? ==>
                  && n.stored.Some? && MainSame(s.stored.value, n.stored.value)
                  && s.trace <= n.trace
                  && forall i :: |s.trace| <= i < |n.trace| ==> OffMain(n.trace[i]))
  {
    hide Obeys, RunLocked, Execute, MainSame, OffMain, Eval, Sound, RouteOf;
    if s.stored.Some? && Unended(s) {
      DeliverTick(app, input, s, w, d);
      BeganSound(book, app, input, s, w);
      var t := Began(input, s, w);
      ExecuteSettles(book, w, app, d, t);
      SameMainTrans(s.stored.value, t.rec, Execute(w, app, d, t).tick.rec);
      Ordering.StepsSame(s.stored.value, t.rec);
    } else if s.stored.Some? {
      SkippedStays(app, input, s, w, d);
      Ordering.StepsSame(s.stored.value, s.stored.value);
    }
  }

  // -- The in-process loop ------------------------------------------------------------------------

  lemma {:induction false} StartedJoins(x: seq<Act>, y: seq<Act>, k: Key)
    ensures StartCount(x + y, k) == StartCount(x, k) + StartCount(y, k)
  {
    if x == [] {
      assert x + y == y;
    } else {
      assert (x + y)[1..] == x[1..] + y;
      StartedJoins(x[1..], y, k);
    }
  }

  lemma AttemptStartsOnce(w: World, app: App, d: Delivery, t: Tick, key: string, o: StepOptions, arg: Argument,
                          a: Attempt)
    ensures var r := RunAttempt(w, app, d, t, key, o, arg, a);
            && t.trace <= r.tick.trace && r.tick.phase == t.phase
            && StartCount(r.tick.trace[|t.trace|..], Key(t.phase, key)) == 1
            && (r.Go? && r.value.None? ==> d.mode.Settle? && a.attempts < Policy(app, o).attempts)
  {
    hide HandleStepError, Policy;
    var k := Key(t.phase, key);
    var r := RunAttempt(w, app, d, t, key, o, arg, a);
    var start := Started(k, a.attempts, t.now, arg);
    var p1 := Pass(w, t.(trace := t.trace + [start]));
    var b := Thrown(d, w.body(k, a.attempts));
    if p1.Stop? || b.NestedYield? || b.NestedCancel? {
      StartsOnce(t.trace, r.tick.trace, start, []);
    } else if b.Succeeds? {
      StartsOnce(t.trace, r.tick.trace, start, [Ended(k, a.attempts)]);
    } else {
      ErrorActs(w, app, d, p1.tick, key, o, a, b);
      assert r.tick.trace[..|t.trace| + 1] == t.trace + [start];
      StartsOnce(t.trace, r.tick.trace, start, [r.tick.trace[|t.trace| + 1]]);
    }
  }

  lemma StartsOnce(before: seq<Act>, after: seq<Act>, start: Act, closing: seq<Act>)
    requires start.Started? && after == before + [start] + closing
    requires closing == [] || (|closing| == 1 && Closing(closing[0]))
    ensures before <= after && StartCount(after[|before|..], start.key) == 1
  {
    var acts := after[|before|..];
    assert acts == [start] + closing && acts[1..] == closing;
    NoMoreStarts(closing, start.key);
  }

  /** The loop ends: a live delivery runs the body once, a settlement at most once per remaining attempt. */
  lemma {:induction false} LoopStarts(w: World, app: App, d: Delivery, t: Tick, key: string, o: StepOptions,
                                      arg: Argument, a: Attempt)
    ensures var r := AttemptLoop(w, app, d, t, key, o, arg, a);
            var m := Policy(app, o).attempts;
            && t.trace <= r.tick.trace
            && var starts := StartCount(r.tick.trace[|t.trace|..], Key(t.phase, key));
               && (d.mode.Normal? ==> starts == 1)
               && 1 <= starts <= if a.attempts < m then m - a.attempts + 1 else 1
    decreases if a.attempts < Policy(app, o).attempts then Policy(app, o).attempts - a.attempts else 0
  {
    hide RunAttempt, Policy;
    AttemptStartsOnce(w, app, d, t, key, o, arg, a);
    var r := RunAttempt(w, app, d, t, key, o, arg, a);
    if r.Go? && r.value.None? {
      var more := a.(attempts := a.attempts + 1);
      LoopStarts(w, app, d, r.tick, key, o, arg, more);
      var u := AttemptLoop(w, app, d, r.tick, key, o, arg, more).tick;
      assert u.trace[|t.trace|..] == r.tick.trace[|t.trace|..] + u.trace[|r.tick.trace|..];
      StartedJoins(r.tick.trace[|t.trace|..], u.trace[|r.tick.trace|..], Key(t.phase, key));
    }
  }

  // -- Operator retries ------------------------------------------------------------------------------

  /**
   * After `retryCompensation`, only compensations and failure-handler steps start again, and none of
   * them had completed.
   */
  lemma RetryCompensationStarts(book: Book, app: App, input: InitInput, s: Run, es: seq<Event>, i: nat)
    requires Obeys(app, book) && s.stored.Some? && Sound(book, s.stored.value)
    requires s.stored.value.instance.status.CompensationFailed? && Committed(app, s.stored.value)
    requires es != [] && es[0].RetryCompensation? && Guarded(app, input, s, es)
    requires forall j :: 0 <= j < |es| ==> !es[j].RetryRun?
    requires |s.trace| <= i < |RunAll(app, input, s, es).trace|
    ensures var act := RunAll(app, input, s, es).trace[i];
            act.Started? ==> act.key.phase != Main && !s.stored.value.Has(act.key, StepCompleted)
  {
    hide Obeys, Sound, RunAll, Guarded, Committed;
    IrreversibleFailure(book, app, input, s, es);
    var act := RunAll(app, input, s, es).trace[i];
    if act.Started? && s.stored.value.Has(act.key, StepCompleted) {
      CompletedForEver(book, app, input, s, es, act.key);
    }
  }

  /** The same from scratch, with the condition on the events alone. */
  lemma RetryCompensationStartsLive(book: Book, app: App, input: InitInput, es: seq<Event>, more: seq<Event>, i: nat)
    requires Obeys(app, book) && PlainLive(app, book, es) && PlainLive(app, book, more)
    requires more != [] && more[0].RetryCompensation? && forall j :: 0 <= j < |more| ==> !more[j].RetryRun?
    requires var s := RunAll(app, input, FRESH, es);
             s.stored.Some? && s.stored.value.instance.status.CompensationFailed?
    requires var s := RunAll(app, input, FRESH, es);
             |s.trace| <= i < |RunAll(app, input, s, more).trace|
    ensures var s := RunAll(app, input, FRESH, es);
            var act := RunAll(app, input, s, more).trace[i];
            act.Started? ==> act.key.phase != Main && !s.stored.value.Has(act.key, StepCompleted)
  {
    hide Obeys, Sound, RunAll, Guarded, Committed, Plain;
    LiveReach(book, app, input, es, more);
    RetryCompensationStarts(book, app, input, RunAll(app, input, FRESH, es), more, i);
  }
}
