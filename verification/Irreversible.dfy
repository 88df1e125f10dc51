/** Compensating is a one-way street exactly as long as no delivery runs the forward phase past its frontier. */
module Irreversible {
  import opened Values
  import opened Phases
  import opened Records
  import opened Processors
  import opened Steps
  import opened Ticks
  import opened Journal
  import opened Routes
  import opened Sagas
  import opened Failures
  import opened Runs
  import opened Guarantees
  import opened Cancellations
  import opened Compensating

  /**
   * No live delivery of a compensating run whose forward replay would run into an unfinished step, and
   * none of another run in which the processor looks at an error that will not replay.
   */
  ghost predicate GuardedEvent(app: App, input: InitInput, s: Run, e: Event) {
    e.Deliver? ==>
      if s.stored.Some? && s.stored.value.instance.status.Compensating? then Guard(app, e.delivery, s.stored.value)
      else FaithfulEvent(app, input, s, e)
  }

  ghost predicate Guarded(app: App, input: InitInput, s: Run, es: seq<Event>)
    decreases |es|
  {
    es == [] || (GuardedEvent(app, input, s, es[0]) && Guarded(app, input, Next(app, input, s, es[0]), es[1..]))
  }

  /** From act number `from` on, everybody was told what the run has on record. */
  ghost predicate Story(app: App, s: Run, from: nat) {
    && (s.stored.None? ==> |s.trace| <= from)
    && (s.stored.Some? ==>
          && Committed(app, s.stored.value)
          && forall i :: from <= i < |s.trace| ==> Tells(s.trace[i], s.stored.value.instance))
  }

  lemma TellsOn(act: Act, i: Instance, j: Instance)
    requires Tells(act, i)
    requires i.failureError.Some? ==> j.failureError == i.failureError && j.failedStep == i.failedStep
    ensures Tells(act, j)
  {
  }

  lemma BeganCommitted(app: App, input: InitInput, s: Run, w: World)
    requires Unended(s) && (s.stored.Some? ==> Committed(app, s.stored.value))
    ensures var i := Began(input, s, w).rec.instance;
            && Committed(app, Began(input, s, w).rec)
            && (s.stored.Some? ==>
                  && i.failureError == s.stored.value.instance.failureError
                  && i.failedStep == s.stored.value.instance.failedStep
                  && (i.status.Compensating? <==> s.stored.value.instance.status.Compensating?)
                  && RouteIn(app, Began(input, s, w).rec) == RouteIn(app, s.stored.value))
            && (s.stored.None? ==> i.status.Running?)
  {
    hide RouteOf;
  }

  lemma TickStory(app: App, s: Run, t: Tick, u: Tick, from: nat)
    requires Story(app, s, from) && t.trace == s.trace && from <= |s.trace|
    requires s.stored.Some? ==> t.rec.instance.failureError == s.stored.value.instance.failureError
                                && t.rec.instance.failedStep == s.stored.value.instance.failedStep
    requires Committed(app, u.rec) && Added(t, u, act => Tells(act, u.rec.instance))
    requires t.rec.instance.failureError.Some? ==>
               && u.rec.instance.failureError == t.rec.instance.failureError
               && u.rec.instance.failedStep == t.rec.instance.failedStep
    ensures Story(app, Run(Some(u.rec), u.now, u.trace), from) && from <= |u.trace|
  {
    hide Committed, Tells;
    forall i | from <= i < |u.trace| ensures Tells(u.trace[i], u.rec.instance) {
      if i < |s.trace| {
        assert u.trace[i] == s.trace[i];
        TellsOn(s.trace[i], s.stored.value.instance, u.rec.instance);
      }
    }
  }

  lemma DeliverStory(book: Book, app: App, input: InitInput, s: Run, w: World, d: Delivery, from: nat)
    requires Obeys(app, book) && (s.stored.Some? ==> Sound(book, s.stored.value))
    requires Unended(s) && !Skipped(s, d) && GuardedEvent(app, input, s, Deliver(w, d))
    requires Story(app, s, from) && from <= |s.trace|
    ensures Story(app, Next(app, input, s, Deliver(w, d)), from) && from <= |Next(app, input, s, Deliver(w, d)).trace|
  {
    hide Obeys, Committed, RouteOf, Execute, Sound, Tells, Covered, Next, RunLocked, Skipped;
    BeganSound(book, app, input, s, w);
    BeganCommitted(app, input, s, w);
    DeliverTick(app, input, s, w, d);
    var t := Began(input, s, w);
    var u := RunLocked(w, app, d, s.stored, input, s.now, s.trace).tick;
    if u != t {
      TickTells(book, w, app, d, t);
    }
    TickStory(app, s, t, u, from);
  }

  lemma CommittedLess(app: App, a: Record, b: Record)
    requires Committed(app, a) && MainSame(a, b)
    requires b.instance.failureError == a.instance.failureError && b.instance.failedStep == a.instance.failedStep
    requires b.instance.status.Compensating? ==>
               a.instance.status.Compensating? || a.instance.status.CompensationFailed?
    requires b.instance.status.CompensationFailed? ==> a.instance.status.CompensationFailed?
    requires !b.instance.status.Running? && !b.instance.status.Yielded?
    ensures Committed(app, b)
  {
    hide RouteOf;
    RouteOfMain(app.main, a, b, []);
  }

  lemma NextStory(book: Book, app: App, input: InitInput, s: Run, e: Event, from: nat)
    requires Obeys(app, book) && (s.stored.Some? ==> Sound(book, s.stored.value))
    requires GuardedEvent(app, input, s, e) && !e.RetryRun?
    requires Story(app, s, from) && from <= |s.trace|
    ensures Story(app, Next(app, input, s, e), from) && from <= |Next(app, input, s, e).trace|
  {
    hide Obeys, RouteOf, RunLocked, GuardedEvent;
    match e
    case Deliver(w, d) =>
      if Unended(s) && !Skipped(s, d) {
        DeliverStory(book, app, input, s, w, d, from);
      } else if !Unended(s) {
        DeliverEnded(app, input, s, w, d);
      }
    case RetryCompensation(n) =>
      if s.stored.Some? && s.stored.value.instance.status.CompensationFailed? {
        CommittedLess(app, s.stored.value, RetryComp(s.stored.value, n, s.now));
      }
    case CancelByOperator =>
      if s.stored.Some? && !s.stored.value.instance.status.Completed? {
        CommittedLess(app, s.stored.value, s.stored.value.End(Cancel, s.now));
      }
    case Wait(_) =>
  }

  /**
   * One trigger for everyone: between two operator retries, every compensation and every call of
   * `onFailure`, on whatever delivery, is handed the error and failed step the run has on record.
   */
  lemma {:induction false} OneTrigger(book: Book, app: App, input: InitInput, s: Run, es: seq<Event>, from: nat)
    requires Obeys(app, book) && (s.stored.Some? ==> Sound(book, s.stored.value))
    requires Guarded(app, input, s, es) && forall i :: 0 <= i < |es| ==> !es[i].RetryRun?
    requires Story(app, s, from) && from <= |s.trace|
    ensures Story(app, RunAll(app, input, s, es), from)
    decreases |es|
  {
    hide Obeys, Next, Story, GuardedEvent;
    if es != [] {
      NextStory(book, app, input, s, es[0], from);
      NextSound(book, app, input, s, es[0]);
      OneTrigger(book, app, input, Next(app, input, s, es[0]), es[1..], from);
    }
  }

  // -- No way back -------------------------------------------------------------------------

  predicate Doomed(status: Status) {
    status.Compensating? || status.Failed? || status.CompensationFailed? || status.Cancelled?
  }

  /** `n` is on the way down from `s`: same trigger, same forward records, no forward step has acted. */
  ghost predicate Descends(s: Run, n: Run) {
    && s.stored.Some? && n.stored.Some?
    && var a, b := s.stored.value, n.stored.value;
       && Doomed(b.instance.status) && MainSame(a, b)
       && b.instance.failureError == a.instance.failureError && b.instance.failedStep == a.instance.failedStep
       && s.trace <= n.trace
       && forall i :: |s.trace| <= i < |n.trace| ==> n.trace[i].Handled? || n.trace[i].key.phase != Main
  }

  lemma ResumedDescends(book: Book, app: App, s: Run, t: Tick, u: Tick)
    requires Resumed(book, app, t, u) && t.rec.instance.failureError.Some?
    requires s.stored.Some? && s.stored.value.steps == t.rec.steps && s.trace == t.trace
    requires s.stored.value.instance.failureError == t.rec.instance.failureError
    requires s.stored.value.instance.failedStep == t.rec.instance.failedStep
    ensures Descends(s, Run(Some(u.rec), u.now, u.trace))
  {
    hide Follows, Sound, RouteOf, LatestFirst;
  }

  lemma DeliverDescends(book: Book, app: App, input: InitInput, s: Run, w: World, d: Delivery)
    requires Obeys(app, book) && s.stored.Some? && Sound(book, s.stored.value)
    requires s.stored.value.instance.status.Compensating? && Committed(app, s.stored.value)
    requires GuardedEvent(app, input, s, Deliver(w, d))
    ensures Descends(s, Next(app, input, s, Deliver(w, d)))
  {
    hide Obeys, Committed, RouteOf, Execute, Sound, Covered, Next, RunLocked, Descends, Resumed;
    BeganSound(book, app, input, s, w);
    BeganCommitted(app, input, s, w);
    DeliverTick(app, input, s, w, d);
    var t := Began(input, s, w);
    var u := RunLocked(w, app, d, s.stored, input, s.now, s.trace).tick;
    CommittedError(app, t.rec);
    if u != t {
      ExecuteResumes(book, w, app, d, t);
      ResumedDescends(book, app, s, t, u);
    } else {
      RestDescends(s, Run(Some(u.rec), u.now, u.trace));
    }
  }

  lemma CommittedError(app: App, rec: Record)
    requires Committed(app, rec) && rec.instance.status.Compensating?
    ensures rec.instance.failureError.Some?
  {
  }

  lemma RestDescends(s: Run, n: Run)
    requires s.stored.Some? && n.stored.Some? && n.trace == s.trace
    requires n.stored.value.steps == s.stored.value.steps && Doomed(n.stored.value.instance.status)
    requires n.stored.value.instance.failureError == s.stored.value.instance.failureError
    requires n.stored.value.instance.failedStep == s.stored.value.instance.failedStep
    ensures Descends(s, n)
  {
  }

  lemma NextDescends(book: Book, app: App, input: InitInput, s: Run, e: Event)
    requires Obeys(app, book) && s.stored.Some? && Sound(book, s.stored.value)
    requires Doomed(s.stored.value.instance.status) && Committed(app, s.stored.value)
    requires GuardedEvent(app, input, s, e) && !e.RetryRun?
    ensures Descends(s, Next(app, input, s, e))
  {
    hide Obeys, RouteOf, RunLocked, GuardedEvent, Committed;
    match e
    case Deliver(w, d) =>
      if s.stored.value.instance.status.Compensating? {
        DeliverDescends(book, app, input, s, w, d);
      } else {
        DeliverEnded(app, input, s, w, d);
      }
    case RetryCompensation(n) =>
    case CancelByOperator =>
    case Wait(_) =>
  }

  /**
   * Irreversible failure: a compensating run only ever becomes `failed`, `compensation_failed` or
   * `cancelled`. Its trigger, its failed step and its forward records stay as they are and no forward
   * body runs, over any deliveries, settlements, crashes and compensation retries.
   */
  lemma {:induction false} IrreversibleFailure(book: Book, app: App, input: InitInput, s: Run, es: seq<Event>)
    requires Obeys(app, book) && s.stored.Some? && Sound(book, s.stored.value)
    requires Doomed(s.stored.value.instance.status) && Committed(app, s.stored.value)
    requires Guarded(app, input, s, es) && forall i :: 0 <= i < |es| ==> !es[i].RetryRun?
    ensures Descends(s, RunAll(app, input, s, es))
    decreases |es|
  {
    hide Obeys, Next, Committed, GuardedEvent;
    if es == [] {
      RestDescends(s, s);
    } else {
      var n := Next(app, input, s, es[0]);
      NextDescends(book, app, input, s, es[0]);
      NextSound(book, app, input, s, es[0]);
      NextStory(book, app, input, s, es[0], |s.trace|);
      IrreversibleFailure(book, app, input, n, es[1..]);
      DescendsTrans(s, n, RunAll(app, input, n, es[1..]));
    }
  }

  lemma DescendsTrans(a: Run, b: Run, c: Run)
    requires Descends(a, b) && Descends(b, c)
    ensures Descends(a, c)
  {
    forall i | |a.trace| <= i < |c.trace| ensures c.trace[i].Handled? || c.trace[i].key.phase != Main {
      if i < |b.trace| {
        assert c.trace[i] == b.trace[i];
      }
    }
  }

  /** `Committed` is no assumption: every guarded run from scratch stays so, operator retries included. */
  lemma {:induction false} AlwaysCommitted(book: Book, app: App, input: InitInput, s: Run, es: seq<Event>)
    requires Obeys(app, book) && Guarded(app, input, s, es)
    requires s.stored.Some? ==> Sound(book, s.stored.value) && Committed(app, s.stored.value)
    ensures var n := RunAll(app, input, s, es);
            n.stored.Some? ==> Committed(app, n.stored.value)
    decreases |es|
  {
    hide Obeys, Next, GuardedEvent;
    if es != [] {
      var n := Next(app, input, s, es[0]);
      if es[0].RetryRun? {
        RetryCommitted(app, input, s, es[0]);
      } else {
        NextStory(book, app, input, s, es[0], |s.trace|);
      }
      NextSound(book, app, input, s, es[0]);
      AlwaysCommitted(book, app, input, n, es[1..]);
    }
  }

  lemma RetryCommitted(app: App, input: InitInput, s: Run, e: Event)
    requires e.RetryRun? && (s.stored.Some? ==> Committed(app, s.stored.value))
    ensures var n := Next(app, input, s, e);
            n.stored.Some? ==> Committed(app, n.stored.value)
  {
    hide RouteOf;
  }

  /**
   * Guarded or not, no single delivery takes a run from compensating to completed or back to running, and
   * none yields unless the forward replay ran into something unfinished.
   */
  lemma NeverCompletesFromCompensating(book: Book, app: App, input: InitInput, s: Run, w: World, d: Delivery)
    requires Obeys(app, book) && s.stored.Some? && Sound(book, s.stored.value)
    requires s.stored.value.instance.status.Compensating?
    ensures var n := Next(app, input, s, Deliver(w, d));
            && n.stored.Some? && !n.stored.value.instance.status.Completed? && !n.stored.value.instance.status.Running?
            && (n.stored.value.instance.status.Yielded? ==> d.mode.Normal? && RouteIn(app, s.stored.value).end.Pending?)
  {
    hide Obeys, RunLocked, Execute, Follows, Sound, RouteOf, ChangesOnRoute, Discharged, Resumed;
    DeliverTick(app, input, s, w, d);
    DeliverKeeps(book, app, input, s, w, d);
    StillCompensating(input, s, w);
    var t := Began(input, s, w);
    BeganMain(app, s, t);
    if Guard(app, d, t.rec) {
      ExecuteResumes(book, w, app, d, t);
      ResumedMain(book, app, t, Execute(w, app, d, t).tick);
    }
  }

  lemma StillCompensating(input: InitInput, s: Run, w: World)
    requires s.stored.Some? && s.stored.value.instance.status.Compensating?
    ensures Began(input, s, w).rec.instance.status.Compensating?
  {
  }

  // -- The exact condition -------------------------------------------------------------------

  /** A forward part that cancels its run has started a forward body, and that shows in the forward records. */
  lemma CancelMoves(book: Book, w: World, app: App, d: Delivery, t: Tick)
    requires Sound(book, t.rec) && Obeys(app, book) && Ready(t)
    requires var run := Eval(w, app, d, t, app.main, []); run.Stop? && run.signal.CancelledRun?
    ensures !MainSame(t.rec, Eval(w, app, d, t, app.main, []).tick.rec)
  {
    hide Eval, Sound, ProcessorObeys, MainSame;
    var run := Eval(w, app, d, t, app.main, []);
    RanHere(book, w, app, d, t);
    EvalCancels(book, w, app, d, t, app.main, []);
    EvalActs(w, app, d, t, app.main, []);
    StartMoves(w, t, run.tick);
  }

  lemma StartMoves(w: World, t: Tick, u: Tick)
    requires Follows(t, u) && CancelStarted(w, t, u) && Added(t, u, act => InPhase(act, Main))
    ensures !MainSame(t.rec, u.rec)
  {
    var i :| |t.trace| <= i < |u.trace| && StartsCancel(w, u.trace[i]);
    assert ActFits(t, u, u.trace[i]) && InPhase(u.trace[i], Main);
  }

  /** A live tick of a compensating run whose route is waiting for something turns the run round or moves forward. */
  lemma FrontierRetreats(book: Book, w: World, app: App, d: Delivery, t: Tick)
    requires Sound(book, t.rec) && Obeys(app, book) && Ready(t) && d.mode.Normal?
    requires t.rec.instance.status.Compensating? && RouteIn(app, t.rec).end.Pending?
    requires Execute(w, app, d, t).Go?
    ensures var u := Execute(w, app, d, t).tick;
            u.rec.instance.status.Yielded? || !MainSame(t.rec, u.rec)
  {
    hide Eval, Sound, RouteOf, Obeys, FailureSequence, Classify, MainSame, FailureEnds, ReadsExhausted;
    RanHere(book, w, app, d, t);
    var run := Eval(w, app, d, t, app.main, []);
    var u := Execute(w, app, d, t).tick;
    ObeysMain(app, book);
    RanOn(book, d, t, run);
    if run.Go? || run.signal.Raised? {
      var error := if run.Stop? then SettleTrigger(d, Some(run.signal.err)) else SettleTrigger(d, None);
      FailureSequenceEnds(book, w, app, d, run.tick, error);
      SequenceMain(book, run.tick, error, u);
      ForwardMoved(book, w, app, d, t);
      MainSameAcross(t.rec, run.tick.rec, u.rec);
    } else if run.signal.CancelledRun? {
      CancelMoves(book, w, app, d, t);
      CancelStays(w, run.tick);
      SameMainAfter(t.rec, run.tick.rec, u.rec);
    }
  }

  lemma CancelStays(w: World, t: Tick)
    ensures CancelRun(w, t).tick.rec.steps == t.rec.steps
  {
  }

  lemma SameMainAfter(a: Record, b: Record, c: Record)
    requires c.steps == b.steps
    ensures MainSame(a, c) <==> MainSame(a, b)
  {
  }

  lemma RanOn(book: Book, d: Delivery, t: Tick, run: Eff<Value>)
    requires Ready(t) && Ran(book, d, t, run) && d.mode.Normal?
    ensures run.Stop? ==> !run.signal.SettleIncomplete?
    ensures Sound(book, run.tick.rec) && SameRun(t.rec.instance, run.tick.rec.instance)
  {
    hide Follows, Sound;
  }

  /** A forward part that gets past an unfinished step has written to the forward records. */
  lemma ForwardMoved(book: Book, w: World, app: App, d: Delivery, t: Tick)
    requires Sound(book, t.rec) && Obeys(app, book) && Ready(t) && d.mode.Normal? && RouteIn(app, t.rec).end.Pending?
    requires var run := Eval(w, app, d, t, app.main, []); run.Go? || run.signal.Raised?
    ensures !MainSame(t.rec, Eval(w, app, d, t, app.main, []).tick.rec)
  {
    hide Eval, Sound, RouteOf, Obeys, Forward, MainSame, ReadsExhausted;
    var run := Eval(w, app, d, t, app.main, []);
    ObeysMain(app, book);
    if ReadsExhausted(w, app, d, t, app.main, []) {
      ExhaustedFails(book, w, app, d, t, app.main, []);
      NewFailure(t.rec, run.tick.rec);
    } else {
      ForwardEnds(book, w, app, d, t);
      ForwardEnd(book, app, d, t, run);
      MainSameRoute(app, t.rec, run.tick.rec);
    }
  }

  lemma NewFailure(a: Record, b: Record)
    requires exists k: Key :: k.phase == Main && !a.Has(k, StepFailed) && b.Has(k, StepFailed)
    ensures !MainSame(a, b)
  {
  }

  lemma MainSameAcross(a: Record, b: Record, c: Record)
    requires MainSame(b, c) && !MainSame(a, b)
    ensures !MainSame(a, c)
  {
  }

  lemma ForwardEnd(book: Book, app: App, d: Delivery, t: Tick, run: Eff<Value>)
    requires Ready(t) && Forward(book, app, d, t, run) && d.mode.Normal?
    ensures run.Go? || run.signal.Raised? ==> !RouteIn(app, run.tick.rec).end.Pending?
  {
    hide Follows, Sound, RouteOf, ChangesOnRoute;
  }

  lemma SequenceMain(book: Book, t: Tick, error: Err, u: Tick)
    requires FailureEnds(book, t, error, u)
    ensures MainSame(t.rec, u.rec)
  {
    hide Follows, Sound, MainSame, Closed, Added;
  }

  lemma MainSameRoute(app: App, a: Record, b: Record)
    requires RouteIn(app, a).end.Pending? && !RouteIn(app, b).end.Pending?
    ensures !MainSame(a, b)
  {
    hide RouteOf;
    if MainSame(a, b) {
      RouteOfMain(app.main, a, b, []);
    }
  }

  /**
   * The exact condition: a live delivery of a compensating run, once it returns, has left the forward
   * records alone and the run on its way down if and only if the forward replay runs into nothing unfinished.
   */
  lemma ResumesDownwardsExactly(book: Book, app: App, input: InitInput, s: Run, w: World, d: Delivery)
    requires Obeys(app, book) && s.stored.Some? && Sound(book, s.stored.value)
    requires s.stored.value.instance.status.Compensating? && d.mode.Normal?
    requires RunLocked(w, app, d, s.stored, input, s.now, s.trace).Go?
    ensures var n := Next(app, input, s, Deliver(w, d));
            && n.stored.Some?
            && (!n.stored.value.instance.status.Yielded? && MainSame(s.stored.value, n.stored.value)
                <==> !RouteIn(app, s.stored.value).end.Pending?)
  {
    hide Obeys, RouteOf, Execute, Sound, Covered, MainSame, Resumed;
    BeganSound(book, app, input, s, w);
    var t := Began(input, s, w);
    BeganMain(app, s, t);
    if RouteIn(app, t.rec).end.Pending? {
      FrontierRetreats(book, w, app, d, t);
    } else {
      ExecuteResumes(book, w, app, d, t);
      ResumedMain(book, app, t, Execute(w, app, d, t).tick);
    }
    SameMainTrans(s.stored.value, t.rec, Execute(w, app, d, t).tick.rec);
  }

  lemma BeganMain(app: App, s: Run, t: Tick)
    requires s.stored.Some? && t.rec.steps == s.stored.value.steps
    ensures RouteIn(app, t.rec) == RouteIn(app, s.stored.value)
  {
  }

  lemma ResumedMain(book: Book, app: App, t: Tick, u: Tick)
    requires Resumed(book, app, t, u)
    ensures MainSame(t.rec, u.rec) && !u.rec.instance.status.Yielded?
  {
    hide RouteOf, Follows, Sound, MainSame, Added;
  }

  lemma SameMainTrans(a: Record, b: Record, c: Record)
    requires a.steps == b.steps
    ensures MainSame(a, c) <==> MainSame(b, c)
  {
  }
}
