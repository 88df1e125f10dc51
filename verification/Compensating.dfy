/** Once a run is compensating: what can still turn it round, and who hears of which error. */
module Compensating {
  import opened Values
  import opened Phases
  import opened Records
  import opened Processors
  import opened Steps
  import opened Ticks
  import opened Journal
  import opened Routes
  import opened Sagas
  import opened Failures
  import opened Runs
  import opened Guarantees

  /** A delivery that replays the forward phase without running into anything unfinished. */
  ghost predicate Guard(app: App, d: Delivery, rec: Record) {
    d.mode.Normal? ==> !RouteIn(app, rec).end.Pending?
  }

  lemma {:induction false} SettleSignals(w: World, app: App, d: Delivery, t: Tick, p: Processor, seen: seq<Seen>)
    requires t.phase == Main && d.mode.Settle?
    ensures var r := Eval(w, app, d, t, p, seen);
            r.Stop? ==> r.signal.Raised? || r.signal.SettleIncomplete?
    decreases p.Left(seen)
  {
    hide BeginOrReplay, AttemptLoop;
    match p.At(seen)
    case Return(_) =>
    case Throw(_, _, _) =>
    case Pause(key, delay) =>
      if SleepFor(w, d, t, key, delay).Go? {
        SettleSignals(w, app, d, t, p, seen + [Slept]);
      }
    case Call(key, o, recovery) =>
      var c := ExecuteStep(w, app, d, t, key, o, Nothing);
      assert c.tick == t.(rollbacks := c.tick.rollbacks, failedStep := c.tick.failedStep);
      if GoesOn(recovery, c) {
        SettleSignals(w, app, d, c.tick, p, seen + [SeenOf(recovery, c)]);
      }
  }

  /** The forward part of a guarded delivery of a compensating run only rebuilds what the route registers. */
  lemma ReplayOnly(book: Book, w: World, app: App, d: Delivery, t: Tick)
    requires Sound(book, t.rec) && Obeys(app, book) && Ready(t)
    requires t.rec.instance.status.Compensating? && Guard(app, d, t.rec)
    ensures var run := Eval(w, app, d, t, app.main, []);
            var route := RouteIn(app, t.rec);
            && run.tick == t.(rollbacks := route.rollbacks, failedStep := route.failedStep)
            && (run.Go? || run.signal.Raised? || run.signal.SettleIncomplete?)
  {
    hide Eval, Sound, Follows, Agrees, ChangesOnRoute, RouteOf, ProcessorObeys, Obeys, ReadsExhausted;
    var run := Eval(w, app, d, t, app.main, []);
    if d.mode.Settle? {
      EvalSettling(w, app, d, t, app.main, []);
      SettleSignals(w, app, d, t, app.main, []);
    } else {
      EvalQuiet(w, app, d, t, app.main, []);
    }
    ForwardEnds(book, w, app, d, t);
    NotesHere(t, run, RouteIn(app, run.tick.rec));
  }

  /** A guarded tick of a compensating run. */
  ghost predicate Resumed(book: Book, app: App, t: Tick, u: Tick) {
    var before, after := t.rec.instance, u.rec.instance;
    var route := RouteIn(app, t.rec);
    && Moves(book, t, u)
    && (after.status.Compensating? || after.status.Failed? || after.status.CompensationFailed?
        || after.status.Cancelled?)
    && after.failureError == before.failureError && after.failedStep == before.failedStep
    && (before.failureError.Some? ==>
          Added(t, u, act => FailureAct(act, route.rollbacks, before.failureError.value,
                                        before.failedStep.OrElse(route.failedStep))))
  }

  lemma SequenceResumes(book: Book, app: App, t: Tick, run: Tick, error: Err, u: Tick)
    requires t.rec.instance.status.Compensating?
    requires run == t.(rollbacks := RouteIn(app, t.rec).rollbacks, failedStep := RouteIn(app, t.rec).failedStep)
    requires FailureEnds(book, run, error, u)
    ensures Resumed(book, app, t, u)
  {
    hide RouteOf, Sound, FailureAct, Closed, Advances;
  }

  lemma ExecuteResumes(book: Book, w: World, app: App, d: Delivery, t: Tick)
    requires Sound(book, t.rec) && Obeys(app, book) && Ready(t)
    requires t.rec.instance.status.Compensating? && Guard(app, d, t.rec)
    ensures Resumed(book, app, t, Execute(w, app, d, t).tick)
  {
    hide Eval, Sound, RouteOf, Obeys, FailureSequence, Resumed, Guard, FailureEnds, Classify;
    ReplayOnly(book, w, app, d, t);
    var run := Eval(w, app, d, t, app.main, []);
    var error := if run.Stop? && run.signal.Raised? then SettleTrigger(d, Some(run.signal.err))
                     else SettleTrigger(d, None);
    FailureSequenceEnds(book, w, app, d, run.tick, error);
    SequenceResumes(book, app, t, run.tick, error, FailureSequence(w, app, d, run.tick, error).tick);
  }

  // -- The same error for everyone --------------------------------------------------------

  /** Handlers were told the error and the failed step that the run has on record. */
  predicate Tells(act: Act, i: Instance) {
    match act
    case Handled(info) => i.failureError == Some(info.error) && i.failedStep == info.failedStep
    case Started(k, _, _, argument) =>
      k.phase == Compensation ==> argument.Undo? && i.failureError == Some(argument.error)
    case _ => true
  }

  /** A run on its way has no trigger on record; a compensating one has, with the failed step of its route. */
  ghost predicate Committed(app: App, rec: Record) {
    var i, route := rec.instance, RouteIn(app, rec);
    && (i.status.Compensating? || i.status.CompensationFailed? ==>
          i.failureError.Some? && i.failedStep == route.failedStep)
    && (i.status.Running? || i.status.Yielded? ==>
          && i.failureError.None?
          && (i.failedStep.None? || (i.failedStep == route.failedStep && !route.end.Pending?)))
  }

  lemma FailureTells(act: Act, rs: seq<Rollback>, trigger: Err, failedStep: Option<string>, i: Instance)
    requires FailureAct(act, rs, trigger, failedStep) && i.failureError == Some(trigger) && i.failedStep == failedStep
    ensures Tells(act, i)
  {
    hide LatestFirst;
  }

  lemma AddedTells(a: Tick, b: Tick, rs: seq<Rollback>, trigger: Err, failedStep: Option<string>, i: Instance)
    requires Added(a, b, act => FailureAct(act, rs, trigger, failedStep))
    requires i.failureError == Some(trigger) && i.failedStep == failedStep
    ensures Added(a, b, act => Tells(act, i))
  {
    hide FailureAct, Tells;
    forall act | FailureAct(act, rs, trigger, failedStep) ensures Tells(act, i) {
      FailureTells(act, rs, trigger, failedStep, i);
    }
  }

  lemma ForwardTells(w: World, app: App, d: Delivery, t: Tick, i: Instance)
    requires t.phase == Main
    ensures Added(t, Eval(w, app, d, t, app.main, []).tick, act => Tells(act, i))
  {
    hide Eval;
    EvalActs(w, app, d, t, app.main, []);
    AddedWeaken(t, Eval(w, app, d, t, app.main, []).tick, act => InPhase(act, t.phase), act => Tells(act, i));
  }

  lemma ClassifySplits(w: World, app: App, d: Delivery, t: Tick, err: Err, stepScoped: bool, unrecoverable: bool)
    ensures var u := Classify(w, app, d, t, err, stepScoped, unrecoverable).tick;
            u.trace == t.trace || u == FailureSequence(w, app, d, t, err).tick
  {
    hide FailureSequence, Merge;
  }

  /** How a tick ends: with no further act, or with the failure sequence. */
  lemma ExecuteSplits(w: World, app: App, d: Delivery, t: Tick)
    ensures var run := Eval(w, app, d, t, app.main, []);
            var u := Execute(w, app, d, t).tick;
            || u.trace == run.tick.trace
            || ((run.Go? || run.signal.Raised? || run.signal.SettleIncomplete?)
                && exists error :: u == FailureSequence(w, app, d, run.tick, error).tick)
  {
    hide Eval, FailureSequence, Classify, Merge, SettleTrigger;
    var run := Eval(w, app, d, t, app.main, []);
    if run.Stop? && run.signal.Raised? {
      ClassifySplits(w, app, d, run.tick, run.signal.err, run.signal.stepScoped, run.signal.unrecoverable);
    }
  }

  lemma CommittedOn(book: Book, app: App, d: Delivery, t: Tick, u: Tick)
    requires Ready(t) && t.rec.instance.status.Running?
    requires Committed(app, t.rec) && TickEnds(book, app, d, t, u)
    ensures Committed(app, u.rec)
  {
    hide Follows, Sound, RouteOf, ChangesOnRoute, Discharged;
    FollowsKeeps(t, u);
    if !RouteIn(app, t.rec).end.Pending? {
      RouteStable(app.main, t.rec.steps, u.rec.steps, []);
    }
  }

  lemma FirstTells(book: Book, app: App, d: Delivery, t: Tick, run: Eff<Value>, error: Err, u: Tick)
    requires Ready(t) && t.rec.instance.status.Running? && Committed(app, t.rec)
    requires Forward(book, app, d, t, run) && FailureEnds(book, run.tick, error, u)
    requires run.Go? || run.signal.Raised? || run.signal.SettleIncomplete?
    ensures Added(run.tick, u, act => Tells(act, u.rec.instance))
  {
    hide Follows, Sound, RouteOf, ChangesOnRoute, FailureAct, Closed, Agrees, MainSame, Tells, Added;
    NotesHere(t, run, RouteIn(app, run.tick.rec));
    KeepsRoute(app, t, run.tick);
    AddedTells(run.tick, u, run.tick.rollbacks, error, FailedStepOf(run.tick), u.rec.instance);
  }

  lemma KeepsRoute(app: App, t: Tick, u: Tick)
    requires Follows(t, u)
    ensures !RouteIn(app, t.rec).end.Pending? ==> RouteIn(app, u.rec) == RouteIn(app, t.rec)
  {
    hide RouteOf;
    FollowsKeeps(t, u);
    if !RouteIn(app, t.rec).end.Pending? {
      RouteStable(app.main, t.rec.steps, u.rec.steps, []);
    }
  }

  /** The forward part ends in one of these ways before any failure sequence. */
  lemma SplitFrom(book: Book, w: World, app: App, d: Delivery, t: Tick)
    requires Sound(book, t.rec) && Obeys(app, book) && Ready(t)
    ensures var run := Eval(w, app, d, t, app.main, []);
            var u := Execute(w, app, d, t).tick;
            || u.trace == run.tick.trace
            || ((run.Go? || run.signal.Raised? || run.signal.SettleIncomplete?)
                && exists error :: FailureEnds(book, run.tick, error, u))
  {
    hide Eval, FailureSequence, Sound, Obeys, FailureEnds, Follows;
    RanHere(book, w, app, d, t);
    ExecuteSplits(w, app, d, t);
    var run := Eval(w, app, d, t, app.main, []);
    var u := Execute(w, app, d, t).tick;
    if u.trace != run.tick.trace {
      var error :| u == FailureSequence(w, app, d, run.tick, error).tick;
      FailureSequenceEnds(book, w, app, d, run.tick, error);
    }
  }

  /** One tick tells everybody the same, and leaves it on record. */
  lemma TickTells(book: Book, w: World, app: App, d: Delivery, t: Tick)
    requires Sound(book, t.rec) && Obeys(app, book) && Ready(t) && Committed(app, t.rec)
    requires if t.rec.instance.status.Compensating? then Guard(app, d, t.rec)
             else !ReadsExhausted(w, app, d, t, app.main, [])
    ensures var u := Execute(w, app, d, t).tick;
            && Committed(app, u.rec)
            && Added(t, u, act => Tells(act, u.rec.instance))
            && (t.rec.instance.failureError.Some? ==>
                  u.rec.instance.failureError == t.rec.instance.failureError
                  && u.rec.instance.failedStep == t.rec.instance.failedStep)
  {
    hide Eval, Sound, RouteOf, Obeys, Execute, Guard, FailureEnds, Resumed, TickEnds, Tells, Forward, FailureAct,
         Committed, Added,
         ReadsExhausted;
    var u := Execute(w, app, d, t).tick;
    if t.rec.instance.status.Compensating? {
      ExecuteResumes(book, w, app, d, t);
      ResumedTells(book, app, t, u);
    } else {
      RunningTells(book, w, app, d, t);
    }
  }

  lemma ResumedTells(book: Book, app: App, t: Tick, u: Tick)
    requires Ready(t) && t.rec.instance.status.Compensating? && Committed(app, t.rec) && Resumed(book, app, t, u)
    ensures && Committed(app, u.rec)
            && Added(t, u, act => Tells(act, u.rec.instance))
            && u.rec.instance.failureError == t.rec.instance.failureError
            && u.rec.instance.failedStep == t.rec.instance.failedStep
  {
    hide Sound, RouteOf, Follows, FailureAct, Tells, Added;
    RouteOfMain(app.main, t.rec, u.rec, []);
    AddedTells(t, u, RouteIn(app, t.rec).rollbacks, t.rec.instance.failureError.value,
               t.rec.instance.failedStep.OrElse(RouteIn(app, t.rec).failedStep), u.rec.instance);
  }

  lemma RunningTells(book: Book, w: World, app: App, d: Delivery, t: Tick)
    requires Sound(book, t.rec) && Obeys(app, book) && Ready(t) && Committed(app, t.rec)
    requires t.rec.instance.status.Running? && !ReadsExhausted(w, app, d, t, app.main, [])
    ensures var u := Execute(w, app, d, t).tick;
            && Committed(app, u.rec) && t.rec.instance.failureError.None?
            && Added(t, u, act => Tells(act, u.rec.instance))
  {
    hide Eval, Sound, RouteOf, Obeys, Execute, FailureEnds, TickEnds, Tells, Forward, Added, ReadsExhausted;
    var u := Execute(w, app, d, t).tick;
    var run := Eval(w, app, d, t, app.main, []);
    ExecuteEnds(book, w, app, d, t);
    CommittedOn(book, app, d, t, u);
    SplitFrom(book, w, app, d, t);
    ForwardTells(w, app, d, t, u.rec.instance);
    if u.trace == run.tick.trace {
      SameAdded(t, run.tick, u, act => Tells(act, u.rec.instance));
    } else {
      var error :| FailureEnds(book, run.tick, error, u);
      ForwardEnds(book, w, app, d, t);
      FirstTells(book, app, d, t, run, error, u);
      AddedTrans(t, run.tick, u, act => Tells(act, u.rec.instance));
    }
  }

  lemma SameAdded(a: Tick, b: Tick, c: Tick, fits: Act -> bool)
    requires Added(a, b, fits) && c.trace == b.trace
    ensures Added(a, c, fits)
  {
  }
}
