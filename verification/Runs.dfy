/** Whole runs: any number of deliveries, crashes, settlements and operator actions. */
module Runs {
  import opened Values
  import opened Phases
  import opened Records
  import opened Processors
  import opened Steps
  import opened Ticks
  import opened Journal
  import opened StepCalls
  import opened Routes
  import opened Failures

  /**
   * What can happen to a run. An operator action is a sequence of store writes, of which it may get
   * through only the first few.
   */
  datatype Event =
    | Deliver(world: World, delivery: Delivery)
    | RetryRun(writes: nat)
    | RetryCompensation(writes: nat)
    | CancelByOperator
    | Wait(ms: nat)

  datatype Run = Run(stored: Option<Record>, now: nat, trace: seq<Act>)

  function FailedSteps(rec: Record): set<Key> {
    set k | k in rec.steps && rec.steps[k].status.StepFailed?
  }

  function FailedInternalSteps(rec: Record): set<Key> {
    set k | k in rec.steps && k.phase != Main && rec.steps[k].status.StepFailed?
  }

  /** `DurableRun.retry`: reset the failed steps and run on. */
  function Retry(rec: Record, writes: nat, now: nat): Record {
    if !rec.instance.status.Failed? then rec
    else
      var r1 := if writes >= 1 then rec.RemoveSteps(FailedSteps(rec)) else rec;
      var r2 := if writes >= 2 then r1.ClearFailure() else r1;
      if writes >= 3 then r2.Update(NO_CHANGE.(status := Some(Running)), now) else r2
  }

  /** `DurableRun.retryCompensation`: reset the failed compensations and compensate on. */
  function RetryComp(rec: Record, writes: nat, now: nat): Record {
    if !rec.instance.status.CompensationFailed? then rec
    else
      var r1 := if writes >= 1 then rec.RemoveSteps(FailedInternalSteps(rec)) else rec;
      var r2 := if writes >= 2 then r1.ClearOutcome() else r1;
      if writes >= 3 then r2.Update(NO_CHANGE.(status := Some(Compensating)), now) else r2
  }

  function CancelRecord(rec: Record, now: nat): Record {
    if rec.instance.status.Completed? || rec.instance.status.Cancelled? then rec else rec.End(Cancel, now)
  }

  /** A settlement only looks at a run that exists and has not ended. */
  predicate Skipped(s: Run, d: Delivery) {
    d.mode.Settle? && (s.stored.None? || s.stored.value.instance.status.Terminal())
  }

  function Next(app: App, input: InitInput, s: Run, e: Event): Run {
    match e
    case Deliver(w, d) =>
      if Skipped(s, d) then s
      else
        var t := RunLocked(w, app, d, s.stored, input, s.now, s.trace).tick;
        Run(Some(t.rec), t.now, t.trace)
    case RetryRun(n) => if s.stored.None? then s else s.(stored := Some(Retry(s.stored.value, n, s.now)))
    case RetryCompensation(n) => if s.stored.None? then s else s.(stored := Some(RetryComp(s.stored.value, n, s.now)))
    case CancelByOperator => if s.stored.None? then s else s.(stored := Some(CancelRecord(s.stored.value, s.now)))
    case Wait(ms) => s.(now := s.now + ms)
  }

  function RunAll(app: App, input: InitInput, s: Run, es: seq<Event>): Run
    decreases |es|
  {
    if es == [] then s else RunAll(app, input, Next(app, input, s, es[0]), es[1..])
  }

  const FRESH := Run(None, 0, [])

  function RouteIn(app: App, rec: Record): Route {
    RouteOf(app.main, rec.steps, [])
  }

  // -- One tick ----------------------------------------------------------------------

  /** A replay that waits for nothing changes nothing and settles at once. */
  lemma {:induction false} EvalQuiet(w: World, app: App, d: Delivery, t: Tick, p: Processor, seen: seq<Seen>)
    requires t.phase == Main && !t.rec.instance.status.Cancelled? && !RouteOf(p, t.rec.steps, seen).end.Pending?
    ensures var r := Eval(w, app, d, t, p, seen);
            && r.tick == t.(rollbacks := r.tick.rollbacks, failedStep := r.tick.failedStep)
            && (r.Go? || r.signal.Raised?)
            && !ReadsExhausted(w, app, d, t, p, seen)
    decreases p.Left(seen)
  {
    match p.At(seen)
    case Return(_) =>
    case Throw(_, _, _) =>
    case Pause(key, delay) =>
      assert SleepFor(w, d, t, key, delay) == Go(t, ());
      EvalQuiet(w, app, d, t, p, seen + [Slept]);
    case Call(key, o, recovery) =>
      QuietCall(w, app, d, t, key, o);
      var c := ExecuteStep(w, app, d, t, key, o, Nothing);
      if GoesOn(recovery, c) {
        EvalQuiet(w, app, d, c.tick, p, seen + [SeenOf(recovery, c)]);
      }
  }

  /** A call of a settled step. */
  lemma QuietCall(w: World, app: App, d: Delivery, t: Tick, key: string, o: StepOptions, arg: Argument := Nothing)
    requires !t.rec.instance.status.Cancelled?
    requires t.rec.Has(Key(t.phase, key), StepCompleted) || t.rec.Has(Key(t.phase, key), StepFailed)
    ensures var r := ExecuteStep(w, app, d, t, key, o, arg);
            var k := Key(t.phase, key);
            && r.tick == t.(rollbacks := r.tick.rollbacks, failedStep := r.tick.failedStep)
            && (r.Go? <==> t.rec.Has(k, StepCompleted))
            && (r.Go? ==> r.value == Clone(t.rec.steps[k].result))
            && (r.Stop? ==> r.signal.Raised? && r.signal.err == StoredError(t.rec.steps[k], key))
            && (t.phase != Main ==> r.tick == t)
            && !PollExhausted(w, t, key, r)
  {
    hide AttemptLoop;
  }

  /** A settlement replays the forward phase without writing or running anything. */
  lemma {:induction false} EvalSettling(w: World, app: App, d: Delivery, t: Tick, p: Processor, seen: seq<Seen>)
    requires t.phase == Main && d.mode.Settle?
    ensures var r := Eval(w, app, d, t, p, seen);
            && r.tick == t.(rollbacks := r.tick.rollbacks, failedStep := r.tick.failedStep)
            && !ReadsExhausted(w, app, d, t, p, seen)
    decreases p.Left(seen)
  {
    hide BeginOrReplay, AttemptLoop;
    match p.At(seen)
    case Return(_) =>
    case Throw(_, _, _) =>
    case Pause(key, delay) =>
      if SleepFor(w, d, t, key, delay).Go? {
        EvalSettling(w, app, d, t, p, seen + [Slept]);
      }
    case Call(key, o, recovery) =>
      var c := ExecuteStep(w, app, d, t, key, o, Nothing);
      assert c.tick == t.(rollbacks := c.tick.rollbacks, failedStep := c.tick.failedStep);
      if GoesOn(recovery, c) {
        EvalSettling(w, app, d, c.tick, p, seen + [SeenOf(recovery, c)]);
      }
  }

  /** Only a settlement gives up at an incomplete step. */
  lemma {:induction false} GivingUpSettles(book: Book, w: World, app: App, d: Delivery, t: Tick, p: Processor,
                                           seen: seq<Seen>)
    requires Sound(book, t.rec) && t.phase == Main && ProcessorObeys(p, Main, book)
    ensures var r := Eval(w, app, d, t, p, seen);
            r.Stop? && r.signal.SettleIncomplete? ==> d.mode.Settle?
    decreases p.Left(seen)
  {
    hide ExecuteStep, SleepFor, Spans, Sound, StepEnds, OnlyAt;
    match p.At(seen)
    case Return(_) =>
    case Throw(_, _, _) =>
    case Pause(key, delay) =>
      assert MoveObeys(p.At(seen), t.phase, book);
      SleepSpans(book, w, d, t, key, delay);
      var c := SleepFor(w, d, t, key, delay);
      SpansSound(book, t, c.tick);
      if c.Go? {
        GivingUpSettles(book, w, app, d, c.tick, p, seen + [Slept]);
      }
    case Call(key, o, recovery) =>
      assert MoveObeys(p.At(seen), t.phase, book);
      StepSpans(book, w, app, d, t, key, o, Nothing);
      var c := ExecuteStep(w, app, d, t, key, o, Nothing);
      SpansSound(book, t, c.tick);
      if GoesOn(recovery, c) {
        GivingUpSettles(book, w, app, d, c.tick, p, seen + [SeenOf(recovery, c)]);
      } else if c.signal.SettleIncomplete? {
        NoGivingUp(t, c, key, o);
      }
  }

  lemma NoGivingUp(t: Tick, c: Eff<Value>, key: string, o: StepOptions)
    requires c.Stop? && c.signal.SettleIncomplete?
    ensures !StepEnds(t, c, key, o)
  {
  }

  /** Only main-phase records matter to a route. */
  lemma {:induction false} RouteOfMain(p: Processor, a: Record, b: Record, seen: seq<Seen>)
    requires MainSame(a, b)
    ensures RouteOf(p, a.steps, seen) == RouteOf(p, b.steps, seen)
    decreases p.Left(seen)
  {
    match p.At(seen)
    case Return(_) =>
    case Throw(_, _, _) =>
    case Pause(key, _) =>
      RouteOfMain(p, a, b, seen + [Slept]);
    case Call(key, o, recovery) =>
      var k := Key(Main, key);
      if k in a.steps {
        RouteOfMain(p, a, b, seen + [Got(Clone(a.steps[k].result))]);
        RouteOfMain(p, a, b, seen + [Retold(recovery, a.steps[k], key)]);
      }
  }

  predicate Ready(t: Tick) {
    && t.phase == Main && t.rollbacks == [] && t.failedStep.None? && t.resume.None?
    && (t.rec.instance.status.Running? || t.rec.instance.status.Compensating?)
  }

  /**
   * What any tick that began in `t` has done by `u`, wherever it was cut short and whatever the processor
   * looked at.
   */
  ghost predicate TickKeeps(book: Book, t: Tick, u: Tick) {
    var before, after := t.rec.instance, u.rec.instance;
    && Follows(t, u) && Sound(book, u.rec)
    && (after.status.Completed? || after.output == before.output)
    && (before.status.Compensating? ==>
          && after.failureError == before.failureError && after.failedStep == before.failedStep
          && !after.status.Running? && !after.status.Completed?)
  }

  /** What it has done if the processor looked at no error that will not replay. */
  ghost predicate TickEnds(book: Book, app: App, d: Delivery, t: Tick, u: Tick) {
    var before, after := t.rec.instance, u.rec.instance;
    var route := RouteIn(app, u.rec);
    && TickKeeps(book, t, u)
    && ChangesOnRoute(t.rec, u.rec, route.stops)
    && (after.status.Completed? ==>
          route.end.Finished? && after.output == Clone(route.end.value))
    && (after.status.Failed? || after.status.CompensationFailed? ==> Discharged(u.rec, route.rollbacks))
    && (before.status.Compensating? ==>
          (after.status.Yielded? ==> route.end.Pending?))
    && (before.status.Running? && (after.status.Compensating? || after.status.CompensationFailed?) ==>
          && after.failureError.Some? && after.failedStep == route.failedStep.OrElse(before.failedStep)
          && (d.mode.Normal? ==> !route.end.Pending?))
    && (before.status.Running? && (after.status.Running? || after.status.Yielded?) ==>
          && after.failureError == before.failureError
          && (after.failedStep == before.failedStep || (after.failedStep == route.failedStep && !route.end.Pending?)))
  }

  /** The forward part of a tick, ending in `run`. */
  ghost predicate Ran(book: Book, d: Delivery, t: Tick, run: Eff<Value>) {
    && Follows(t, run.tick) && Sound(book, run.tick.rec)
    && SameRun(t.rec.instance, run.tick.rec.instance)
    && (run.Stop? && run.signal.SettleIncomplete? ==> d.mode.Settle?)
  }

  ghost predicate Forward(book: Book, app: App, d: Delivery, t: Tick, run: Eff<Value>) {
    && Ran(book, d, t, run)
    && Agrees(t, run, RouteIn(app, run.tick.rec))
    && ChangesOnRoute(t.rec, run.tick.rec, RouteIn(app, run.tick.rec).stops)
  }

  lemma RanHere(book: Book, w: World, app: App, d: Delivery, t: Tick)
    requires Sound(book, t.rec) && Obeys(app, book) && Ready(t)
    ensures Ran(book, d, t, Eval(w, app, d, t, app.main, []))
  {
    hide Eval, Sound, Follows, ProcessorObeys;
    EvalSpans(book, w, app, d, t, app.main, []);
    GivingUpSettles(book, w, app, d, t, app.main, []);
  }

  lemma ForwardEnds(book: Book, w: World, app: App, d: Delivery, t: Tick)
    requires Sound(book, t.rec) && Obeys(app, book) && Ready(t)
    requires !ReadsExhausted(w, app, d, t, app.main, [])
    ensures Forward(book, app, d, t, Eval(w, app, d, t, app.main, []))
  {
    hide Eval, Sound, Follows, Agrees, ChangesOnRoute, RouteOf, ProcessorObeys;
    RanHere(book, w, app, d, t);
    EvalAgrees(book, w, app, d, t, app.main, []);
  }

  /** What the forward part registers comes from steps of the store it leaves. */
  lemma ForwardRegisters(book: Book, w: World, app: App, d: Delivery, t: Tick)
    requires Sound(book, t.rec) && Obeys(app, book) && Ready(t)
    ensures var run := Eval(w, app, d, t, app.main, []);
            Concludes(run) ==> AllFromSteps(book, run.tick.rec, run.tick.rollbacks)
  {
    hide Eval, Sound, ProcessorObeys;
    EvalRegisters(book, w, app, d, t, app.main, []);
  }

  // -- What needs no agreement ---------------------------------------------------------

  /** Only instance fields were written, the way a tick writes them. */
  predicate Written(a: Tick, b: Tick) {
    var before, after := a.rec.instance, b.rec.instance;
    && b.rec.steps == a.rec.steps && b.rec.Counter() == a.rec.Counter() && b.trace == a.trace && a.now <= b.now
    && (after.status.Completed? || after.output == before.output)
    && (before.status.Compensating? ==>
          && after.failureError == before.failureError && after.failedStep == before.failedStep
          && !after.status.Running? && !after.status.Completed?)
  }

  lemma ClassifyWrites(w: World, app: App, d: Delivery, t: Tick, err: Err, stepScoped: bool, unrecoverable: bool)
    requires !t.rec.instance.status.Compensating?
    ensures var u := Classify(w, app, d, t, err, stepScoped, unrecoverable).tick;
            Written(t, u) || u == FailureSequence(w, app, d, t, err).tick
  {
    hide FailureSequence, FailFast;
    if t.rollbacks == [] && app.onFailure.None? {
      FailFastWrites(w, t, err);
    }
  }

  lemma FailFastWrites(w: World, t: Tick, err: Err)
    requires !t.rec.instance.status.Compensating?
    ensures Written(t, FailFast(w, t, err).tick)
  {
  }

  /** A tick ends with the failure sequence or by writing instance fields. */
  lemma ConcludeWrites(w: World, app: App, d: Delivery, run: Eff<Value>)
    ensures var u := Conclude(w, app, d, run.tick.rec.instance.status.Compensating?, run).tick;
            Written(run.tick, u) || exists error :: u == FailureSequence(w, app, d, run.tick, error).tick
  {
    hide FailureSequence, Classify, SettleTrigger;
    if run.Stop? && run.signal.Raised? && !run.tick.rec.instance.status.Compensating? {
      ClassifyWrites(w, app, d, run.tick, run.signal.err, run.signal.stepScoped, run.signal.unrecoverable);
    }
  }

  lemma KeepsWritten(book: Book, d: Delivery, t: Tick, run: Eff<Value>, u: Tick)
    requires Ready(t) && Ran(book, d, t, run) && Written(run.tick, u)
    ensures TickKeeps(book, t, u)
  {
    hide Follows, Sound, MainSame;
    WriteMoves(book, run.tick, u);
    MovesFollows(book, run.tick, u);
    FollowsTrans(t, run.tick, u);
  }

  lemma KeepsFailing(book: Book, d: Delivery, t: Tick, run: Eff<Value>, error: Err, u: Tick)
    requires Ready(t) && Ran(book, d, t, run) && FailureEnds(book, run.tick, error, u)
    ensures TickKeeps(book, t, u)
  {
    hide Follows, Sound, MainSame, FailureAct, Closed;
    MovesFollows(book, run.tick, u);
    FollowsTrans(t, run.tick, u);
  }

  lemma ExecuteKeeps(book: Book, w: World, app: App, d: Delivery, t: Tick)
    requires Sound(book, t.rec) && Obeys(app, book) && Ready(t)
    ensures TickKeeps(book, t, Execute(w, app, d, t).tick)
  {
    hide Follows, Sound, FailureSequence, Obeys, TickKeeps, Eval, Conclude, Written, FailureEnds;
    RanHere(book, w, app, d, t);
    var run := Eval(w, app, d, t, app.main, []);
    var u := Execute(w, app, d, t).tick;
    ConcludeWrites(w, app, d, run);
    if Written(run.tick, u) {
      KeepsWritten(book, d, t, run, u);
    } else {
      var error :| u == FailureSequence(w, app, d, run.tick, error).tick;
      FailureSequenceEnds(book, w, app, d, run.tick, error);
      KeepsFailing(book, d, t, run, error, u);
    }
  }

  // -- What needs it -------------------------------------------------------------------

  /** Writing instance fields at the end of the forward part. */
  lemma ForwardWrite(book: Book, app: App, d: Delivery, t: Tick, run: Eff<Value>, u: Tick)
    requires Forward(book, app, d, t, run)
    requires u.rec.steps == run.tick.rec.steps && u.rec.Counter() == run.tick.rec.Counter()
    requires u.trace == run.tick.trace && run.tick.now <= u.now
    ensures Follows(t, u) && Sound(book, u.rec) && RouteIn(app, u.rec) == RouteIn(app, run.tick.rec)
    ensures ChangesOnRoute(t.rec, u.rec, RouteIn(app, u.rec).stops)
  {
    hide Follows, Sound, Agrees, RouteOf;
    WriteMoves(book, run.tick, u);
    MovesFollows(book, run.tick, u);
    FollowsTrans(t, run.tick, u);
  }

  lemma MovesFollows(book: Book, a: Tick, b: Tick)
    requires Moves(book, a, b)
    ensures Follows(a, b) && Sound(book, b.rec) && MainSame(a.rec, b.rec)
  {
  }

  /** The forward part followed by the failure sequence. */
  lemma ForwardFails(book: Book, w: World, app: App, d: Delivery, t: Tick, run: Eff<Value>, error: Err)
    requires Ready(t) && Obeys(app, book) && Forward(book, app, d, t, run)
    requires run.Go? || run.signal.Raised? || run.signal.SettleIncomplete?
    requires run.Go? ==> t.rec.instance.status.Compensating?
    ensures TickEnds(book, app, d, t, FailureSequence(w, app, d, run.tick, error).tick)
  {
    hide Follows, Sound, RouteOf, FailureSequence, Obeys, Discharged, Reported, FailureAct, ChangesOnRoute, MainSame;
    var u0 := run.tick;
    var u := FailureSequence(w, app, d, u0, error).tick;
    FailureSequenceEnds(book, w, app, d, u0, error);
    MovesFollows(book, u0, u);
    FollowsTrans(t, u0, u);
    RouteOfMain(app.main, u0.rec, u.rec, []);
    ChangesSame(t.rec, u0.rec, u.rec, RouteIn(app, u.rec).stops);
    NotesHere(t, run, RouteIn(app, u0.rec));
  }

  lemma ChangesSame(a: Record, b: Record, c: Record, stops: seq<string>)
    requires ChangesOnRoute(a, b, stops) && MainSame(b, c)
    ensures ChangesOnRoute(a, c, stops)
  {
  }

  lemma NotesHere(t: Tick, run: Eff<Value>, route: Route)
    requires Ready(t) && Agrees(t, run, route)
    requires run.Go? || run.signal.Raised? || run.signal.SettleIncomplete?
    ensures run.tick.rollbacks == route.rollbacks && run.tick.failedStep == route.failedStep
    ensures run.Go? || run.signal.Raised? ==> !route.end.Pending?
  {
    assert [] + route.rollbacks == route.rollbacks;
  }

  lemma ExecuteEnds(book: Book, w: World, app: App, d: Delivery, t: Tick)
    requires Sound(book, t.rec) && Obeys(app, book) && Ready(t)
    requires !ReadsExhausted(w, app, d, t, app.main, [])
    ensures TickEnds(book, app, d, t, Execute(w, app, d, t).tick)
  {
    hide Follows, Sound, RouteOf, FailureSequence, Obeys, TickEnds, Forward, Eval, Classify;
    ForwardEnds(book, w, app, d, t);
    var run := Eval(w, app, d, t, app.main, []);
    var entered := t.rec.instance.status.Compensating?;
    if run.Stop? && run.signal.SettleIncomplete? {
      ForwardFails(book, w, app, d, t, run, SettleTrigger(d, None));
    } else if run.Go? && entered {
      ForwardFails(book, w, app, d, t, run, SettleTrigger(d, None));
    } else if run.Stop? && run.signal.Raised? && entered {
      ForwardFails(book, w, app, d, t, run, SettleTrigger(d, Some(run.signal.err)));
    } else if run.Stop? && run.signal.Raised? {
      ClassifyEnds(book, w, app, d, t, run);
    } else {
      PlainEnds(book, w, app, d, t, run);
    }
  }

  /** A completion, a yield, a cancellation or a crash. */
  lemma PlainEnds(book: Book, w: World, app: App, d: Delivery, t: Tick, run: Eff<Value>)
    requires Ready(t) && Forward(book, app, d, t, run)
    requires run.Go? ==> !t.rec.instance.status.Compensating?
    requires run.Stop? ==> !run.signal.Raised? && !run.signal.SettleIncomplete?
    ensures TickEnds(book, app, d, t, Conclude(w, app, d, t.rec.instance.status.Compensating?, run).tick)
  {
    hide Follows, Sound, RouteOf, FailureSequence, Forward, Classify, Agrees, ChangesOnRoute;
    var u := Conclude(w, app, d, t.rec.instance.status.Compensating?, run).tick;
    ForwardFacts(book, app, d, t, run);
    ForwardWrite(book, app, d, t, run, u);
  }

  lemma ForwardFacts(book: Book, app: App, d: Delivery, t: Tick, run: Eff<Value>)
    requires Ready(t) && Forward(book, app, d, t, run)
    ensures SameRun(t.rec.instance, run.tick.rec.instance)
    ensures run.Go? ==> RouteIn(app, run.tick.rec).end == Finished(run.value)
    ensures run.Stop? && run.signal.Yield? ==> RouteIn(app, run.tick.rec).end.Pending?
    ensures run.Stop? && run.signal.Raised? ==>
              && !RouteIn(app, run.tick.rec).end.Pending?
              && run.tick.rollbacks == RouteIn(app, run.tick.rec).rollbacks
              && run.tick.failedStep == RouteIn(app, run.tick.rec).failedStep
  {
    hide Follows, Sound, RouteOf, ChangesOnRoute;
    if run.Stop? && run.signal.Raised? {
      NotesHere(t, run, RouteIn(app, run.tick.rec));
    }
  }

  /** Ending straight away is only done when the route has registered nothing. */
  lemma FailFastEnds(book: Book, w: World, app: App, d: Delivery, t: Tick, run: Eff<Value>)
    requires Ready(t) && Forward(book, app, d, t, run)
    requires run.Stop? && run.signal.Raised? && !t.rec.instance.status.Compensating? && run.tick.rollbacks == []
    ensures TickEnds(book, app, d, t, FailFast(w, run.tick, run.signal.err).tick)
  {
    hide Follows, Sound, RouteOf, Forward, Agrees, ChangesOnRoute;
    var u := FailFast(w, run.tick, run.signal.err).tick;
    ForwardFacts(book, app, d, t, run);
    ForwardWrite(book, app, d, t, run, u);
  }

  lemma ClassifyEnds(book: Book, w: World, app: App, d: Delivery, t: Tick, run: Eff<Value>)
    requires Ready(t) && Forward(book, app, d, t, run) && Obeys(app, book)
    requires run.Stop? && run.signal.Raised? && !t.rec.instance.status.Compensating?
    ensures var s := run.signal;
            TickEnds(book, app, d, t, Classify(w, app, d, run.tick, s.err, s.stepScoped, s.unrecoverable).tick)
  {
    hide Follows, Sound, RouteOf, FailureSequence, Forward, Agrees, ChangesOnRoute, Obeys, FailFast, TickEnds;
    var s := run.signal;
    var hopeless := s.unrecoverable || s.err.name == "UnrecoverableError" || d.discarded;
    if d.mode.Normal? && !s.stepScoped && !hopeless && d.attempt < d.attemptsTotal {
      YieldEnds(book, w, app, d, t, run);
    } else if run.tick.rollbacks == [] && app.onFailure.None? {
      FailFastEnds(book, w, app, d, t, run);
    } else {
      ForwardFails(book, w, app, d, t, run, s.err);
    }
  }

  lemma YieldEnds(book: Book, w: World, app: App, d: Delivery, t: Tick, run: Eff<Value>)
    requires Ready(t) && Forward(book, app, d, t, run) && !t.rec.instance.status.Compensating?
    ensures TickEnds(book, app, d, t, SaveInstance(w, run.tick, NO_CHANGE.(status := Some(Yielded))).tick)
  {
    hide Follows, Sound, RouteOf, Agrees, ChangesOnRoute;
    var u := SaveInstance(w, run.tick, NO_CHANGE.(status := Some(Yielded))).tick;
    ForwardWrite(book, app, d, t, run, u);
  }
}
