/**
 * The processor evaluated against checkpoints alone, and what running it live has to do with that.
 */
module Routes {
  import opened Values
  import opened Phases
  import opened Records
  import opened Processors
  import opened Steps
  import opened Journal
  import opened StepCalls

  /** Where an evaluation against checkpoints stops. */
  datatype End =
    | Finished(value: Value)
    | Threw(err: Err, stepScoped: bool)
    | Pending(key: string)

  /** The steps an evaluation passes, the compensations it registers, and the last step it saw fail. */
  datatype Route = Route(stops: seq<string>, rollbacks: seq<Rollback>, failedStep: Option<string>, end: End) {
    function Visit(key: string, registered: seq<Rollback>): Route {
      this.(stops := [key] + stops, rollbacks := registered + rollbacks)
    }

    function Failing(key: string): Route {
      this.(stops := [key] + stops, failedStep := failedStep.OrElse(Some(key)))
    }
  }

  /** The compensation a completed step registers. */
  function Registers(key: string, o: StepOptions, s: Step): seq<Rollback> {
    if o.onRollback.Some? then [Rollback(key, s.seqNo, Clone(s.result), o.onRollback.value.retry)] else []
  }

  /** Evaluate the processor with every step replaced by its stored outcome. */
  function RouteOf(p: Processor, steps: map<Key, Step>, seen: seq<Seen>): Route
    decreases p.Left(seen)
  {
    match p.At(seen)
    case Return(value) => Route([], [], None, Finished(value))
    case Throw(err, _, marked) => Route([], [], None, Threw(err, marked))
    case Pause(key, _) =>
      var k := Key(Main, key);
      if k in steps && steps[k].status.StepCompleted? then RouteOf(p, steps, seen + [Slept]).Visit(key, [])
      else Route([key], [], None, Pending(key))
    case Call(key, o, recovery) =>
      var k := Key(Main, key);
      if k in steps && steps[k].status.StepCompleted? then
        RouteOf(p, steps, seen + [Got(Clone(steps[k].result))]).Visit(key, Registers(key, o, steps[k]))
      else if k in steps && steps[k].status.StepFailed? then
        if recovery.Uncaught? then Route([key], [], Some(key), Threw(StoredError(steps[k], key), true))
        else RouteOf(p, steps, seen + [Retold(recovery, steps[k], key)]).Failing(key)
      else Route([key], [], None, Pending(key))
  }

  // -- A stretch of one phase ----------------------------------------------------

  ghost predicate OnlyPhase(a: Record, b: Record, phase: Phase) {
    && SameRun(a.instance, b.instance)
    && a.terminalAt == b.terminalAt
    && (forall k: Key :: k.phase != phase ==> (k in a.steps <==> k in b.steps))
    && (forall k: Key :: k.phase != phase && k in a.steps && k in b.steps ==> a.steps[k] == b.steps[k])
  }

  ghost predicate Spans(book: Book, a: Tick, b: Tick) {
    && Follows(a, b)
    && OnlyPhase(a.rec, b.rec, a.phase)
    && Sound(book, b.rec)
    && b.phase == a.phase
  }

  lemma SpansTrans(book: Book, a: Tick, b: Tick, c: Tick)
    requires Spans(book, a, b) && Spans(book, b, c)
    ensures Spans(book, a, c)
  {
    FollowsTrans(a, b, c);
  }

  lemma TouchesSpans(book: Book, a: Tick, b: Tick, key: string)
    requires Touches(book, a, b, Key(a.phase, key))
    ensures Spans(book, a, b) && OnlyAt(a.rec, b.rec, Key(a.phase, key))
  {
  }

  lemma RestSpans(book: Book, a: Tick, b: Tick)
    requires Sound(book, a.rec) && b.rec == a.rec && b.trace == a.trace && b.phase == a.phase && a.now <= b.now
    ensures Spans(book, a, b)
  {
  }

  /** What has settled in `a` reads the same in `b`. */
  ghost predicate Keeps(a: map<Key, Step>, b: map<Key, Step>) {
    forall k :: k in a && !a[k].status.StepRunning? ==> k in b && b[k] == a[k]
  }

  lemma SpansKeeps(book: Book, a: Tick, b: Tick)
    requires Spans(book, a, b)
    ensures Keeps(a.rec.steps, b.rec.steps)
  {
    forall k | k in a.rec.steps && !a.rec.steps[k].status.StepRunning?
      ensures k in b.rec.steps && b.rec.steps[k] == a.rec.steps[k]
    {
      assert StepMoves(a.rec.steps[k], b.rec.steps[k], b.now);
    }
  }

  /** A route that is not waiting for anything is the same however the store moves on. */
  lemma {:induction false} RouteStable(p: Processor, a: map<Key, Step>, b: map<Key, Step>, seen: seq<Seen>)
    requires Keeps(a, b) && !RouteOf(p, a, seen).end.Pending?
    ensures RouteOf(p, b, seen) == RouteOf(p, a, seen)
    decreases p.Left(seen)
  {
    match p.At(seen)
    case Return(_) =>
    case Throw(_, _, _) =>
    case Pause(key, _) =>
      RouteStable(p, a, b, seen + [Slept]);
    case Call(key, o, recovery) =>
      var k := Key(Main, key);
      if a[k].status.StepCompleted? {
        RouteStable(p, a, b, seen + [Got(Clone(a[k].result))]);
      } else if !recovery.Uncaught? {
        RouteStable(p, a, b, seen + [Retold(recovery, a[k], key)]);
      }
  }

  /** A route only grows: what it has registered stays registered, in the same place. */
  lemma {:induction false} RouteGrows(p: Processor, a: map<Key, Step>, b: map<Key, Step>, seen: seq<Seen>)
    requires Keeps(a, b)
    ensures RouteOf(p, a, seen).rollbacks <= RouteOf(p, b, seen).rollbacks
    ensures RouteOf(p, a, seen).stops <= RouteOf(p, b, seen).stops
    decreases p.Left(seen)
  {
    match p.At(seen)
    case Return(_) =>
    case Throw(_, _, _) =>
    case Pause(key, _) =>
      var k := Key(Main, key);
      if k in a && a[k].status.StepCompleted? {
        RouteGrows(p, a, b, seen + [Slept]);
      }
    case Call(key, o, recovery) =>
      var k := Key(Main, key);
      if k in a && a[k].status.StepCompleted? {
        RouteGrows(p, a, b, seen + [Got(Clone(a[k].result))]);
      } else if k in a && a[k].status.StepFailed? && !recovery.Uncaught? {
        RouteGrows(p, a, b, seen + [Retold(recovery, a[k], key)]);
      }
  }

  // -- Evaluation ----------------------------------------------------------------

  /** A processor run in any phase keeps to that phase's records. */
  lemma {:induction false} EvalSpans(book: Book, w: World, app: App, d: Delivery, t: Tick, p: Processor,
                                     seen: seq<Seen>)
    requires Sound(book, t.rec) && t.phase != Compensation && ProcessorObeys(p, t.phase, book)
    ensures Spans(book, t, Eval(w, app, d, t, p, seen).tick)
    decreases p.Left(seen)
  {
    hide Follows, OnlyPhase, Sound, Touches, StepEnds, SleepEnds, ExecuteStep, SleepFor;
    var r := Eval(w, app, d, t, p, seen);
    match p.At(seen)
    case Return(_) =>
      RestSpans(book, t, r.tick);
    case Throw(_, _, _) =>
      RestSpans(book, t, r.tick);
    case Pause(key, delay) =>
      assert MoveObeys(p.At(seen), t.phase, book);
      SleepSpans(book, w, d, t, key, delay);
      var c := SleepFor(w, d, t, key, delay);
      if c.Go? {
        SpansSound(book, t, c.tick);
        EvalSpans(book, w, app, d, c.tick, p, seen + [Slept]);
        SpansTrans(book, t, c.tick, r.tick);
      }
    case Call(key, o, recovery) =>
      assert MoveObeys(p.At(seen), t.phase, book);
      StepSpans(book, w, app, d, t, key, o, Nothing);
      var c := ExecuteStep(w, app, d, t, key, o, Nothing);
      SpansSound(book, t, c.tick);
      if GoesOn(recovery, c) {
        EvalSpans(book, w, app, d, c.tick, p, seen + [SeenOf(recovery, c)]);
        SpansTrans(book, t, c.tick, r.tick);
      }
  }

  lemma SpansSound(book: Book, a: Tick, b: Tick)
    requires Spans(book, a, b)
    ensures Sound(book, b.rec) && b.phase == a.phase && a.now <= b.now && a.trace <= b.trace
  {
  }

  /** A step call, settlement replays included. */
  lemma StepSpans(book: Book, w: World, app: App, d: Delivery, t: Tick, key: string, o: StepOptions, arg: Argument)
    requires Sound(book, t.rec) && !NamesSleep(book, Key(t.phase, key))
    ensures var r := ExecuteStep(w, app, d, t, key, o, arg);
            && Spans(book, t, r.tick) && OnlyAt(t.rec, r.tick.rec, Key(t.phase, key))
            && (StepEnds(t, r, key, o)
                || (r == Stop(t, SettleIncomplete) && SettlementReplay(d, t)
                    && !t.rec.Has(Key(t.phase, key), StepCompleted) && !t.rec.Has(Key(t.phase, key), StepFailed)))
  {
    var r := ExecuteStep(w, app, d, t, key, o, arg);
    if SettlementReplay(d, t) {
      RestSpans(book, t, r.tick);
    } else {
      hide Follows, OnlyPhase, Sound, Touches, StepEnds, ExecuteStep, Spans;
      StepTouches(book, w, app, d, t, key, o, arg);
      TouchesSpans(book, t, r.tick, key);
    }
  }

  lemma SleepSpans(book: Book, w: World, d: Delivery, t: Tick, key: string, delay: int)
    requires Sound(book, t.rec) && NamesSleep(book, Key(t.phase, key))
    ensures var r := SleepFor(w, d, t, key, delay);
            && Spans(book, t, r.tick) && OnlyAt(t.rec, r.tick.rec, Key(t.phase, key))
            && ((SleepEnds(d, t, r, key) && (SettlementReplay(d, t) ==> r.Go?))
                || (r == Stop(t, SettleIncomplete) && SettlementReplay(d, t)
                    && !t.rec.Has(Key(t.phase, key), StepCompleted)))
  {
    var r := SleepFor(w, d, t, key, delay);
    if SettlementReplay(d, t) {
      RestSpans(book, t, r.tick);
    } else {
      hide Follows, OnlyPhase, Sound, Touches, SleepEnds, SleepFor, Spans;
      SleepTouches(book, w, d, t, key, delay);
      TouchesSpans(book, t, r.tick, key);
    }
  }

  /** A registered compensation that carries its step's number and the policy its call gave. */
  ghost predicate FromStep(book: Book, rec: Record, r: Rollback) {
    var k := Key(Main, r.key);
    && rec.Has(k, StepCompleted) && rec.steps[k].seqNo == r.seqNo && r.output == Clone(rec.steps[k].result)
    && book(k).AsStep? && book(k).options.onRollback.Some? && book(k).options.onRollback.value.retry == r.retry
  }

  ghost predicate AllFromSteps(book: Book, rec: Record, rs: seq<Rollback>) {
    forall i :: 0 <= i < |rs| ==> FromStep(book, rec, rs[i])
  }

  lemma FromStepsLater(book: Book, a: Tick, b: Tick)
    requires Spans(book, a, b) && AllFromSteps(book, a.rec, a.rollbacks)
    ensures AllFromSteps(book, b.rec, a.rollbacks)
  {
    hide OnlyPhase, Sound;
    forall i | 0 <= i < |a.rollbacks| ensures FromStep(book, b.rec, a.rollbacks[i]) {
      assert FromStep(book, a.rec, a.rollbacks[i]);
      var k := Key(Main, a.rollbacks[i].key);
      assert StepMoves(a.rec.steps[k], b.rec.steps[k], b.now);
    }
  }

  lemma CallRegisters(book: Book, t: Tick, c: Eff<Value>, key: string, o: StepOptions)
    requires t.phase == Main && book(Key(Main, key)).AsStep? && book(Key(Main, key)).options == o
    requires Spans(book, t, c.tick) && AllFromSteps(book, t.rec, t.rollbacks)
    requires StepEnds(t, c, key, o) && (c.Go? || c.signal.Raised?)
    ensures AllFromSteps(book, c.tick.rec, c.tick.rollbacks)
  {
    hide Spans;
    FromStepsLater(book, t, c.tick);
  }

  predicate Concludes<T>(r: Eff<T>) {
    r.Go? || r.signal.Raised? || r.signal.SettleIncomplete?
  }

  /** Whatever the processor looks at, each compensation it registers comes from a step of the store. */
  lemma {:induction false} EvalRegisters(book: Book, w: World, app: App, d: Delivery, t: Tick, p: Processor,
                                         seen: seq<Seen>)
    requires Sound(book, t.rec) && t.phase == Main && ProcessorObeys(p, Main, book)
    requires AllFromSteps(book, t.rec, t.rollbacks)
    ensures var r := Eval(w, app, d, t, p, seen);
            Concludes(r) ==> AllFromSteps(book, r.tick.rec, r.tick.rollbacks)
    decreases p.Left(seen)
  {
    hide Follows, OnlyPhase, Sound, ExecuteStep, SleepFor, Spans, OnlyAt, StepEnds, AllFromSteps;
    match p.At(seen)
    case Return(_) =>
    case Throw(_, _, _) =>
    case Pause(key, delay) =>
      assert MoveObeys(p.At(seen), t.phase, book);
      SleepSpans(book, w, d, t, key, delay);
      var c := SleepFor(w, d, t, key, delay);
      FromStepsLater(book, t, c.tick);
      SpansSound(book, t, c.tick);
      if c.Go? {
        EvalRegisters(book, w, app, d, c.tick, p, seen + [Slept]);
      }
    case Call(key, o, recovery) =>
      assert MoveObeys(p.At(seen), t.phase, book);
      StepSpans(book, w, app, d, t, key, o, Nothing);
      var c := ExecuteStep(w, app, d, t, key, o, Nothing);
      SpansSound(book, t, c.tick);
      if c.Go? || c.signal.Raised? {
        CallRegisters(book, t, c, key, o);
      }
      if GoesOn(recovery, c) {
        EvalRegisters(book, w, app, d, c.tick, p, seen + [SeenOf(recovery, c)]);
      } else if c.signal.SettleIncomplete? {
        CallStays(t, c, key, o);
      }
  }

  lemma CallStays(t: Tick, c: Eff<Value>, key: string, o: StepOptions)
    requires c.Stop? && c.signal.SettleIncomplete? && (StepEnds(t, c, key, o) || c == Stop(t, SettleIncomplete))
    ensures c.tick == t
  {
  }

  // -- A live run agrees with the checkpoints it leaves ----------------------------

  predicate Notes(t: Tick, u: Tick, route: Route) {
    u.rollbacks == t.rollbacks + route.rollbacks && u.failedStep == route.failedStep.OrElse(t.failedStep)
  }

  ghost predicate SameError(stored: Err, seen: Err) {
    seen == stored || (stored.name == "RetryLaterError" && exists key: string, n: nat :: seen == Exhausted(key, n))
  }

  /** The end of a live main-phase run, against the evaluation of the checkpoints it leaves behind. */
  ghost predicate Agrees(t: Tick, r: Eff<Value>, route: Route) {
    match r
    case Go(u, value) => route.end == Finished(value) && Notes(t, u, route)
    case Stop(u, Raised(err, stepScoped, _)) =>
      && Notes(t, u, route)
      && route.end.Threw? && route.end.stepScoped == stepScoped && SameError(route.end.err, err)
      && (!stepScoped ==> route.end.err == err)
    case Stop(u, SettleIncomplete) => Notes(t, u, route) && route.end.Pending?
    case Stop(u, Yield) =>
      && route.end.Pending?
      && u.rec.Has(Key(Main, route.end.key), StepRunning)
      && u.resume.Some?
      && (t.resume.None? ==> Awaits(u, Key(Main, route.end.key)))
    case Stop(_, CancelledRun) => true
    case Stop(_, Crash) => true
  }

  ghost predicate ChangesOnRoute(a: Record, b: Record, stops: seq<string>) {
    forall k: Key :: k.phase == Main && k in b.steps && (k in a.steps ==> b.steps[k] != a.steps[k]) ==> k.name in stops
  }

  /** What a call contributes to a route, given what the rest of the run contributes. */
  function Joined(c: Eff<Value>, rest: Route, key: string, registered: seq<Rollback>): Route {
    if c.Go? then rest.Visit(key, registered) else rest.Failing(key)
  }

  lemma FinalKeeps(book: Book, w: World, app: App, d: Delivery, t: Tick, p: Processor, seen: seq<Seen>)
    requires Sound(book, t.rec) && t.phase != Compensation && ProcessorObeys(p, t.phase, book)
    ensures Keeps(t.rec.steps, Eval(w, app, d, t, p, seen).tick.rec.steps)
  {
    hide Eval, ProcessorObeys;
    EvalSpans(book, w, app, d, t, p, seen);
    SpansKeeps(book, t, Eval(w, app, d, t, p, seen).tick);
  }

  /** The record a call leaves decides where the final route goes at that call. */
  lemma CallSteers(t: Tick, c: Eff<Value>, f: map<Key, Step>, p: Processor, seen: seq<Seen>)
    requires t.phase == Main && p.At(seen).Call?
    requires var m := p.At(seen); StepEnds(t, c, m.key, m.options) && GoesOn(m.recovery, c)
    requires var m := p.At(seen);
             c.Stop? && m.recovery.Reads? ==> c.signal.err == StoredError(c.tick.rec.steps[Key(Main, m.key)], m.key)
    requires Keeps(c.tick.rec.steps, f)
    ensures var m := p.At(seen);
            var next := seen + [SeenOf(m.recovery, c)];
            && Key(Main, m.key) in f
            && RouteOf(p, f, seen)
               == Joined(c, RouteOf(p, f, next), m.key, Registers(m.key, m.options, f[Key(Main, m.key)]))
            && (c.Go? ==> && c.tick.rollbacks == t.rollbacks + Registers(m.key, m.options, f[Key(Main, m.key)])
                          && c.tick.failedStep == t.failedStep)
            && (c.Stop? ==> c.tick.rollbacks == t.rollbacks && c.tick.failedStep == Some(m.key))
            && c.tick.resume == t.resume
  {
    var m := p.At(seen);
    assert f[Key(Main, m.key)] == c.tick.rec.steps[Key(Main, m.key)];
  }

  /** A call that ends the run, against the route of the store it leaves. */
  lemma CallEnds(t: Tick, c: Eff<Value>, p: Processor, seen: seq<Seen>)
    requires t.phase == Main && p.At(seen).Call?
    requires var m := p.At(seen);
             !GoesOn(m.recovery, c)
             && (StepEnds(t, c, m.key, m.options)
                 || (c == Stop(t, SettleIncomplete)
                     && !t.rec.Has(Key(Main, m.key), StepCompleted) && !t.rec.Has(Key(Main, m.key), StepFailed)))
    ensures Agrees(t, c, RouteOf(p, c.tick.rec.steps, seen))
    ensures p.At(seen).key in RouteOf(p, c.tick.rec.steps, seen).stops
  {
  }

  /** Agreement of the rest of the run extends over the call before it. */
  lemma CallJoins(t: Tick, c: Eff<Value>, r: Eff<Value>, rest: Route, key: string, registered: seq<Rollback>)
    requires c.Go? ==> c.tick.rollbacks == t.rollbacks + registered && c.tick.failedStep == t.failedStep
    requires c.Stop? ==> c.tick.rollbacks == t.rollbacks && c.tick.failedStep == Some(key)
    requires c.tick.resume == t.resume && Agrees(c.tick, r, rest)
    ensures Agrees(t, r, Joined(c, rest, key, registered))
  {
    assert (t.rollbacks + registered) + rest.rollbacks == t.rollbacks + (registered + rest.rollbacks);
  }

  lemma ChangesJoin(a: Record, b: Record, c: Record, key: string, rest: seq<string>)
    requires OnlyAt(a, b, Key(Main, key)) && ChangesOnRoute(b, c, rest)
    ensures ChangesOnRoute(a, c, [key] + rest)
  {
  }

  lemma ChangesHere(a: Record, b: Record, key: string, stops: seq<string>)
    requires OnlyAt(a, b, Key(Main, key)) && key in stops
    ensures ChangesOnRoute(a, b, stops)
  {
  }

  /** Somewhere on its way the processor looked at the error of a poll that had just run out of attempts. */
  predicate ReadsExhausted(w: World, app: App, d: Delivery, t: Tick, p: Processor, seen: seq<Seen>)
    decreases p.Left(seen)
  {
    match p.At(seen)
    case Return(_) => false
    case Throw(_, _, _) => false
    case Pause(key, delay) =>
      var c := SleepFor(w, d, t, key, delay);
      c.Go? && ReadsExhausted(w, app, d, c.tick, p, seen + [Slept])
    case Call(key, o, recovery) =>
      var c := ExecuteStep(w, app, d, t, key, o, Nothing);
      && GoesOn(recovery, c)
      && ((recovery.Reads? && PollExhausted(w, t, key, c))
          || ReadsExhausted(w, app, d, c.tick, p, seen + [SeenOf(recovery, c)]))
  }

  /**
   * Running the processor live leaves checkpoints that, evaluated alone, tell the same story, unless it
   * looked at an error that will not replay.
   */
  lemma {:induction false} EvalAgrees(book: Book, w: World, app: App, d: Delivery, t: Tick, p: Processor,
                                      seen: seq<Seen>)
    requires Sound(book, t.rec) && t.phase == Main && ProcessorObeys(p, Main, book)
    requires !ReadsExhausted(w, app, d, t, p, seen)
    ensures var r := Eval(w, app, d, t, p, seen);
            var route := RouteOf(p, r.tick.rec.steps, seen);
            Agrees(t, r, route) && ChangesOnRoute(t.rec, r.tick.rec, route.stops)
    decreases p.Left(seen), 1
  {
    match p.At(seen)
    case Return(_) =>
    case Throw(_, _, _) =>
    case Pause(_, _) => PauseAgrees(book, w, app, d, t, p, seen);
    case Call(_, _, _) => CallAgrees(book, w, app, d, t, p, seen);
  }

  lemma {:induction false} CallAgrees(book: Book, w: World, app: App, d: Delivery, t: Tick, p: Processor,
                                      seen: seq<Seen>)
    requires Sound(book, t.rec) && t.phase == Main && ProcessorObeys(p, Main, book) && p.At(seen).Call?
    requires !ReadsExhausted(w, app, d, t, p, seen)
    ensures var r := Eval(w, app, d, t, p, seen);
            var route := RouteOf(p, r.tick.rec.steps, seen);
            Agrees(t, r, route) && ChangesOnRoute(t.rec, r.tick.rec, route.stops)
    decreases p.Left(seen), 0
  {
    hide Follows, OnlyPhase, Sound, ExecuteStep, Spans, StepEnds, Agrees, ChangesOnRoute, OnlyAt, RouteOf, Registers,
         PollExhausted;
    var Call(key, o, recovery) := p.At(seen);
    assert MoveObeys(p.At(seen), t.phase, book);
    StepSpans(book, w, app, d, t, key, o, Nothing);
    var c := ExecuteStep(w, app, d, t, key, o, Nothing);
    var r := Eval(w, app, d, t, p, seen);
    if GoesOn(recovery, c) {
      SpansSound(book, t, c.tick);
      var next := seen + [SeenOf(recovery, c)];
      StepErrors(w, app, d, t, key, o, Nothing);
      EvalAgrees(book, w, app, d, c.tick, p, next);
      FinalKeeps(book, w, app, d, c.tick, p, next);
      CallSteers(t, c, r.tick.rec.steps, p, seen);
      var f := r.tick.rec.steps;
      CallJoins(t, c, r, RouteOf(p, f, next), key, Registers(key, o, f[Key(Main, key)]));
      ChangesJoin(t.rec, c.tick.rec, r.tick.rec, key, RouteOf(p, f, next).stops);
    } else {
      CallEnds(t, c, p, seen);
      ChangesHere(t.rec, c.tick.rec, key, RouteOf(p, c.tick.rec.steps, seen).stops);
      StopAny(t, c, r, RouteOf(p, c.tick.rec.steps, seen));
    }
  }

  lemma StopAny(t: Tick, c: Eff<Value>, r: Eff<Value>, route: Route)
    requires c.Stop? && r.Stop? && r.tick == c.tick && r.signal == c.signal && Agrees(t, c, route)
    ensures Agrees(t, r, route)
  {
  }

  lemma {:induction false} PauseAgrees(book: Book, w: World, app: App, d: Delivery, t: Tick, p: Processor,
                                       seen: seq<Seen>)
    requires Sound(book, t.rec) && t.phase == Main && ProcessorObeys(p, Main, book) && p.At(seen).Pause?
    requires !ReadsExhausted(w, app, d, t, p, seen)
    ensures var r := Eval(w, app, d, t, p, seen);
            var route := RouteOf(p, r.tick.rec.steps, seen);
            Agrees(t, r, route) && ChangesOnRoute(t.rec, r.tick.rec, route.stops)
    decreases p.Left(seen), 0
  {
    hide Follows, OnlyPhase, Sound, SleepFor, Spans, SleepEnds, Agrees, ChangesOnRoute, OnlyAt, RouteOf;
    var Pause(key, delay) := p.At(seen);
    assert MoveObeys(p.At(seen), t.phase, book);
    SleepSpans(book, w, d, t, key, delay);
    var c := SleepFor(w, d, t, key, delay);
    var r := Eval(w, app, d, t, p, seen);
    if c.Go? {
      SpansSound(book, t, c.tick);
      var next := seen + [Slept];
      EvalAgrees(book, w, app, d, c.tick, p, next);
      FinalKeeps(book, w, app, d, c.tick, p, next);
      PauseSteers(d, t, c, r, p, seen);
      ChangesJoin(t.rec, c.tick.rec, r.tick.rec, key, RouteOf(p, r.tick.rec.steps, next).stops);
    } else {
      PauseEnds(d, t, c, r, p, seen);
      ChangesHere(t.rec, c.tick.rec, key, RouteOf(p, c.tick.rec.steps, seen).stops);
    }
  }

  lemma PauseSteers(d: Delivery, t: Tick, c: Eff<()>, r: Eff<Value>, p: Processor, seen: seq<Seen>)
    requires t.phase == Main && p.At(seen).Pause? && c.Go? && SleepEnds(d, t, c, p.At(seen).key)
    requires var f := r.tick.rec.steps; Keeps(c.tick.rec.steps, f) && Agrees(c.tick, r, RouteOf(p, f, seen + [Slept]))
    ensures var f := r.tick.rec.steps;
            && RouteOf(p, f, seen) == RouteOf(p, f, seen + [Slept]).Visit(p.At(seen).key, [])
            && Agrees(t, r, RouteOf(p, f, seen))
  {
    var key := p.At(seen).key;
    var f := r.tick.rec.steps;
    assert f[Key(Main, key)] == c.tick.rec.steps[Key(Main, key)];
    var rest := RouteOf(p, f, seen + [Slept]);
    assert [] + rest.rollbacks == rest.rollbacks;
  }

  lemma PauseEnds(d: Delivery, t: Tick, c: Eff<()>, r: Eff<Value>, p: Processor, seen: seq<Seen>)
    requires t.phase == Main && p.At(seen).Pause?
    requires c.Stop? && r == Stop(c.tick, c.signal)
    requires var key := p.At(seen).key;
             (SleepEnds(d, t, c, key) && !SettlementReplay(d, t))
             || (c == Stop(t, SettleIncomplete) && !t.rec.Has(Key(Main, key), StepCompleted))
    ensures Agrees(t, r, RouteOf(p, c.tick.rec.steps, seen))
    ensures p.At(seen).key in RouteOf(p, c.tick.rec.steps, seen).stops
  {
  }

  /** Looking at such an error is only possible where the tick has just recorded a failure. */
  lemma {:induction false} ExhaustedFails(book: Book, w: World, app: App, d: Delivery, t: Tick, p: Processor,
                                          seen: seq<Seen>)
    requires Sound(book, t.rec) && t.phase == Main && ProcessorObeys(p, Main, book)
    requires ReadsExhausted(w, app, d, t, p, seen)
    ensures exists k: Key ::
              && k.phase == Main && !t.rec.Has(k, StepFailed)
              && Eval(w, app, d, t, p, seen).tick.rec.Has(k, StepFailed)
    decreases p.Left(seen)
  {
    hide Follows, OnlyPhase, Sound, ExecuteStep, SleepFor, Spans, OnlyAt, StepEnds, SleepEnds;
    match p.At(seen)
    case Return(_) =>
    case Throw(_, _, _) =>
    case Pause(key, delay) =>
      assert MoveObeys(p.At(seen), t.phase, book);
      SleepSpans(book, w, d, t, key, delay);
      var c := SleepFor(w, d, t, key, delay);
      SpansSound(book, t, c.tick);
      SpansKeeps(book, t, c.tick);
      ExhaustedFails(book, w, app, d, c.tick, p, seen + [Slept]);
    case Call(key, o, recovery) =>
      assert MoveObeys(p.At(seen), t.phase, book);
      StepSpans(book, w, app, d, t, key, o, Nothing);
      var c := ExecuteStep(w, app, d, t, key, o, Nothing);
      SpansSound(book, t, c.tick);
      SpansKeeps(book, t, c.tick);
      StepErrors(w, app, d, t, key, o, Nothing);
      var next := seen + [SeenOf(recovery, c)];
      if PollExhausted(w, t, key, c) {
        FinalKeeps(book, w, app, d, c.tick, p, next);
        assert Eval(w, app, d, t, p, seen).tick.rec.Has(Key(Main, key), StepFailed);
      } else {
        ExhaustedFails(book, w, app, d, c.tick, p, next);
      }
  }

  // -- Exactly when a live run replays -----------------------------------------------

  /** Everything the processor is handed live, until it ends or is cut short. */
  function LiveSeen(w: World, app: App, d: Delivery, t: Tick, p: Processor, seen: seq<Seen>): seq<Seen>
    decreases p.Left(seen)
  {
    match p.At(seen)
    case Return(_) => seen
    case Throw(_, _, _) => seen
    case Pause(key, delay) =>
      var c := SleepFor(w, d, t, key, delay);
      if c.Go? then LiveSeen(w, app, d, c.tick, p, seen + [Slept]) else seen
    case Call(key, o, recovery) =>
      var c := ExecuteStep(w, app, d, t, key, o, Nothing);
      if GoesOn(recovery, c) then LiveSeen(w, app, d, c.tick, p, seen + [SeenOf(recovery, c)]) else seen
  }

  /** What it is handed for a settled record. */
  function SettledSeen(recovery: Recovery, s: Step, key: string): Seen {
    if s.status.StepCompleted? then Got(Clone(s.result)) else Retold(recovery, s, key)
  }

  /** Everything the checkpoints alone would hand it. */
  function RouteSeen(p: Processor, phase: Phase, steps: map<Key, Step>, seen: seq<Seen>): seq<Seen>
    decreases p.Left(seen)
  {
    match p.At(seen)
    case Return(_) => seen
    case Throw(_, _, _) => seen
    case Pause(key, _) =>
      var k := Key(phase, key);
      if k in steps && steps[k].status.StepCompleted? then RouteSeen(p, phase, steps, seen + [Slept]) else seen
    case Call(key, _, recovery) =>
      var k := Key(phase, key);
      if k in steps && (steps[k].status.StepCompleted? || (steps[k].status.StepFailed? && !recovery.Uncaught?)) then
        RouteSeen(p, phase, steps, seen + [SettledSeen(recovery, steps[k], key)])
      else seen
  }

  lemma {:induction false} LiveSeenGrows(w: World, app: App, d: Delivery, t: Tick, p: Processor, seen: seq<Seen>)
    ensures seen <= LiveSeen(w, app, d, t, p, seen)
    decreases p.Left(seen)
  {
    hide ExecuteStep, SleepFor;
    match p.At(seen)
    case Return(_) =>
    case Throw(_, _, _) =>
    case Pause(key, delay) =>
      var c := SleepFor(w, d, t, key, delay);
      if c.Go? {
        LiveSeenGrows(w, app, d, c.tick, p, seen + [Slept]);
      }
    case Call(key, o, recovery) =>
      var c := ExecuteStep(w, app, d, t, key, o, Nothing);
      if GoesOn(recovery, c) {
        LiveSeenGrows(w, app, d, c.tick, p, seen + [SeenOf(recovery, c)]);
      }
  }

  lemma {:induction false} RouteSeenGrows(p: Processor, phase: Phase, steps: map<Key, Step>, seen: seq<Seen>)
    ensures seen <= RouteSeen(p, phase, steps, seen)
    decreases p.Left(seen)
  {
    match p.At(seen)
    case Return(_) =>
    case Throw(_, _, _) =>
    case Pause(key, _) =>
      if Key(phase, key) in steps {
        RouteSeenGrows(p, phase, steps, seen + [Slept]);
      }
    case Call(key, _, recovery) =>
      if Key(phase, key) in steps {
        RouteSeenGrows(p, phase, steps, seen + [SettledSeen(recovery, steps[Key(phase, key)], key)]);
      }
  }

  /** Two histories that part at `n` have no common extension. */
  lemma HistoriesPart(x: seq<Seen>, y: seq<Seen>, seen: seq<Seen>, a: Seen, b: Seen)
    requires seen + [a] <= x && seen + [b] <= y && a != b
    ensures !(x <= y)
  {
    assert (seen + [a])[|seen|] == a && (seen + [b])[|seen|] == b;
    assert x[|seen|] == a && y[|seen|] == b;
  }

  /** The record a call leaves decides what the checkpoints hand the processor at that call. */
  lemma CallRetells(t: Tick, c: Eff<Value>, f: map<Key, Step>, p: Processor, seen: seq<Seen>)
    requires p.At(seen).Call?
    requires var m := p.At(seen); StepEnds(t, c, m.key, m.options) && GoesOn(m.recovery, c)
    requires Keeps(c.tick.rec.steps, f)
    ensures var m := p.At(seen);
            var k := Key(t.phase, m.key);
            && k in c.tick.rec.steps && k in f && f[k] == c.tick.rec.steps[k]
            && RouteSeen(p, t.phase, f, seen) == RouteSeen(p, t.phase, f, seen + [SettledSeen(m.recovery, f[k], m.key)])
            && (SeenOf(m.recovery, c) == SettledSeen(m.recovery, f[k], m.key) <==>
                  (c.Stop? && m.recovery.Reads? ==> c.signal.err == StoredError(f[k], m.key)))
  {
  }

  /**
   * Replay, exactly: what a processor, the forward one or the failure handler's, was handed live is what
   * the checkpoints of the tick hand it on every replay if and only if it did not look at the error of a poll
   * that had just run out of attempts.
   */
  lemma {:induction false} ReplaysExactly(book: Book, w: World, app: App, d: Delivery, t: Tick, p: Processor,
                                          seen: seq<Seen>)
    requires Sound(book, t.rec) && t.phase != Compensation && ProcessorObeys(p, t.phase, book)
    ensures var f := Eval(w, app, d, t, p, seen).tick.rec.steps;
            LiveSeen(w, app, d, t, p, seen) <= RouteSeen(p, t.phase, f, seen)
            <==> !ReadsExhausted(w, app, d, t, p, seen)
    decreases p.Left(seen), 1
  {
    hide Follows, OnlyPhase, Sound, ExecuteStep, SleepFor, Spans, OnlyAt, StepEnds, SleepEnds, PollExhausted,
         SettledSeen,
         RouteOf, StoredError;
    var f := Eval(w, app, d, t, p, seen).tick.rec.steps;
    match p.At(seen)
    case Return(_) =>
    case Throw(_, _, _) =>
    case Pause(key, delay) =>
      assert MoveObeys(p.At(seen), t.phase, book);
      SleepSpans(book, w, d, t, key, delay);
      var c := SleepFor(w, d, t, key, delay);
      RouteSeenGrows(p, t.phase, f, seen);
      if c.Go? {
        SpansSound(book, t, c.tick);
        ReplaysExactly(book, w, app, d, c.tick, p, seen + [Slept]);
        FinalKeeps(book, w, app, d, c.tick, p, seen + [Slept]);
        PauseKept(d, t, c, key, f);
      }
    case Call(key, o, recovery) =>
      assert MoveObeys(p.At(seen), t.phase, book);
      StepSpans(book, w, app, d, t, key, o, Nothing);
      var c := ExecuteStep(w, app, d, t, key, o, Nothing);
      RouteSeenGrows(p, t.phase, f, seen);
      if GoesOn(recovery, c) {
        SpansSound(book, t, c.tick);
        CallReplays(book, w, app, d, t, p, seen);
      }
  }

  lemma PauseKept(d: Delivery, t: Tick, c: Eff<()>, key: string, f: map<Key, Step>)
    requires c.Go? && Keeps(c.tick.rec.steps, f)
    requires SleepEnds(d, t, c, key)
    ensures Key(t.phase, key) in f && f[Key(t.phase, key)].status.StepCompleted?
  {
  }

  lemma {:induction false} CallReplays(book: Book, w: World, app: App, d: Delivery, t: Tick, p: Processor,
                                       seen: seq<Seen>)
    requires Sound(book, t.rec) && t.phase != Compensation && ProcessorObeys(p, t.phase, book) && p.At(seen).Call?
    requires GoesOn(p.At(seen).recovery, ExecuteStep(w, app, d, t, p.At(seen).key, p.At(seen).options, Nothing))
    ensures var f := Eval(w, app, d, t, p, seen).tick.rec.steps;
            LiveSeen(w, app, d, t, p, seen) <= RouteSeen(p, t.phase, f, seen)
            <==> !ReadsExhausted(w, app, d, t, p, seen)
    decreases p.Left(seen), 0
  {
    hide Follows, OnlyPhase, Sound, ExecuteStep, SleepFor, Spans, OnlyAt, StepEnds, SleepEnds, PollExhausted,
         SettledSeen,
         RouteOf, StoredError;
    var Call(key, o, recovery) := p.At(seen);
    var f := Eval(w, app, d, t, p, seen).tick.rec.steps;
    assert MoveObeys(p.At(seen), t.phase, book);
    StepSpans(book, w, app, d, t, key, o, Nothing);
    var c := ExecuteStep(w, app, d, t, key, o, Nothing);
    SpansSound(book, t, c.tick);
    var next := seen + [SeenOf(recovery, c)];
    StepErrors(w, app, d, t, key, o, Nothing);
    FinalKeeps(book, w, app, d, c.tick, p, next);
    CallRetells(t, c, f, p, seen);
    ExhaustedRaises(w, t, key, c);
    var told := SettledSeen(recovery, f[Key(t.phase, key)], key);
    if recovery.Reads? && PollExhausted(w, t, key, c) {
      LiveSeenGrows(w, app, d, c.tick, p, next);
      RouteSeenGrows(p, t.phase, f, seen + [told]);
      HistoriesPart(LiveSeen(w, app, d, t, p, seen), RouteSeen(p, t.phase, f, seen), seen, SeenOf(recovery, c), told);
    } else {
      ReplaysExactly(book, w, app, d, c.tick, p, next);
    }
  }

  lemma ExhaustedRaises(w: World, t: Tick, key: string, c: Eff<Value>)
    ensures PollExhausted(w, t, key, c) ==> c.Stop? && c.signal.Raised?
  {
  }

  /** The run ended at the uncaught error of a poll that had just run out of attempts. */
  predicate EndsExhausted(w: World, app: App, d: Delivery, t: Tick, p: Processor, seen: seq<Seen>)
    decreases p.Left(seen)
  {
    match p.At(seen)
    case Return(_) => false
    case Throw(_, _, _) => false
    case Pause(key, delay) =>
      var c := SleepFor(w, d, t, key, delay);
      c.Go? && EndsExhausted(w, app, d, c.tick, p, seen + [Slept])
    case Call(key, o, recovery) =>
      var c := ExecuteStep(w, app, d, t, key, o, Nothing);
      if GoesOn(recovery, c) then EndsExhausted(w, app, d, c.tick, p, seen + [SeenOf(recovery, c)])
      else PollExhausted(w, t, key, c)
  }

  lemma CallThrows(t: Tick, c: Eff<Value>, p: Processor, seen: seq<Seen>)
    requires t.phase == Main && p.At(seen).Call?
    requires var m := p.At(seen); !GoesOn(m.recovery, c) && StepEnds(t, c, m.key, m.options) && c.signal.Raised?
    ensures var k := Key(Main, p.At(seen).key);
            && k in c.tick.rec.steps
            && RouteOf(p, c.tick.rec.steps, seen).end == Threw(StoredError(c.tick.rec.steps[k], p.At(seen).key), true)
  {
  }

  /** The error of a step that ends the run, exactly: replay ends it with that error unless it was such a poll's. */
  lemma {:induction false} EndsExactly(book: Book, w: World, app: App, d: Delivery, t: Tick, p: Processor,
                                       seen: seq<Seen>)
    requires Sound(book, t.rec) && t.phase == Main && ProcessorObeys(p, Main, book)
    requires !ReadsExhausted(w, app, d, t, p, seen)
    ensures var r := Eval(w, app, d, t, p, seen);
            r.Stop? && r.signal.Raised? && r.signal.stepScoped ==>
              (RouteOf(p, r.tick.rec.steps, seen).end == Threw(r.signal.err, true)
               <==> !EndsExhausted(w, app, d, t, p, seen))
    decreases p.Left(seen)
  {
    hide Follows, OnlyPhase, Sound, ExecuteStep, SleepFor, Spans, OnlyAt, StepEnds, SleepEnds, PollExhausted,
         StoredError,
         Registers, SeenOf;
    var r := Eval(w, app, d, t, p, seen);
    match p.At(seen)
    case Return(_) =>
    case Throw(_, _, _) =>
    case Pause(key, delay) =>
      assert MoveObeys(p.At(seen), t.phase, book);
      SleepSpans(book, w, d, t, key, delay);
      var c := SleepFor(w, d, t, key, delay);
      if c.Go? {
        SpansSound(book, t, c.tick);
        EndsExactly(book, w, app, d, c.tick, p, seen + [Slept]);
        FinalKeeps(book, w, app, d, c.tick, p, seen + [Slept]);
        PauseKept(d, t, c, key, r.tick.rec.steps);
      } else {
        PauseRaises(d, t, c, key);
      }
    case Call(key, o, recovery) =>
      assert MoveObeys(p.At(seen), t.phase, book);
      StepSpans(book, w, app, d, t, key, o, Nothing);
      var c := ExecuteStep(w, app, d, t, key, o, Nothing);
      StepErrors(w, app, d, t, key, o, Nothing);
      if GoesOn(recovery, c) {
        SpansSound(book, t, c.tick);
        var next := seen + [SeenOf(recovery, c)];
        EndsExactly(book, w, app, d, c.tick, p, next);
        FinalKeeps(book, w, app, d, c.tick, p, next);
        CallSteers(t, c, r.tick.rec.steps, p, seen);
      } else if c.signal.Raised? {
        CallThrows(t, c, p, seen);
      }
  }

  lemma PauseRaises(d: Delivery, t: Tick, c: Eff<()>, key: string)
    requires c.Stop? && (SleepEnds(d, t, c, key) || c.signal.SettleIncomplete?)
    ensures c.signal.Raised? ==> !c.signal.stepScoped
  {
  }
}
