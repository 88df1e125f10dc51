/** What holds of every run, whatever the sequence of deliveries, crashes and operator actions. */
module Guarantees {
  import opened Values
  import opened Phases
  import opened Records
  import opened Processors
  import opened Steps
  import opened Ticks
  import opened Journal
  import opened StepCalls
  import opened Routes
  import opened Sagas
  import opened Failures
  import opened Runs

  function CompensationOf(k: Key): Key {
    Key(Compensation, k.name)
  }

  /** A completed forward step that promises a compensation. */
  predicate Owing(book: Book, rec: Record, k: Key) {
    && k.phase == Main && rec.Has(k, StepCompleted)
    && book(k).AsStep? && book(k).options.onRollback.Some?
  }

  predicate Named(rs: seq<Rollback>, name: string) {
    exists i :: 0 <= i < |rs| && rs[i].key == name
  }

  /** Every step that owes a compensation is on the current route, or has been compensated already. */
  ghost predicate Covered(book: Book, app: App, rec: Record) {
    forall k :: Owing(book, rec, k) ==>
      Named(RouteIn(app, rec).rollbacks, k.name) || rec.Has(CompensationOf(k), StepCompleted)
  }

  /** Every step that owes a compensation has been compensated. */
  ghost predicate AllCompensated(book: Book, rec: Record) {
    forall k :: Owing(book, rec, k) ==> rec.Has(CompensationOf(k), StepCompleted)
  }

  /** The stored output is what the processor returns when every step is replaced by its checkpoint. */
  ghost predicate OutputReplays(app: App, rec: Record) {
    var end := RouteIn(app, rec).end;
    end.Finished? && rec.instance.output == Clone(end.value)
  }

  /** Sound, and in step with what the processor makes of the checkpoints. */
  ghost predicate Consistent(book: Book, app: App, rec: Record) {
    && Sound(book, rec)
    && Covered(book, app, rec)
    && (rec.instance.status.Failed? ==> AllCompensated(book, rec))
    && (rec.instance.status.Completed? ==> OutputReplays(app, rec))
  }

  lemma ObeysMain(app: App, book: Book)
    requires Obeys(app, book)
    ensures ProcessorObeys(app.main, Main, book)
  {
  }

  // -- One event keeps the run consistent ----------------------------------------------

  /** A completed step on the route that promises a compensation has registered it. */
  lemma {:induction false} OnRouteRegistered(book: Book, p: Processor, rec: Record, seen: seq<Seen>, k: Key)
    requires ProcessorObeys(p, Main, book) && Owing(book, rec, k)
    requires k.name in RouteOf(p, rec.steps, seen).stops
    ensures Named(RouteOf(p, rec.steps, seen).rollbacks, k.name)
    decreases p.Left(seen)
  {
    var route := RouteOf(p, rec.steps, seen);
    assert MoveObeys(p.At(seen), Main, book);
    match p.At(seen)
    case Return(_) =>
    case Throw(_, _, _) =>
    case Pause(key, _) =>
      if key != k.name {
        OnRouteRegistered(book, p, rec, seen + [Slept], k);
        var rest := RouteOf(p, rec.steps, seen + [Slept]);
        assert route.rollbacks == rest.rollbacks;
      }
    case Call(key, o, recovery) =>
      var s := Key(Main, key);
      if key == k.name {
        assert route.rollbacks[0].key == key;
      } else if rec.Has(s, StepCompleted) {
        var next := seen + [Got(Clone(rec.steps[s].result))];
        OnRouteRegistered(book, p, rec, next, k);
        var rest := RouteOf(p, rec.steps, next).rollbacks;
        var i :| 0 <= i < |rest| && rest[i].key == k.name;
        var own := Registers(key, o, rec.steps[s]);
        assert route.rollbacks == own + rest;
        assert route.rollbacks[|own| + i].key == k.name;
      } else if !recovery.Uncaught? && rec.Has(s, StepFailed) {
        OnRouteRegistered(book, p, rec, seen + [Retold(recovery, rec.steps[s], key)], k);
      }
  }

  lemma FollowsKeeps(a: Tick, b: Tick)
    requires Follows(a, b)
    ensures Keeps(a.rec.steps, b.rec.steps)
  {
    forall k | k in a.rec.steps && !a.rec.steps[k].status.StepRunning?
      ensures k in b.rec.steps && b.rec.steps[k] == a.rec.steps[k]
    {
      assert StepMoves(a.rec.steps[k], b.rec.steps[k], b.now);
    }
  }

  lemma CoveredOn(book: Book, app: App, t: Tick, u: Tick)
    requires Obeys(app, book) && Follows(t, u) && Covered(book, app, t.rec)
    requires ChangesOnRoute(t.rec, u.rec, RouteIn(app, u.rec).stops)
    ensures Covered(book, app, u.rec)
  {
    hide Follows, ProcessorObeys, RouteOf;
    FollowsKeeps(t, u);
    RouteGrows(app.main, t.rec.steps, u.rec.steps, []);
    var before, after := RouteIn(app, t.rec).rollbacks, RouteIn(app, u.rec).rollbacks;
    forall k | Owing(book, u.rec, k) ensures Named(after, k.name) || u.rec.Has(CompensationOf(k), StepCompleted) {
      if k in t.rec.steps && t.rec.steps[k] == u.rec.steps[k] {
        assert Owing(book, t.rec, k);
        if Named(before, k.name) {
          var i :| 0 <= i < |before| && before[i].key == k.name;
          assert after[i] == before[i];
        }
      } else {
        OnRouteRegistered(book, app.main, u.rec, [], k);
      }
    }
  }

  /** Discharging the route discharges everything, for what is off the route already was. */
  lemma DischargedAll(book: Book, app: App, rec: Record)
    requires Covered(book, app, rec) && Discharged(rec, RouteIn(app, rec).rollbacks)
    ensures rec.instance.status.Failed? ==> AllCompensated(book, rec)
    ensures rec.instance.status.CompensationFailed? ==>
              && (forall k :: Owing(book, rec, k) ==>
                    rec.Has(CompensationOf(k), StepCompleted) || rec.Has(CompensationOf(k), StepFailed))
              && (exists r :: r in RouteIn(app, rec).rollbacks && GaveUp(rec, r))
  {
    hide RouteOf;
    var rs := RouteIn(app, rec).rollbacks;
    forall k | Owing(book, rec, k) && Named(rs, k.name)
      ensures rec.instance.status.Failed? ==> rec.Has(CompensationOf(k), StepCompleted)
      ensures rec.instance.status.CompensationFailed? ==>
                rec.Has(CompensationOf(k), StepCompleted) || rec.Has(CompensationOf(k), StepFailed)
    {
      var i :| 0 <= i < |rs| && rs[i].key == k.name;
      assert CompKey(rs[i]) == CompensationOf(k);
    }
    if rec.instance.status.CompensationFailed? {
      var i :| 0 <= i < |rs| && GaveUp(rec, rs[i]);
      assert rs[i] in rs;
    }
  }

  lemma TickConsistent(book: Book, app: App, d: Delivery, t: Tick, u: Tick)
    requires Obeys(app, book) && Ready(t) && Covered(book, app, t.rec) && TickEnds(book, app, d, t, u)
    ensures Consistent(book, app, u.rec)
  {
    hide Follows, Sound, RouteOf, Covered, AllCompensated, Discharged, ChangesOnRoute, Obeys;
    CoveredOn(book, app, t, u);
    if u.rec.instance.status.Failed? {
      DischargedAll(book, app, u.rec);
    }
  }

  /** The state a live delivery starts from, once the begin-tick write is done. */
  function Began(input: InitInput, s: Run, w: World): Tick {
    Save(w, Opening(BeginTick(s.stored, input, s.now), s.now, s.trace), BeginTick(s.stored, input, s.now)).tick
  }

  predicate Unended(s: Run) {
    s.stored.None? || !s.stored.value.instance.status.Terminal()
  }

  /** Either a delivery repeats an old outcome, or it is a tick from `Began`, possibly cut short at once. */
  lemma DeliverTick(app: App, input: InitInput, s: Run, w: World, d: Delivery)
    requires Unended(s) && !Skipped(s, d)
    ensures var u := RunLocked(w, app, d, s.stored, input, s.now, s.trace).tick;
            Ready(Began(input, s, w)) && (u == Began(input, s, w) || u == Execute(w, app, d, Began(input, s, w)).tick)
    ensures var u := RunLocked(w, app, d, s.stored, input, s.now, s.trace).tick;
            Next(app, input, s, Deliver(w, d)) == Run(Some(u.rec), u.now, u.trace)
  {
    hide Execute;
  }

  lemma DeliverEnded(app: App, input: InitInput, s: Run, w: World, d: Delivery)
    requires !Unended(s)
    ensures Next(app, input, s, Deliver(w, d)) == s
    ensures RunLocked(w, app, d, s.stored, input, s.now, s.trace)
            == Go(Opening(s.stored.value, s.now, s.trace), Replay(s.stored.value.instance))
  {
  }

  /** The begin-tick write leaves the steps alone. */
  lemma BeganConsistent(book: Book, app: App, input: InitInput, s: Run, w: World)
    requires Unended(s) && (s.stored.Some? ==> Consistent(book, app, s.stored.value))
    ensures Consistent(book, app, Began(input, s, w).rec)
    ensures s.stored.Some? ==> Began(input, s, w).rec.steps == s.stored.value.steps
                               && Began(input, s, w).rec.Counter() == s.stored.value.Counter()
    ensures s.stored.None? ==> Began(input, s, w).rec.steps == map[]
    ensures Began(input, s, w).trace == s.trace && s.now <= Began(input, s, w).now
  {
    hide RouteOf;
    if s.stored.Some? {
      assert RouteIn(app, Began(input, s, w).rec) == RouteIn(app, s.stored.value);
    }
  }

  lemma BeganSound(book: Book, app: App, input: InitInput, s: Run, w: World)
    requires Unended(s) && (s.stored.Some? ==> Sound(book, s.stored.value))
    ensures Sound(book, Began(input, s, w).rec)
    ensures s.stored.Some? ==> Began(input, s, w).rec.steps == s.stored.value.steps
                               && Began(input, s, w).rec.Counter() == s.stored.value.Counter()
                               && Began(input, s, w).rec.instance.output == s.stored.value.instance.output
    ensures s.stored.None? ==> Began(input, s, w).rec.steps == map[]
                               && Began(input, s, w).rec.instance.output == Undefined
    ensures Began(input, s, w).trace == s.trace && s.now <= Began(input, s, w).now
  {
  }

  /** A live delivery, seen as a tick. */
  lemma DeliverKeeps(book: Book, app: App, input: InitInput, s: Run, w: World, d: Delivery)
    requires Obeys(app, book) && Unended(s) && !Skipped(s, d)
    requires s.stored.Some? ==> Sound(book, s.stored.value)
    ensures var t := Began(input, s, w);
            var u := RunLocked(w, app, d, s.stored, input, s.now, s.trace).tick;
            && Ready(t) && Sound(book, t.rec)
            && (u == t || TickKeeps(book, t, u))
  {
    hide Obeys, TickKeeps, Sound, RunLocked, Execute, Skipped;
    BeganSound(book, app, input, s, w);
    DeliverTick(app, input, s, w, d);
    ExecuteKeeps(book, w, app, d, Began(input, s, w));
  }

  // -- What the processor looks at ---------------------------------------------------------

  /** A live delivery in which the processor looks at no error that will not replay. */
  predicate FaithfulEvent(app: App, input: InitInput, s: Run, e: Event) {
    e.Deliver? && Unended(s) && !Skipped(s, e.delivery) ==>
      !ReadsExhausted(e.world, app, e.delivery, Began(input, s, e.world), app.main, [])
  }

  predicate Faithful(app: App, input: InitInput, s: Run, es: seq<Event>)
    decreases |es|
  {
    es == [] || (FaithfulEvent(app, input, s, es[0]) && Faithful(app, input, Next(app, input, s, es[0]), es[1..]))
  }

  /** Step `k` does not run out of attempts while polling. */
  ghost predicate NeverExhausts(app: App, w: World, k: Key, o: StepOptions) {
    forall n :: w.body(k, n).RetryLater? && Policy(app, o).attempts <= n ==> Configured(app, o).None?
  }

  /** No call of a phase whose error is looked at can run out of attempts while polling. */
  ghost predicate PlainIn(app: App, book: Book, w: World, phase: Phase) {
    forall k: Key :: k.phase == phase && book(k).AsStep? && book(k).looks ==> NeverExhausts(app, w, k, book(k).options)
  }

  ghost predicate Plain(app: App, book: Book, w: World) {
    PlainIn(app, book, w, Main)
  }

  lemma {:induction false} PlainReads(book: Book, w: World, app: App, d: Delivery, t: Tick, p: Processor,
                                      seen: seq<Seen>)
    requires t.phase != Compensation && ProcessorObeys(p, t.phase, book)
    requires d.mode.Normal? && PlainIn(app, book, w, t.phase)
    ensures !ReadsExhausted(w, app, d, t, p, seen)
    decreases p.Left(seen)
  {
    hide ExecuteStep, SleepFor, PollExhausted, NeverExhausts;
    assert MoveObeys(p.At(seen), t.phase, book);
    match p.At(seen)
    case Return(_) =>
    case Throw(_, _, _) =>
    case Pause(key, delay) =>
      SleepActs(w, d, t, key, delay);
      var c := SleepFor(w, d, t, key, delay);
      if c.Go? {
        PlainReads(book, w, app, d, c.tick, p, seen + [Slept]);
      }
    case Call(key, o, recovery) =>
      StepActs(w, app, d, t, key, o, Nothing);
      var c := ExecuteStep(w, app, d, t, key, o, Nothing);
      if recovery.Reads? {
        NotExhausted(w, app, d, t, key, o, Nothing);
      }
      if GoesOn(recovery, c) {
        PlainReads(book, w, app, d, c.tick, p, seen + [SeenOf(recovery, c)]);
      }
  }

  lemma NotExhausted(w: World, app: App, d: Delivery, t: Tick, key: string, o: StepOptions, arg: Argument)
    requires d.mode.Normal? && NeverExhausts(app, w, Key(t.phase, key), o)
    ensures !PollExhausted(w, t, key, ExecuteStep(w, app, d, t, key, o, arg))
  {
    hide ExecuteStep, Policy, Configured, Exhausted;
    StepActs(w, app, d, t, key, o, arg);
    StepErrors(w, app, d, t, key, o, arg);
  }

  predicate LiveDelivery(e: Event) {
    e.Deliver? && e.delivery.mode.Normal?
  }

  /**
   * A condition on the events alone: histories whose worlds never exhaust a poll the processor looks at
   * are faithful. A processor that looks at no caught error meets it in every world.
   */
  lemma {:induction false} PlainIsFaithful(book: Book, app: App, input: InitInput, s: Run, es: seq<Event>)
    requires Obeys(app, book) && forall i :: 0 <= i < |es| && LiveDelivery(es[i]) ==> Plain(app, book, es[i].world)
    ensures Faithful(app, input, s, es)
    decreases |es|
  {
    hide Obeys, Next, PlainIn, ReadsExhausted, Began;
    if es != [] {
      ObeysMain(app, book);
      var e := es[0];
      if e.Deliver? && Unended(s) && !Skipped(s, e.delivery) {
        BeganInMain(input, s, e.world);
        if LiveDelivery(e) {
          PlainReads(book, e.world, app, e.delivery, Began(input, s, e.world), app.main, []);
        } else {
          EvalSettling(e.world, app, e.delivery, Began(input, s, e.world), app.main, []);
        }
      }
      PlainIsFaithful(book, app, input, Next(app, input, s, e), es[1..]);
    }
  }

  lemma BeganInMain(input: InitInput, s: Run, w: World)
    ensures Began(input, s, w).phase == Main
  {
  }

  /** A live delivery, seen as a tick that ends somewhere. */
  lemma DeliverEnds(book: Book, app: App, input: InitInput, s: Run, w: World, d: Delivery)
    requires Obeys(app, book) && Unended(s) && !Skipped(s, d) && FaithfulEvent(app, input, s, Deliver(w, d))
    requires s.stored.Some? ==> Sound(book, s.stored.value)
    ensures var t := Began(input, s, w);
            var u := RunLocked(w, app, d, s.stored, input, s.now, s.trace).tick;
            && Ready(t) && Sound(book, t.rec)
            && (u == t || TickEnds(book, app, d, t, u))
  {
    hide Obeys, TickEnds, Sound, RunLocked, Execute, Skipped, ReadsExhausted;
    BeganSound(book, app, input, s, w);
    DeliverTick(app, input, s, w, d);
    ExecuteEnds(book, w, app, d, Began(input, s, w));
  }

  lemma DeliverConsistent(book: Book, app: App, input: InitInput, s: Run, w: World, d: Delivery)
    requires Obeys(app, book) && (s.stored.Some? ==> Consistent(book, app, s.stored.value))
    requires FaithfulEvent(app, input, s, Deliver(w, d))
    ensures var n := Next(app, input, s, Deliver(w, d));
            n.stored.Some? ==> Consistent(book, app, n.stored.value)
  {
    hide Obeys, TickEnds, Consistent, RunLocked, Sound, Covered, Skipped, FaithfulEvent;
    if !Unended(s) {
      DeliverEnded(app, input, s, w, d);
    } else if !Skipped(s, d) {
      DeliverTick(app, input, s, w, d);
      StoredSound(book, app, s);
      DeliverEnds(book, app, input, s, w, d);
      BeganConsistent(book, app, input, s, w);
      ConsistentCovers(book, app, Began(input, s, w).rec);
      var t := Began(input, s, w);
      var u := RunLocked(w, app, d, s.stored, input, s.now, s.trace).tick;
      if u != t {
        TickConsistent(book, app, d, t, u);
      }
    } else {
      SkippedStays(app, input, s, w, d);
    }
  }

  lemma StoredSound(book: Book, app: App, s: Run)
    requires s.stored.Some? ==> Consistent(book, app, s.stored.value)
    ensures s.stored.Some? ==> Sound(book, s.stored.value)
  {
  }

  lemma ConsistentCovers(book: Book, app: App, rec: Record)
    requires Consistent(book, app, rec)
    ensures Covered(book, app, rec)
  {
  }

  lemma SkippedStays(app: App, input: InitInput, s: Run, w: World, d: Delivery)
    requires Skipped(s, d)
    ensures Next(app, input, s, Deliver(w, d)) == s
  {
  }

  /** Dropping failed steps from a run that has been compensated. */
  lemma RetryConsistent(book: Book, app: App, rec: Record, writes: nat, now: nat)
    requires Consistent(book, app, rec)
    ensures Consistent(book, app, Retry(rec, writes, now))
  {
    hide RouteOf;
    var r := Retry(rec, writes, now);
    if rec.instance.status.Failed? {
      assert r.Counter() == rec.Counter();
      SoundLess(book, rec, r);
      forall k | Owing(book, r, k) ensures r.Has(CompensationOf(k), StepCompleted) {
        assert Owing(book, rec, k);
      }
    }
  }

  lemma SoundLess(book: Book, a: Record, b: Record)
    requires Sound(book, a) && b.Counter() == a.Counter()
    requires forall k :: k in b.steps ==> k in a.steps && b.steps[k] == a.steps[k]
    ensures Sound(book, b)
  {
  }

  /** Dropping failed compensations leaves the forward steps and the finished compensations. */
  lemma RetryCompConsistent(book: Book, app: App, rec: Record, writes: nat, now: nat)
    requires Consistent(book, app, rec)
    ensures Consistent(book, app, RetryComp(rec, writes, now))
  {
    hide RouteOf;
    var r := RetryComp(rec, writes, now);
    if rec.instance.status.CompensationFailed? {
      assert r.Counter() == rec.Counter();
      SoundLess(book, rec, r);
      RouteOfMain(app.main, rec, r, []);
      forall k | Owing(book, r, k)
        ensures Named(RouteIn(app, r).rollbacks, k.name) || r.Has(CompensationOf(k), StepCompleted)
      {
        assert Owing(book, rec, k);
      }
    }
  }

  lemma CancelConsistent(book: Book, app: App, rec: Record, now: nat)
    requires Consistent(book, app, rec)
    ensures Consistent(book, app, CancelRecord(rec, now))
  {
    hide RouteOf;
    var r := CancelRecord(rec, now);
    assert RouteIn(app, r) == RouteIn(app, rec);
  }

  lemma NextConsistent(book: Book, app: App, input: InitInput, s: Run, e: Event)
    requires Obeys(app, book) && (s.stored.Some? ==> Consistent(book, app, s.stored.value))
    requires FaithfulEvent(app, input, s, e)
    ensures var n := Next(app, input, s, e);
            n.stored.Some? ==> Consistent(book, app, n.stored.value)
  {
    hide Obeys, Consistent, RunLocked, Retry, RetryComp, CancelRecord, FaithfulEvent;
    match e
    case Deliver(w, d) => DeliverConsistent(book, app, input, s, w, d);
    case RetryRun(n) => if s.stored.Some? { RetryConsistent(book, app, s.stored.value, n, s.now); }
    case RetryCompensation(n) => if s.stored.Some? { RetryCompConsistent(book, app, s.stored.value, n, s.now); }
    case CancelByOperator => if s.stored.Some? { CancelConsistent(book, app, s.stored.value, s.now); }
    case Wait(_) =>
  }

  /** Every faithful history keeps the run in step with its checkpoints. */
  lemma {:induction false} AlwaysConsistent(book: Book, app: App, input: InitInput, s: Run, es: seq<Event>)
    requires Obeys(app, book) && (s.stored.Some? ==> Consistent(book, app, s.stored.value))
    requires Faithful(app, input, s, es)
    ensures var n := RunAll(app, input, s, es);
            n.stored.Some? ==> Consistent(book, app, n.stored.value)
    decreases |es|
  {
    hide Obeys, Consistent, Next, FaithfulEvent;
    if es != [] {
      NextConsistent(book, app, input, s, es[0]);
      AlwaysConsistent(book, app, input, Next(app, input, s, es[0]), es[1..]);
    }
  }

  // -- Whatever the processor looks at ------------------------------------------------------

  lemma NextSound(book: Book, app: App, input: InitInput, s: Run, e: Event)
    requires Obeys(app, book) && (s.stored.Some? ==> Sound(book, s.stored.value))
    ensures var n := Next(app, input, s, e);
            n.stored.Some? ==> Sound(book, n.stored.value)
  {
    hide Obeys, RunLocked, Sound, Began, Skipped;
    match e
    case Deliver(w, d) =>
      if Skipped(s, d) {
        SkippedStays(app, input, s, w, d);
      } else if !Unended(s) {
        DeliverEnded(app, input, s, w, d);
      } else {
        DeliverTick(app, input, s, w, d);
        DeliverKeeps(book, app, input, s, w, d);
      }
    case RetryRun(n) => if s.stored.Some? { RetrySound(book, s.stored.value, n, s.now); }
    case RetryCompensation(n) => if s.stored.Some? { RetryCompSound(book, s.stored.value, n, s.now); }
    case CancelByOperator => if s.stored.Some? { SoundLess(book, s.stored.value, CancelRecord(s.stored.value, s.now)); }
    case Wait(_) =>
  }

  lemma RetrySound(book: Book, rec: Record, writes: nat, now: nat)
    requires Sound(book, rec)
    ensures Sound(book, Retry(rec, writes, now))
  {
    hide Sound;
    SoundLess(book, rec, Retry(rec, writes, now));
  }

  lemma RetryCompSound(book: Book, rec: Record, writes: nat, now: nat)
    requires Sound(book, rec)
    ensures Sound(book, RetryComp(rec, writes, now))
  {
    hide Sound;
    SoundLess(book, rec, RetryComp(rec, writes, now));
  }

  lemma {:induction false} AlwaysSound(book: Book, app: App, input: InitInput, s: Run, es: seq<Event>)
    requires Obeys(app, book) && (s.stored.Some? ==> Sound(book, s.stored.value))
    ensures var n := RunAll(app, input, s, es);
            n.stored.Some? ==> Sound(book, n.stored.value)
    decreases |es|
  {
    hide Obeys, Sound, Next;
    if es != [] {
      NextSound(book, app, input, s, es[0]);
      AlwaysSound(book, app, input, Next(app, input, s, es[0]), es[1..]);
    }
  }

  // -- Main results ----------------------------------------------------------------------

  /**
   * Saga settlement: whenever a run is `failed`, every completed forward step that promised a
   * compensation has a completed compensation record.
   */
  lemma SagaSettled(book: Book, app: App, input: InitInput, es: seq<Event>)
    requires Obeys(app, book) && Faithful(app, input, FRESH, es)
    ensures var n := RunAll(app, input, FRESH, es);
            n.stored.Some? && n.stored.value.instance.status.Failed? ==>
              forall k :: Owing(book, n.stored.value, k) ==> n.stored.value.Has(CompensationOf(k), StepCompleted)
  {
    hide RunAll, Obeys, Sound, Covered, Faithful;
    AlwaysConsistent(book, app, input, FRESH, es);
  }

  /** What a run in `compensation_failed` owes and has not delivered. */
  ghost predicate GivenUp(book: Book, app: App, rec: Record) {
    rec.instance.status.CompensationFailed? ==>
      && (forall k :: Owing(book, rec, k) ==>
            rec.Has(CompensationOf(k), StepCompleted) || rec.Has(CompensationOf(k), StepFailed))
      && (exists r :: r in RouteIn(app, rec).rollbacks && GaveUp(rec, r))
  }

  /** An operator's `retryCompensation` that dies between its writes. */
  predicate Halfway(e: Event) {
    e.RetryCompensation? && 1 <= e.writes <= 2
  }

  lemma DeliverGivesUp(book: Book, app: App, input: InitInput, s: Run, w: World, d: Delivery)
    requires Obeys(app, book) && (s.stored.Some? ==> Consistent(book, app, s.stored.value))
    requires FaithfulEvent(app, input, s, Deliver(w, d)) && Unended(s) && !Skipped(s, d)
    ensures var n := Next(app, input, s, Deliver(w, d));
            n.stored.Some? ==> GivenUp(book, app, n.stored.value)
  {
    hide Obeys, Sound, Covered, RunLocked, Follows, ChangesOnRoute, RouteOf, Discharged, Skipped, FaithfulEvent;
    BeganConsistent(book, app, input, s, w);
    DeliverTick(app, input, s, w, d);
    DeliverEnds(book, app, input, s, w, d);
    var t := Began(input, s, w);
    var u := RunLocked(w, app, d, s.stored, input, s.now, s.trace).tick;
    if u != t {
      CoveredOn(book, app, t, u);
      if u.rec.instance.status.CompensationFailed? {
        DischargedAll(book, app, u.rec);
      }
    }
  }

  lemma NextGivesUp(book: Book, app: App, input: InitInput, s: Run, e: Event)
    requires Obeys(app, book) && FaithfulEvent(app, input, s, e) && !Halfway(e)
    requires s.stored.Some? ==> Consistent(book, app, s.stored.value) && GivenUp(book, app, s.stored.value)
    ensures var n := Next(app, input, s, e);
            n.stored.Some? ==> GivenUp(book, app, n.stored.value)
  {
    hide Obeys, Consistent, RunLocked, RouteOf, FaithfulEvent, Skipped;
    if e.Deliver? {
      if Skipped(s, e.delivery) {
        SkippedStays(app, input, s, e.world, e.delivery);
      } else if Unended(s) {
        DeliverGivesUp(book, app, input, s, e.world, e.delivery);
      } else {
        DeliverEnded(app, input, s, e.world, e.delivery);
      }
    }
  }

  /**
   * What a `retryCompensation` does to that, exactly: it stands, or the run has left the status, unless the
   * action dies after it has dropped the failed records and before it has changed the status.
   */
  lemma RetryCompGivesUp(book: Book, app: App, rec: Record, writes: nat, now: nat)
    requires rec.instance.status.CompensationFailed? && GivenUp(book, app, rec)
    ensures GivenUp(book, app, RetryComp(rec, writes, now)) <==> !Halfway(RetryCompensation(writes))
  {
    hide RouteOf;
    var r := RetryComp(rec, writes, now);
    if Halfway(RetryCompensation(writes)) {
      RouteOfMain(app.main, rec, r, []);
      forall x | x in RouteIn(app, r).rollbacks ensures !GaveUp(r, x) {
        assert CompKey(x).phase == Compensation;
      }
    }
  }

  /**
   * The other ending: whenever a run is `compensation_failed`, every such step has a completed or failed
   * compensation record and at least one failed, from the delivery that ends it so and for as long as no
   * `retryCompensation` dies between its writes.
   */
  lemma {:induction false} SagaGaveUp(book: Book, app: App, input: InitInput, s: Run, es: seq<Event>)
    requires Obeys(app, book) && Faithful(app, input, s, es)
    requires s.stored.Some? ==> Consistent(book, app, s.stored.value) && GivenUp(book, app, s.stored.value)
    requires forall i :: 0 <= i < |es| ==> !Halfway(es[i])
    ensures var n := RunAll(app, input, s, es);
            n.stored.Some? ==> GivenUp(book, app, n.stored.value)
    decreases |es|
  {
    hide Obeys, Consistent, Next, FaithfulEvent, GivenUp;
    if es != [] {
      NextGivesUp(book, app, input, s, es[0]);
      NextConsistent(book, app, input, s, es[0]);
      SagaGaveUp(book, app, input, Next(app, input, s, es[0]), es[1..]);
    }
  }

  /**
   * Replay refinement: a run that completed, after whatever crashes, yields and retries, stored what
   * the processor returns when every step is replaced by its checkpoint; and every later delivery
   * hands out that same output and changes nothing.
   */
  lemma CompletedRunReplays(book: Book, app: App, input: InitInput, es: seq<Event>, w: World, d: Delivery)
    requires Obeys(app, book) && Faithful(app, input, FRESH, es)
    ensures var n := RunAll(app, input, FRESH, es);
            n.stored.Some? && n.stored.value.instance.status.Completed? ==>
              var rec := n.stored.value;
              && RouteIn(app, rec).end.Finished?
              && rec.instance.output == Clone(RouteIn(app, rec).end.value)
              && Next(app, input, n, Deliver(w, d)) == n
              && RunLocked(w, app, d, n.stored, input, n.now, n.trace)
                 == Go(Opening(rec, n.now, n.trace), RunCompleted(Clone(RouteIn(app, rec).end.value)))
  {
    hide RunAll, Obeys, Sound, Covered, RunLocked, RouteOf, Faithful;
    var n := RunAll(app, input, FRESH, es);
    AlwaysConsistent(book, app, input, FRESH, es);
    if n.stored.Some? && n.stored.value.instance.status.Completed? {
      DeliverEnded(app, input, n, w, d);
    }
  }

  /**
   * The value a step call returns, in whatever phase and mode, is the one every later call on a store that
   * kept its record returns, whatever that call would have handed the body.
   */
  lemma LiveValueReplays(book: Book, w: World, app: App, d: Delivery, t: Tick, key: string, o: StepOptions,
                         arg: Argument, w': World, d': Delivery, later: Tick, arg': Argument)
    requires Sound(book, t.rec) && !NamesSleep(book, Key(t.phase, key))
    requires ExecuteStep(w, app, d, t, key, o, arg).Go?
    requires Keeps(ExecuteStep(w, app, d, t, key, o, arg).tick.rec.steps, later.rec.steps)
    requires later.phase == t.phase && !later.rec.instance.status.Cancelled?
    ensures var live := ExecuteStep(w, app, d, t, key, o, arg);
            var replayed := ExecuteStep(w', app, d', later, key, o, arg');
            replayed.Go? && replayed.value == live.value && replayed.tick.rec == later.rec
  {
    hide AttemptLoop, Sound, Spans, OnlyAt;
    StepSpans(book, w, app, d, t, key, o, arg);
    EndsSettled(t, ExecuteStep(w, app, d, t, key, o, arg), key, o);
    QuietCall(w', app, d', later, key, o, arg');
  }

  /**
   * The error a step call raises is the one every later call on a store that kept its record raises,
   * exactly unless the step is a poll that ran out of attempts in this very call: that raises
   * `DurableRetriesExhaustedError` and stores the `RetryLaterError`. In whatever phase and mode.
   */
  lemma LiveErrorReplays(book: Book, w: World, app: App, d: Delivery, t: Tick, key: string, o: StepOptions,
                         arg: Argument, w': World, d': Delivery, later: Tick, arg': Argument)
    requires Sound(book, t.rec) && !NamesSleep(book, Key(t.phase, key))
    requires var live := ExecuteStep(w, app, d, t, key, o, arg); live.Stop? && live.signal.Raised?
    requires Keeps(ExecuteStep(w, app, d, t, key, o, arg).tick.rec.steps, later.rec.steps)
    requires later.phase == t.phase && !later.rec.instance.status.Cancelled?
    ensures var live := ExecuteStep(w, app, d, t, key, o, arg);
            var replayed := ExecuteStep(w', app, d', later, key, o, arg');
            && replayed.Stop? && replayed.signal.Raised? && replayed.tick.rec == later.rec
            && (replayed.signal.err == live.signal.err <==> !PollExhausted(w, t, key, live))
  {
    hide AttemptLoop, Sound, Spans, OnlyAt, PollExhausted;
    StepSpans(book, w, app, d, t, key, o, arg);
    EndsSettled(t, ExecuteStep(w, app, d, t, key, o, arg), key, o);
    StepErrors(w, app, d, t, key, o, arg);
    QuietCall(w', app, d', later, key, o, arg');
  }
}
