/** Runs that are never settled: for them no guard is needed. */
module LiveRuns {
  import opened Records
  import opened Processors
  import opened Steps
  import opened Ticks
  import opened Journal
  import opened Routes
  import opened Failures
  import opened Runs
  import opened Guarantees
  import opened Compensating
  import opened Irreversible

  predicate NeverSettled(es: seq<Event>) {
    forall i :: 0 <= i < |es| && es[i].Deliver? ==> LiveDelivery(es[i])
  }

  /** A condition on the events alone: no settlement, and no exhausted poll whose error the processor looks at. */
  ghost predicate PlainLive(app: App, book: Book, es: seq<Event>) {
    NeverSettled(es) && forall i :: 0 <= i < |es| && LiveDelivery(es[i]) ==> Plain(app, book, es[i].world)
  }

  /** A run on its way down is not waiting for a forward step. */
  ghost predicate Decided(app: App, rec: Record) {
    rec.instance.status.Compensating? || rec.instance.status.CompensationFailed? ==> !RouteIn(app, rec).end.Pending?
  }

  lemma TickDecides(book: Book, app: App, d: Delivery, t: Tick, u: Tick)
    requires t.rec.instance.status.Running? && d.mode.Normal? && TickEnds(book, app, d, t, u)
    ensures Decided(app, u.rec)
  {
    hide TickKeeps, ChangesOnRoute, RouteOf, Discharged;
  }

  lemma ResumedDecides(book: Book, app: App, t: Tick, u: Tick)
    requires Decided(app, t.rec) && t.rec.instance.status.Compensating? && Resumed(book, app, t, u)
    ensures Decided(app, u.rec)
  {
    hide RouteOf;
    ResumedMain(book, app, t, u);
    RouteOfMain(app.main, t.rec, u.rec, []);
  }

  lemma BeganDecided(app: App, input: InitInput, s: Run, w: World)
    requires Unended(s) && (s.stored.Some? ==> Decided(app, s.stored.value))
    ensures Decided(app, Began(input, s, w).rec)
    ensures s.stored.Some? && s.stored.value.instance.status.Compensating?
            <==> Began(input, s, w).rec.instance.status.Compensating?
  {
    hide RouteOf;
    if s.stored.Some? {
      BeganMain(app, s, Began(input, s, w));
    }
  }

  lemma DeliverDecides(book: Book, app: App, input: InitInput, s: Run, w: World, d: Delivery)
    requires Obeys(app, book) && (s.stored.Some? ==> Sound(book, s.stored.value) && Decided(app, s.stored.value))
    requires Unended(s) && d.mode.Normal? && FaithfulEvent(app, input, s, Deliver(w, d))
    ensures GuardedEvent(app, input, s, Deliver(w, d))
    ensures var n := Next(app, input, s, Deliver(w, d));
            n.stored.Some? ==> Decided(app, n.stored.value)
  {
    hide Obeys, Sound, RouteOf, Execute, RunLocked, TickEnds, Resumed, FaithfulEvent, Decided;
    var t := Began(input, s, w);
    var u := RunLocked(w, app, d, s.stored, input, s.now, s.trace).tick;
    DeliverTick(app, input, s, w, d);
    BeganDecided(app, input, s, w);
    BeganSound(book, app, input, s, w);
    if s.stored.Some? && s.stored.value.instance.status.Compensating? {
      BeganMain(app, s, t);
      DecidedGuards(app, d, s.stored.value);
      if u != t {
        ExecuteResumes(book, w, app, d, t);
        ResumedDecides(book, app, t, u);
      }
    } else {
      DeliverEnds(book, app, input, s, w, d);
      if u != t {
        TickDecides(book, app, d, t, u);
      }
    }
  }

  lemma DecidedGuards(app: App, d: Delivery, rec: Record)
    requires Decided(app, rec) && rec.instance.status.Compensating?
    ensures Guard(app, d, rec)
  {
  }

  lemma NextDecides(book: Book, app: App, input: InitInput, s: Run, e: Event)
    requires Obeys(app, book) && (s.stored.Some? ==> Sound(book, s.stored.value) && Decided(app, s.stored.value))
    requires (e.Deliver? ==> LiveDelivery(e)) && FaithfulEvent(app, input, s, e)
    ensures GuardedEvent(app, input, s, e)
    ensures var n := Next(app, input, s, e);
            n.stored.Some? ==> Decided(app, n.stored.value)
  {
    hide Obeys, Sound, RouteOf, RunLocked, FaithfulEvent;
    match e
    case Deliver(w, d) =>
      if Unended(s) {
        DeliverDecides(book, app, input, s, w, d);
      } else {
        DeliverEnded(app, input, s, w, d);
      }
    case RetryCompensation(n) =>
      if s.stored.Some? {
        RouteOfMain(app.main, s.stored.value, RetryComp(s.stored.value, n, s.now), []);
      }
    case RetryRun(_) =>
    case CancelByOperator =>
    case Wait(_) =>
  }

  /** A history without settlements needs no guard: every state it reaches meets it. */
  lemma {:induction false} LiveRunsAreGuarded(book: Book, app: App, input: InitInput, s: Run, es: seq<Event>)
    requires Obeys(app, book) && (s.stored.Some? ==> Sound(book, s.stored.value) && Decided(app, s.stored.value))
    requires NeverSettled(es) && Faithful(app, input, s, es)
    ensures Guarded(app, input, s, es)
    ensures var n := RunAll(app, input, s, es);
            n.stored.Some? ==> Decided(app, n.stored.value)
    decreases |es|
  {
    hide Obeys, Sound, Next, FaithfulEvent, GuardedEvent, Decided;
    if es != [] {
      NextDecides(book, app, input, s, es[0]);
      NextSound(book, app, input, s, es[0]);
      LiveRunsAreGuarded(book, app, input, Next(app, input, s, es[0]), es[1..]);
    }
  }

  /** The state such a history reaches, and what may follow. */
  lemma LiveReach(book: Book, app: App, input: InitInput, es: seq<Event>, more: seq<Event>)
    requires Obeys(app, book) && PlainLive(app, book, es) && PlainLive(app, book, more)
    ensures var s := RunAll(app, input, FRESH, es);
            && (s.stored.Some? ==> Sound(book, s.stored.value) && Committed(app, s.stored.value))
            && Guarded(app, input, FRESH, es) && Guarded(app, input, s, more)
  {
    hide Obeys, Sound, RunAll, Guarded, Faithful, Plain, Committed;
    var s := RunAll(app, input, FRESH, es);
    PlainIsFaithful(book, app, input, FRESH, es);
    LiveRunsAreGuarded(book, app, input, FRESH, es);
    AlwaysSound(book, app, input, FRESH, es);
    AlwaysCommitted(book, app, input, FRESH, es);
    PlainIsFaithful(book, app, input, s, more);
    LiveRunsAreGuarded(book, app, input, s, more);
  }

  /** One trigger for everyone, from scratch, with the condition on the events alone. */
  lemma OneTriggerLive(book: Book, app: App, input: InitInput, es: seq<Event>)
    requires Obeys(app, book) && PlainLive(app, book, es) && forall i :: 0 <= i < |es| ==> !es[i].RetryRun?
    ensures Story(app, RunAll(app, input, FRESH, es), 0)
  {
    hide Obeys, Sound, RunAll, Guarded, Plain, Committed;
    LiveReach(book, app, input, es, []);
    OneTrigger(book, app, input, FRESH, es, 0);
  }

  /** Irreversible failure, from any state reached from scratch, with the condition on the events alone. */
  lemma IrreversibleLive(book: Book, app: App, input: InitInput, es: seq<Event>, more: seq<Event>)
    requires Obeys(app, book) && PlainLive(app, book, es) && PlainLive(app, book, more)
    requires forall i :: 0 <= i < |more| ==> !more[i].RetryRun?
    ensures var s := RunAll(app, input, FRESH, es);
            s.stored.Some? && Doomed(s.stored.value.instance.status) ==> Descends(s, RunAll(app, input, s, more))
  {
    hide Obeys, Sound, RunAll, Guarded, Plain, Committed, Descends;
    var s := RunAll(app, input, FRESH, es);
    LiveReach(book, app, input, es, more);
    if s.stored.Some? && Doomed(s.stored.value.instance.status) {
      IrreversibleFailure(book, app, input, s, more);
    }
  }
}
