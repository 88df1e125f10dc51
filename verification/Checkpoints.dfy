/** Settled steps stay settled, sleeps are not cut short, and attempts are counted. */
module Checkpoints {
  import opened Values
  import opened Phases
  import opened Records
  import opened Processors
  import opened Steps
  import opened Ticks
  import opened Journal
  import opened Runs
  import opened Guarantees

  /** A run seen as the tick it would open; one that does not exist yet has no steps. */
  function AsTick(input: InitInput, s: Run): Tick {
    Opening(if s.stored.Some? then s.stored.value else BeginTick(None, input, s.now), s.now, s.trace)
  }

  predicate RemovesSteps(e: Event) {
    e.RetryRun? || e.RetryCompensation?
  }

  /** Any event but the two retries is a stretch of forward motion. */
  lemma NextFollows(book: Book, app: App, input: InitInput, s: Run, e: Event)
    requires Obeys(app, book) && (s.stored.Some? ==> Sound(book, s.stored.value))
    requires !RemovesSteps(e)
    ensures Follows(AsTick(input, s), AsTick(input, Next(app, input, s, e)))
  {
    hide Obeys, RunLocked, TickKeeps, Sound, Execute;
    match e
    case Deliver(w, d) =>
      if Skipped(s, d) {
        SkippedStays(app, input, s, w, d);
      } else if !Unended(s) {
        DeliverEnded(app, input, s, w, d);
      } else {
        DeliverTick(app, input, s, w, d);
        DeliverKeeps(book, app, input, s, w, d);
        BeganSound(book, app, input, s, w);
        var t := Began(input, s, w);
        var u := RunLocked(w, app, d, s.stored, input, s.now, s.trace).tick;
        assert Follows(AsTick(input, s), t);
        TickFollows(book, t, u);
        FollowsTrans(AsTick(input, s), t, u);
        FollowsSame(AsTick(input, s), u, AsTick(input, Next(app, input, s, e)));
      }
    case CancelByOperator =>
    case Wait(_) =>
  }

  lemma TickFollows(book: Book, t: Tick, u: Tick)
    requires u == t || TickKeeps(book, t, u)
    ensures Follows(t, u)
  {
    if u == t {
      FollowsRefl(t, u);
    }
  }

  lemma FollowsSame(a: Tick, b: Tick, c: Tick)
    requires Follows(a, b) && c.rec == b.rec && c.now == b.now && c.trace == b.trace
    ensures Follows(a, c)
  {
    FollowsRefl(b, c);
    FollowsTrans(a, b, c);
  }

  lemma {:induction false} RunFollows(book: Book, app: App, input: InitInput, s: Run, es: seq<Event>)
    requires Obeys(app, book) && (s.stored.Some? ==> Sound(book, s.stored.value))
    requires forall i :: 0 <= i < |es| ==> !RemovesSteps(es[i])
    ensures Follows(AsTick(input, s), AsTick(input, RunAll(app, input, s, es)))
    decreases |es|
  {
    hide Obeys, Sound, Next, Follows;
    if es == [] {
      FollowsRefl(AsTick(input, s), AsTick(input, s));
    } else {
      var n := Next(app, input, s, es[0]);
      NextFollows(book, app, input, s, es[0]);
      NextSound(book, app, input, s, es[0]);
      RunFollows(book, app, input, n, es[1..]);
      FollowsTrans(AsTick(input, s), AsTick(input, n), AsTick(input, RunAll(app, input, n, es[1..])));
    }
  }

  // -- Settled for ever --------------------------------------------------------------------

  /** From `s` on, the completed record of `k` is untouched and its body was never started again. */
  ghost predicate Frozen(s: Run, n: Run, k: Key)
    requires s.stored.Some? && k in s.stored.value.steps
  {
    && s.trace <= n.trace
    && n.stored.Some? && k in n.stored.value.steps && n.stored.value.steps[k] == s.stored.value.steps[k]
    && (forall i :: |s.trace| <= i < |n.trace| ==> !(n.trace[i].Started? && n.trace[i].key == k))
  }

  lemma NextFreezes(book: Book, app: App, input: InitInput, s: Run, e: Event, k: Key)
    requires Obeys(app, book) && s.stored.Some? && Sound(book, s.stored.value)
    requires s.stored.value.Has(k, StepCompleted)
    ensures Frozen(s, Next(app, input, s, e), k)
  {
    hide Obeys, Sound, RunLocked;
    if RemovesSteps(e) {
    } else {
      NextFollows(book, app, input, s, e);
      var n := Next(app, input, s, e);
      assert n.stored.Some?;
      var a, b := AsTick(input, s), AsTick(input, n);
      assert StepMoves(a.rec.steps[k], b.rec.steps[k], b.now);
      forall i | |s.trace| <= i < |n.trace| ensures !(n.trace[i].Started? && n.trace[i].key == k) {
        assert ActFits(a, b, b.trace[i]);
      }
    }
  }

  /**
   * A completed step is final: no later delivery, settlement, `retry` or `retryCompensation` changes
   * its record or starts its body again.
   */
  lemma {:induction false} CompletedForEver(book: Book, app: App, input: InitInput, s: Run, es: seq<Event>, k: Key)
    requires Obeys(app, book) && s.stored.Some? && Sound(book, s.stored.value)
    requires s.stored.value.Has(k, StepCompleted)
    ensures Frozen(s, RunAll(app, input, s, es), k)
    decreases |es|
  {
    hide Obeys, Sound, Next;
    if es != [] {
      var n := Next(app, input, s, es[0]);
      NextFreezes(book, app, input, s, es[0], k);
      NextSound(book, app, input, s, es[0]);
      CompletedForEver(book, app, input, n, es[1..], k);
    }
  }

  /** Step numbers are distinct and within the counter in every reachable state, retries included. */
  lemma NumbersDistinct(book: Book, app: App, input: InitInput, es: seq<Event>)
    requires Obeys(app, book)
    ensures var n := RunAll(app, input, FRESH, es);
            n.stored.Some? ==>
              var steps := n.stored.value.steps;
              && (forall k :: k in steps ==> 1 <= steps[k].seqNo <= n.stored.value.Counter())
              && (forall j, k :: j in steps && k in steps && j != k ==> steps[j].seqNo != steps[k].seqNo)
  {
    hide RunAll, Obeys;
    AlwaysSound(book, app, input, FRESH, es);
    var n := RunAll(app, input, FRESH, es);
    if n.stored.Some? {
      var rec := n.stored.value;
      assert forall k :: k in rec.steps ==> StepSound(book, k, rec.steps[k], rec.Counter());
    }
  }

  // -- Waiting -----------------------------------------------------------------------------

  /** A sleep pending in `s` is still pending under the same wake time, or was completed at or after it. */
  ghost predicate SleptEnough(s: Run, n: Run, k: Key)
    requires s.stored.Some? && k in s.stored.value.steps
  {
    && s.now <= n.now
    && n.stored.Some? && k in n.stored.value.steps
    && var x, y := s.stored.value.steps[k], n.stored.value.steps[k];
       y == x || Elapsed(x, y, n.now)
  }

  lemma NextSleeps(book: Book, app: App, input: InitInput, s: Run, e: Event, k: Key)
    requires Obeys(app, book) && s.stored.Some? && Sound(book, s.stored.value)
    requires s.stored.value.Has(k, StepRunning) && s.stored.value.steps[k].kind.Sleep?
    ensures SleptEnough(s, Next(app, input, s, e), k)
  {
    hide Obeys, RunLocked;
    assert StepSound(book, k, s.stored.value.steps[k], s.stored.value.Counter());
    if !RemovesSteps(e) {
      NextFollows(book, app, input, s, e);
      NextSound(book, app, input, s, e);
      var n := Next(app, input, s, e);
      assert n.stored.Some?;
      assert StepMoves(s.stored.value.steps[k], n.stored.value.steps[k], n.now);
      assert StepSound(book, k, n.stored.value.steps[k], n.stored.value.Counter());
    }
  }

  lemma {:induction false} TimeGoesOn(book: Book, app: App, input: InitInput, s: Run, es: seq<Event>)
    requires Obeys(app, book) && (s.stored.Some? ==> Sound(book, s.stored.value))
    ensures s.now <= RunAll(app, input, s, es).now
    decreases |es|
  {
    hide Obeys, Sound, RunLocked;
    if es != [] {
      if !RemovesSteps(es[0]) {
        NextFollows(book, app, input, s, es[0]);
      }
      NextSound(book, app, input, s, es[0]);
      TimeGoesOn(book, app, input, Next(app, input, s, es[0]), es[1..]);
    }
  }

  /**
   * No early wake: over any deliveries, crashes and retries a sleep keeps its first wake time until the
   * clock reads it, and the time it is recorded completed at is no earlier.
   */
  lemma {:induction false} NoEarlyWake(book: Book, app: App, input: InitInput, s: Run, es: seq<Event>, k: Key)
    requires Obeys(app, book) && s.stored.Some? && Sound(book, s.stored.value)
    requires s.stored.value.Has(k, StepRunning) && s.stored.value.steps[k].kind.Sleep?
    ensures SleptEnough(s, RunAll(app, input, s, es), k)
    decreases |es|
  {
    hide Obeys, Sound, Next;
    if es != [] {
      var n := Next(app, input, s, es[0]);
      NextSleeps(book, app, input, s, es[0], k);
      NextSound(book, app, input, s, es[0]);
      if n.stored.value.steps[k] == s.stored.value.steps[k] {
        NoEarlyWake(book, app, input, n, es[1..], k);
      } else {
        CompletedForEver(book, app, input, n, es[1..], k);
        TimeGoesOn(book, app, input, n, es[1..]);
      }
    }
  }

  /** No attempt starts before the time its record was scheduled for. */
  lemma NoEarlyStart(book: Book, app: App, input: InitInput, s: Run, e: Event, i: nat)
    requires Obeys(app, book) && s.stored.Some? && Sound(book, s.stored.value)
    requires |s.trace| <= i < |Next(app, input, s, e).trace|
    ensures var act := Next(app, input, s, e).trace[i];
            act.Started? && act.key in s.stored.value.steps ==>
              var x := s.stored.value.steps[act.key];
              x.status.StepRunning? && x.attempts < act.attempt && (x.nextRunAt.Some? ==> x.nextRunAt.value <= act.at)
  {
    hide Obeys, Sound, RunLocked;
    if !RemovesSteps(e) {
      NextFollows(book, app, input, s, e);
      var n := Next(app, input, s, e);
      assert ActFits(AsTick(input, s), AsTick(input, n), n.trace[i]);
    }
  }
}
