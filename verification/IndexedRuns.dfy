/** Runs of the engine as a store sees them: which of their endings keep the index in step. */
module IndexedRuns {
  import opened Values
  import opened Phases
  import opened Records
  import opened Processors
  import opened Steps
  import opened Ticks
  import opened Journal
  import opened Runs
  import opened Guarantees
  import Indexes

  /** Only a completed run has an output. */
  predicate OutputOnlyCompleted(s: Run) {
    s.stored.Some? && !s.stored.value.instance.status.Completed? ==> s.stored.value.instance.output.Undefined?
  }

  lemma KeptOutput(book: Book, t: Tick, u: Tick)
    requires TickKeeps(book, t, u) && t.rec.instance.output.Undefined?
    ensures !u.rec.instance.status.Completed? ==> u.rec.instance.output.Undefined?
  {
  }

  lemma NextOutput(book: Book, app: App, input: InitInput, s: Run, e: Event)
    requires Obeys(app, book) && (s.stored.Some? ==> Sound(book, s.stored.value)) && OutputOnlyCompleted(s)
    ensures OutputOnlyCompleted(Next(app, input, s, e))
  {
    hide Obeys, Sound, RunLocked, Began, TickKeeps;
    if e.Deliver? {
      if Skipped(s, e.delivery) {
        SkippedStays(app, input, s, e.world, e.delivery);
      } else if !Unended(s) {
        DeliverEnded(app, input, s, e.world, e.delivery);
      } else {
        DeliverTick(app, input, s, e.world, e.delivery);
        DeliverKeeps(book, app, input, s, e.world, e.delivery);
        BeganSound(book, app, input, s, e.world);
        var t := Began(input, s, e.world);
        var u := RunLocked(e.world, app, e.delivery, s.stored, input, s.now, s.trace).tick;
        if u != t {
          KeptOutput(book, t, u);
        }
      }
    }
  }

  lemma {:induction false} AlwaysNoOutput(book: Book, app: App, input: InitInput, s: Run, es: seq<Event>)
    requires Obeys(app, book) && (s.stored.Some? ==> Sound(book, s.stored.value)) && OutputOnlyCompleted(s)
    ensures OutputOnlyCompleted(RunAll(app, input, s, es))
    decreases |es|
  {
    hide Obeys, Sound, Next, OutputOnlyCompleted;
    if es != [] {
      NextOutput(book, app, input, s, es[0]);
      NextSound(book, app, input, s, es[0]);
      AlwaysNoOutput(book, app, input, Next(app, input, s, es[0]), es[1..]);
    }
  }

  /**
   * In every state a run can reach, ending it keeps both forms of the store in step if it has not ended;
   * and an operator's cancel does exactly when the run has not failed.
   */
  lemma EndingsAllowed(book: Book, app: App, input: InitInput, es: seq<Event>, m: map<string, Record>, id: string,
                       now: nat)
    requires Obeys(app, book)
    requires var s := RunAll(app, input, FRESH, es);
             s.stored.Some? && id in m && m[id] == s.stored.value
    ensures var status := m[id].instance.status;
            && (!status.Terminal() ==> forall ending :: Indexes.Allowed(m, Indexes.End(id, ending), now))
            && (!status.Completed? && !status.Cancelled? ==>
                  (Indexes.Allowed(m, Indexes.End(id, Cancel), now)
                   <==> !status.Failed? && !status.CompensationFailed?))
  {
    hide Obeys, RunAll;
    AlwaysNoOutput(book, app, input, FRESH, es);
  }

  /** In every state a run can reach, the write that ends a sleep keeps both forms of the store in step. */
  lemma WakesAllowed(book: Book, app: App, input: InitInput, es: seq<Event>, m: map<string, Record>, id: string,
                     key: Key, now: nat, at: nat)
    requires Obeys(app, book)
    requires var s := RunAll(app, input, FRESH, es);
             s.stored.Some? && id in m && m[id] == s.stored.value
    ensures Indexes.Allowed(m, Indexes.UpdateStep(id, key, Waking(at)), now)
    ensures m[id].UpdateStep(key, Waking(at)) == m[id].WakeStep(key, at)
  {
    hide Obeys, RunAll, Clone;
    WakesByPatch(m[id], key, at);
    AlwaysSound(book, app, input, FRESH, es);
    if key in m[id].steps {
      assert StepSound(book, key, m[id].steps[key], m[id].Counter());
    }
  }

  predicate ByOperator(e: Event) {
    e.RetryRun? || e.RetryCompensation? || e.CancelByOperator?
  }

  /**
   * An ended run stays as it is: until an operator acts, no number of deliveries, live or post-mortem,
   * changes its record or starts a body.
   */
  lemma {:induction false} EndedStays(app: App, input: InitInput, s: Run, es: seq<Event>)
    requires s.stored.Some? && s.stored.value.instance.status.Terminal()
    requires forall i :: 0 <= i < |es| ==> !ByOperator(es[i])
    ensures var n := RunAll(app, input, s, es);
            n.stored == s.stored && n.trace == s.trace
    decreases |es|
  {
    hide RunLocked;
    if es != [] {
      if es[0].Deliver? {
        DeliverEnded(app, input, s, es[0].world, es[0].delivery);
      }
      EndedStays(app, input, Next(app, input, s, es[0]), es[1..]);
    }
  }
}
