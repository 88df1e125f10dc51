/** What every store write of a tick keeps, whichever way the tick ends. */
module Journal {
  import opened Values
  import opened Phases
  import opened Records
  import opened Processors
  import opened Steps

  /**
   * What a key names, and whether its call looks at a caught error. A program that obeys a book never
   * uses one key for two different things.
   */
  datatype Use = AsSleep | AsStep(options: StepOptions, looks: bool)

  type Book = Key -> Use

  ghost predicate MoveObeys(m: Move, phase: Phase, book: Book) {
    match m
    case Call(key, o, recovery) => book(Key(phase, key)) == AsStep(o, recovery.Reads?)
    case Pause(key, _) => book(Key(phase, key)) == AsSleep
    case _ => true
  }

  ghost predicate ProcessorObeys(p: Processor, phase: Phase, book: Book) {
    forall seen :: MoveObeys(p.At(seen), phase, book)
  }

  ghost predicate Obeys(app: App, book: Book) {
    && ProcessorObeys(app.main, Main, book)
    && (app.onFailure.Some? ==> forall info :: ProcessorObeys(app.onFailure.value(info), Failure, book))
  }

  predicate NamesSleep(book: Book, k: Key) {
    k.phase != Compensation && book(k).AsSleep?
  }

  ghost predicate StepSound(book: Book, k: Key, s: Step, counter: nat) {
    && 1 <= s.seqNo <= counter
    && s.attempts >= 1
    && (s.kind.Sleep? <==> NamesSleep(book, k))
    && (s.kind.Sleep? ==> !s.status.StepFailed? && s.nextRunAt.Some?)
    && Clone(s.result) == s.result
  }

  /** Sequence numbers are distinct and within the counter, and every record fits its key. */
  ghost predicate Sound(book: Book, rec: Record) {
    && (forall k :: k in rec.steps ==> StepSound(book, k, rec.steps[k], rec.Counter()))
    && (forall k, j :: k in rec.steps && j in rec.steps && k != j ==> rec.steps[k].seqNo != rec.steps[j].seqNo)
  }

  /**
   * A step record only moves forward: its number is fixed, its attempts never drop, it changes only
   * while running and once its scheduled time has come, and a pending sleep is never rescheduled or cut short.
   */
  ghost predicate StepMoves(x: Step, y: Step, now: nat) {
    && y.kind == x.kind && y.seqNo == x.seqNo
    && x.attempts <= y.attempts
    && (y != x ==> x.status.StepRunning? && (x.nextRunAt.Some? ==> x.nextRunAt.value <= now))
    && (x.kind.Sleep? && y.status.StepRunning? ==> y == x)
    && (x.kind.Sleep? && y != x ==> Elapsed(x, y, now))
  }

  /**
   * A pending sleep `x` was completed as `y`, at a clock value no earlier than its wake time and no later
   * than `now`.
   */
  predicate Elapsed(x: Step, y: Step, now: nat) {
    && y.status.StepCompleted? && x.nextRunAt.Some? && y.completedAt.Some?
    && x.nextRunAt.value <= y.completedAt.value <= now
  }

  ghost predicate Advances(a: Record, b: Record, now: nat) {
    && a.Counter() <= b.Counter()
    && (forall k :: k in a.steps ==> k in b.steps && StepMoves(a.steps[k], b.steps[k], now))
    && (forall k :: k in b.steps && k !in a.steps ==> a.Counter() < b.steps[k].seqNo)
  }

  /** An act between two states: a body starts only on an unsettled step, when due, under a new attempt number. */
  ghost predicate ActFits(a: Tick, b: Tick, act: Act) {
    match act
    case Started(k, n, at, _) =>
      && a.now <= at && 1 <= n
      && (k in a.rec.steps ==>
            && a.rec.steps[k].status.StepRunning? && a.rec.steps[k].attempts < n
            && (a.rec.steps[k].nextRunAt.Some? ==> a.rec.steps[k].nextRunAt.value <= at))
      && k in b.rec.steps && n <= b.rec.steps[k].attempts
    case Retried(_, n, limit) => limit.Some? ==> n < limit.value
    case Ended(k, _) => k in b.rec.steps && !b.rec.steps[k].status.StepRunning?
    case Handled(_) => true
  }

  /** Of two acts in this order: a later start has a later number, and a settled step never starts again. */
  predicate Increasing(x: Act, y: Act) {
    y.Started? && !x.Handled? && x.key == y.key ==> !x.Ended? && (x.Started? ==> x.attempt < y.attempt)
  }

  ghost predicate Follows(a: Tick, b: Tick) {
    && a.now <= b.now
    && Advances(a.rec, b.rec, b.now)
    && a.trace <= b.trace
    && (forall i :: |a.trace| <= i < |b.trace| ==> ActFits(a, b, b.trace[i]))
    && (forall i, j :: |a.trace| <= i < j < |b.trace| ==> Increasing(b.trace[i], b.trace[j]))
  }

  lemma AdvancesTrans(a: Record, b: Record, c: Record, now: nat, later: nat)
    requires Advances(a, b, now) && Advances(b, c, later) && now <= later
    ensures Advances(a, c, later)
  {
    forall k | k in a.steps ensures k in c.steps && StepMoves(a.steps[k], c.steps[k], later) {
      assert StepMoves(a.steps[k], b.steps[k], now) && StepMoves(b.steps[k], c.steps[k], later);
    }
  }

  lemma FollowsTrans(a: Tick, b: Tick, c: Tick)
    requires Follows(a, b) && Follows(b, c)
    ensures Follows(a, c)
  {
    AdvancesTrans(a.rec, b.rec, c.rec, b.now, c.now);
    forall i | |a.trace| <= i < |c.trace| ensures ActFits(a, c, c.trace[i]) {
      var act := c.trace[i];
      if i < |b.trace| {
        assert act == b.trace[i] && ActFits(a, b, act);
        if act.Started? || act.Ended? {
          assert StepMoves(b.rec.steps[act.key], c.rec.steps[act.key], c.now);
        }
      } else {
        assert ActFits(b, c, act);
        if act.Started? && act.key in a.rec.steps {
          assert StepMoves(a.rec.steps[act.key], b.rec.steps[act.key], b.now);
        }
      }
    }
    forall i, j | |a.trace| <= i < j < |c.trace| ensures Increasing(c.trace[i], c.trace[j]) {
      if j < |b.trace| {
        assert c.trace[i] == b.trace[i] && c.trace[j] == b.trace[j];
      } else if i < |b.trace| {
        assert c.trace[i] == b.trace[i] && ActFits(a, b, b.trace[i]) && ActFits(b, c, c.trace[j]);
      }
    }
  }

  lemma FollowsRefl(t: Tick, u: Tick)
    requires u.rec == t.rec && u.trace == t.trace && t.now <= u.now
    ensures Follows(t, u)
  {
  }

  predicate SameRun(a: Instance, b: Instance) {
    b == a.(stepSeq := b.stepSeq, updatedAt := b.updatedAt)
  }

  /** Nothing changed but the record of one step (and the counter). */
  ghost predicate OnlyAt(a: Record, b: Record, key: Key) {
    && SameRun(a.instance, b.instance)
    && a.terminalAt == b.terminalAt
    && (forall k :: k != key ==> (k in a.steps <==> k in b.steps))
    && (forall k :: k != key && k in a.steps && k in b.steps ==> a.steps[k] == b.steps[k])
  }

  /** A stretch of a tick spent on one step. */
  ghost predicate Touches(book: Book, a: Tick, b: Tick, key: Key) {
    && Follows(a, b)
    && OnlyAt(a.rec, b.rec, key)
    && Sound(book, b.rec)
    && b.phase == a.phase
  }

  lemma TouchesTrans(book: Book, a: Tick, b: Tick, c: Tick, key: Key)
    requires Touches(book, a, b, key) && Touches(book, b, c, key)
    ensures Touches(book, a, c, key)
  {
    FollowsTrans(a, b, c);
  }

  // -- Single writes -----------------------------------------------------------

  /** Creating the record of a step. */
  lemma CreateTouches(book: Book, t: Tick, u: Tick, key: Key, kind: StepKind, due: Option<nat>)
    requires Sound(book, t.rec) && key !in t.rec.steps && !t.rec.instance.status.Cancelled?
    requires kind.Sleep? <==> NamesSleep(book, key)
    requires kind.Sleep? ==> due.Some?
    requires u.rec == t.rec.BeginStep(key, kind, t.now, due).0
    requires u.trace == t.trace && t.now <= u.now && u.phase == t.phase
    ensures Touches(book, t, u, key)
  {
    var counter := t.rec.Counter();
    assert u.rec.Counter() == counter + 1;
    forall k | k in u.rec.steps ensures StepSound(book, k, u.rec.steps[k], counter + 1) {
      if k != key {
        assert StepSound(book, k, t.rec.steps[k], counter);
      }
    }
    forall k, j | k in u.rec.steps && j in u.rec.steps && k != j
      ensures u.rec.steps[k].seqNo != u.rec.steps[j].seqNo
    {
      if k != key { assert StepSound(book, k, t.rec.steps[k], counter); }
      if j != key { assert StepSound(book, j, t.rec.steps[j], counter); }
    }
  }

  /** The act that goes with overwriting a record: a retry within its limit, or the step's end. */
  predicate Closes(acts: seq<Act>, key: Key, step: Step) {
    acts == []
    || (|acts| == 1 && acts[0].Retried? && (acts[0].limit.Some? ==> acts[0].attempt < acts[0].limit.value))
    || (|acts| == 1 && acts[0].Ended? && acts[0].key == key && !step.status.StepRunning?)
  }

  /** Overwriting the record of a running step, no earlier than it is due. */
  lemma OverwriteTouches(book: Book, t: Tick, u: Tick, key: Key, step: Step, acts: seq<Act>)
    requires Sound(book, t.rec) && key in t.rec.steps
    requires t.rec.steps[key].status.StepRunning?
    requires t.rec.steps[key].nextRunAt.Some? ==> t.rec.steps[key].nextRunAt.value <= t.now
    requires step.seqNo == t.rec.steps[key].seqNo && t.rec.steps[key].attempts <= step.attempts
    requires step.kind == t.rec.steps[key].kind && Clone(step.result) == step.result
    requires step.kind.Sleep? ==> step.nextRunAt.Some? && Elapsed(t.rec.steps[key], step, t.now)
    requires u.rec == t.rec.(steps := t.rec.steps[key := step])
    requires u.trace == t.trace + acts && Closes(acts, key, step) && t.now <= u.now && u.phase == t.phase
    ensures Touches(book, t, u, key)
  {
    hide Clone;
    var counter := t.rec.Counter();
    forall k | k in u.rec.steps ensures StepSound(book, k, u.rec.steps[k], counter) {
      assert StepSound(book, k, t.rec.steps[k], counter);
    }
    assert StepMoves(t.rec.steps[key], step, u.now);
  }
}
