/** What a checkpoint holds is what the body answered. */
module Results {
  import opened Values
  import opened Phases
  import opened Retries
  import opened Records
  import opened Processors
  import opened Steps
  import opened Ticks
  import opened Journal
  import opened StepCalls
  import opened Routes
  import opened Sagas
  import opened Failures
  import opened Runs
  import opened Guarantees
  import opened Compensating

  /** The record says what the body answered at the attempt on record. */
  predicate Answers(w: World, d: Delivery, k: Key, s: Step) {
    var b := w.body(k, s.attempts);
    match s.status
    case StepRunning => true
    case StepCompleted => b.Succeeds? && s.result == Clone(b.value) && s.error.None?
    case StepFailed =>
      match b
      case Fails(err, _) => s.error == Some(err)
      case RetryLater(_, reason) => s.error == Some(Err("RetryLaterError", reason))
      case NestedYield(_) => d.mode.Settle? && s.error == Some(NO_SUSPEND)
      case _ => false
  }

  predicate StartOf(act: Act, k: Key) {
    act.Started? && act.key == k
  }

  /** Of the acts that `b` has added to those of `a`, the last start of step `k` was under attempt `n`. */
  predicate LastStart(a: Tick, b: Tick, k: Key, n: nat) {
    a.trace <= b.trace
    && exists i :: |a.trace| <= i < |b.trace| && StartOf(b.trace[i], k) && b.trace[i].attempt == n
                   && forall j :: i < j < |b.trace| ==> !StartOf(b.trace[j], k)
  }

  /** If step `k` has settled in `b`, its last body start since `a` gave the answer on record. */
  predicate Earned(w: World, d: Delivery, a: Tick, b: Tick, k: Key) {
    k in b.rec.steps && !b.rec.steps[k].status.StepRunning? ==>
      Answers(w, d, k, b.rec.steps[k]) && LastStart(a, b, k, b.rec.steps[k].attempts)
  }

  lemma OneStart(a: Tick, b: Tick, start: Act, closing: seq<Act>)
    requires start.Started? && b.trace == a.trace + [start] + closing
    requires forall i :: 0 <= i < |closing| ==> Closing(closing[i])
    ensures LastStart(a, b, start.key, start.attempt)
  {
    var i := |a.trace|;
    assert b.trace[i] == start;
    forall j | i < j < |b.trace| ensures !StartOf(b.trace[j], start.key) {
      assert b.trace[j] == closing[j - i - 1];
    }
  }

  lemma LaterStart(a: Tick, b: Tick, c: Tick, k: Key, n: nat)
    requires a.trace <= b.trace && LastStart(b, c, k, n)
    ensures LastStart(a, c, k, n)
  {
  }

  // -- One step call -----------------------------------------------------------------------

  lemma FailStepAnswers(w: World, d: Delivery, t: Tick, key: string, a: Attempt, b: Body)
    requires b.Fails? || b.RetryLater?
    requires b == Thrown(d, w.body(Key(t.phase, key), a.attempts))
    ensures var u := FailStep(w, t, key, a, ErrorOf(b)).tick;
            var k := Key(t.phase, key);
            && k in u.rec.steps && u.rec.steps[k].status.StepFailed? && u.rec.steps[k].attempts == a.attempts
            && Answers(w, d, k, u.rec.steps[k])
    ensures var r := FailStep(w, t, key, a, ErrorOf(b)); r.Stop? ==> r.signal.Crash?
  {
  }

  lemma RecordRetryRuns(w: World, d: Delivery, t: Tick, key: string, a: Attempt, b: Body, delay: nat,
                        limit: Option<nat>)
    requires b.Fails? || b.RetryLater?
    ensures var r := RecordRetry(w, d, t, key, a, b, delay, limit);
            r.tick.rec.Has(Key(t.phase, key), StepRunning) && (r.Stop? ==> !r.signal.Raised?)
  {
  }

  /** The error a failing body makes its caller see. */
  predicate RaisedBy(d: Delivery, b: Body, key: string, n: nat, err: Err) {
    match b
    case Fails(e, _) => err == e
    case RetryLater(_, _) => err == Exhausted(key, n)
    case NestedYield(_) => d.mode.Settle? && err == NO_SUSPEND
    case _ => false
  }

  lemma ErrorAnswers(w: World, app: App, d: Delivery, t: Tick, key: string, o: StepOptions, a: Attempt)
    requires var b := Thrown(d, w.body(Key(t.phase, key), a.attempts)); b.Fails? || b.RetryLater?
    ensures var k := Key(t.phase, key);
            var r := HandleStepError(w, app, d, t, key, o, a, Thrown(d, w.body(k, a.attempts)));
            && k in r.tick.rec.steps
            && (r.tick.rec.Has(k, StepRunning)
                || (r.tick.rec.Has(k, StepFailed) && r.tick.rec.steps[k].attempts == a.attempts
                    && Answers(w, d, k, r.tick.rec.steps[k])))
            && (r.Go? ==> r.tick.rec.Has(k, StepRunning))
            && (r.Stop? && r.signal.Raised? ==>
                  r.tick.rec.Has(k, StepFailed) && RaisedBy(d, w.body(k, a.attempts), key, a.attempts, r.signal.err))
  {
    hide Policy, Limit, Delay, Exhausted, FailStep, RecordRetry, Answers;
    var b := Thrown(d, w.body(Key(t.phase, key), a.attempts));
    var limit := Limit(app, d, o, b.RetryLater?);
    FailStepAnswers(w, d, t, key, a, b);
    if !(b.Fails? && b.nonRetryable) && (limit.None? || a.attempts < limit.value) {
      var delay := if b.RetryLater? && b.delay.Some? then b.delay.value
                   else Retries.Delay(Policy(app, o), a.attempts, w.random(t.ops));
      RecordRetryRuns(w, d, t, key, a, b, delay, limit);
    }
  }

  lemma CheckpointAnswers(w: World, d: Delivery, t: Tick, k: Key, a: Attempt, value: Value)
    requires w.body(k, a.attempts) == Succeeds(value)
    ensures var u := Checkpoint(w, t, k, a, Clone(value)).tick;
            && u.rec.Has(k, StepCompleted) && u.rec.steps[k].attempts == a.attempts
            && u.rec.steps[k].result == Clone(value) && Answers(w, d, k, u.rec.steps[k])
            && u.trace == t.trace + [Ended(k, a.attempts)] && u.phase == t.phase
    ensures var r := Checkpoint(w, t, k, a, Clone(value)); r.Stop? ==> r.signal.Crash?
  {
    CloneIdempotent(value);
  }

  /** What one attempt leaves behind. */
  lemma AttemptEarns(w: World, app: App, d: Delivery, t: Tick, key: string, o: StepOptions, arg: Argument, a: Attempt)
    requires t.rec.Has(Key(t.phase, key), StepRunning)
    ensures var k := Key(t.phase, key);
            var r := RunAttempt(w, app, d, t, key, o, arg, a);
            && t.trace <= r.tick.trace && r.tick.phase == t.phase && LastStart(t, r.tick, k, a.attempts)
            && k in r.tick.rec.steps
            && (!r.tick.rec.Has(k, StepRunning) ==>
                  r.tick.rec.steps[k].attempts == a.attempts && Answers(w, d, k, r.tick.rec.steps[k]))
            && (r.Go? && r.value.None? ==> r.tick.rec.Has(k, StepRunning))
            && (r.Go? && r.value.Some? ==>
                  r.tick.rec.Has(k, StepCompleted) && r.value.value == r.tick.rec.steps[k].result)
            && (r.Stop? && r.signal.Raised? ==>
                  r.tick.rec.Has(k, StepFailed) && RaisedBy(d, w.body(k, a.attempts), key, a.attempts, r.signal.err))
  {
    hide Policy, HandleStepError, Checkpoint, LastStart, Answers, RaisedBy;
    var k := Key(t.phase, key);
    var r := RunAttempt(w, app, d, t, key, o, arg, a);
    var start := Started(k, a.attempts, t.now, arg);
    var p1 := Pass(w, t.(trace := t.trace + [start]));
    var b := Thrown(d, w.body(k, a.attempts));
    if p1.Stop? || b.NestedYield? || b.NestedCancel? {
      OneStart(t, r.tick, start, []);
    } else if b.Succeeds? {
      CheckpointAnswers(w, d, p1.tick, k, a, b.value);
      OneStart(t, r.tick, start, [Ended(k, a.attempts)]);
    } else {
      ErrorAnswers(w, app, d, p1.tick, key, o, a);
      ErrorActs(w, app, d, p1.tick, key, o, a, b);
      assert r.tick.trace[..|t.trace| + 1] == t.trace + [start];
      OneStart(t, r.tick, start, [r.tick.trace[|t.trace| + 1]]);
    }
  }

  /** What a step call that has started its body leaves behind, and hands its caller. */
  predicate BodyAnswered(w: World, d: Delivery, t: Tick, c: Eff<Value>, key: string) {
    var k := Key(t.phase, key);
    && t.trace <= c.tick.trace && Earned(w, d, t, c.tick, k)
    && (c.Go? ==> c.tick.rec.Has(k, StepCompleted) && c.value == c.tick.rec.steps[k].result)
    && (c.Stop? && c.signal.Raised? ==>
          c.tick.rec.Has(k, StepFailed)
          && var n := c.tick.rec.steps[k].attempts; RaisedBy(d, w.body(k, n), key, n, c.signal.err))
  }

  lemma {:induction false} LoopEarns(w: World, app: App, d: Delivery, t: Tick, key: string, o: StepOptions,
                                     arg: Argument, a: Attempt)
    requires t.rec.Has(Key(t.phase, key), StepRunning)
    ensures BodyAnswered(w, d, t, AttemptLoop(w, app, d, t, key, o, arg, a), key)
    decreases if a.attempts < Policy(app, o).attempts then Policy(app, o).attempts - a.attempts else 0
  {
    hide RunAttempt, Policy, LastStart, Answers, RaisedBy;
    AttemptEarns(w, app, d, t, key, o, arg, a);
    var r := RunAttempt(w, app, d, t, key, o, arg, a);
    if r.Go? && r.value.None? {
      LoopEarns(w, app, d, r.tick, key, o, arg, a.(attempts := a.attempts + 1));
      var u := AttemptLoop(w, app, d, t, key, o, arg, a).tick;
      EarnedSince(w, d, t, r.tick, u, Key(t.phase, key));
    }
  }

  lemma EarnedSince(w: World, d: Delivery, a: Tick, b: Tick, c: Tick, k: Key)
    requires a.trace <= b.trace && Earned(w, d, b, c, k)
    ensures Earned(w, d, a, c, k)
  {
    hide LastStart, Answers;
    if k in c.rec.steps && !c.rec.steps[k].status.StepRunning? {
      LaterStart(a, b, c, k, c.rec.steps[k].attempts);
    }
  }

  predicate Settled(rec: Record, k: Key) {
    k in rec.steps && !rec.steps[k].status.StepRunning?
  }

  /**
   * A step call that finds its step unsettled answers with what the body answers: the value it returns, and
   * the result it stores, is the JSON round trip of what the body returned at the last attempt it started; the
   * error it raises, and the one it stores, is that attempt's.
   */
  lemma StepAnswers(w: World, app: App, d: Delivery, t: Tick, key: string, o: StepOptions, arg: Argument)
    requires !Settled(t.rec, Key(t.phase, key))
    ensures var k := Key(t.phase, key);
            var c := ExecuteStep(w, app, d, t, key, o, arg);
            && Earned(w, d, t, c.tick, k)
            && (c.Go? ==>
                  && Settled(c.tick.rec, k)
                  && var n := c.tick.rec.steps[k].attempts;
                     && LastStart(t, c.tick, k, n) && w.body(k, n).Succeeds?
                     && c.value == c.tick.rec.steps[k].result == Clone(w.body(k, n).value))
            && (c.Stop? && c.signal.Raised? ==>
                  && Settled(c.tick.rec, k)
                  && var n := c.tick.rec.steps[k].attempts;
                     LastStart(t, c.tick, k, n) && RaisedBy(d, w.body(k, n), key, n, c.signal.err))
  {
    hide AttemptLoop, LastStart, RaisedBy;
    var begin := BeginOrReplay(w, d, t, key, o);
    if !SettlementReplay(d, t) && begin.Go? && begin.value.Live? {
      LoopEarns(w, app, d, begin.tick, key, o, arg, begin.value.attempt);
      EarnedSince(w, d, t, begin.tick, ExecuteStep(w, app, d, t, key, o, arg).tick, Key(t.phase, key));
    }
  }

  // -- Attempt numbers ---------------------------------------------------------------------

  /** Starts alternate with the acts that close them, and their attempts count up by one from `n`. */
  predicate CountsUp(a: Tick, b: Tick, n: nat) {
    a.trace <= b.trace
    && forall i :: |a.trace| <= i < |b.trace| && b.trace[i].Started? ==>
         b.trace[i].attempt == n + (i - |a.trace|) / 2
  }

  lemma AttemptCounts(w: World, app: App, d: Delivery, t: Tick, key: string, o: StepOptions, arg: Argument, a: Attempt)
    ensures var r := RunAttempt(w, app, d, t, key, o, arg, a);
            && CountsUp(t, r.tick, a.attempts) && |r.tick.trace| <= |t.trace| + 2
            && (r.Go? && r.value.None? ==> |r.tick.trace| == |t.trace| + 2)
  {
    hide Policy, HandleStepError, RunningStep;
    var k := Key(t.phase, key);
    var r := RunAttempt(w, app, d, t, key, o, arg, a);
    var start := Started(k, a.attempts, t.now, arg);
    var p1 := Pass(w, t.(trace := t.trace + [start]));
    var b := Thrown(d, w.body(k, a.attempts));
    if p1.Go? && (b.Fails? || b.RetryLater?) {
      ErrorActs(w, app, d, p1.tick, key, o, a, b);
      assert r.tick.trace[..|t.trace| + 1] == t.trace + [start];
    }
  }

  lemma CountsOn(a: Tick, b: Tick, c: Tick, n: nat)
    requires CountsUp(a, b, n) && CountsUp(b, c, n + 1) && |b.trace| == |a.trace| + 2
    ensures CountsUp(a, c, n)
  {
    forall i | |a.trace| <= i < |c.trace| && c.trace[i].Started?
      ensures c.trace[i].attempt == n + (i - |a.trace|) / 2
    {
      if i < |b.trace| {
        assert c.trace[i] == b.trace[i];
      }
    }
  }

  lemma {:induction false} LoopCounts(w: World, app: App, d: Delivery, t: Tick, key: string, o: StepOptions,
                                      arg: Argument, a: Attempt)
    ensures CountsUp(t, AttemptLoop(w, app, d, t, key, o, arg, a).tick, a.attempts)
    decreases if a.attempts < Policy(app, o).attempts then Policy(app, o).attempts - a.attempts else 0
  {
    hide RunAttempt, Policy, CountsUp;
    AttemptCounts(w, app, d, t, key, o, arg, a);
    var r := RunAttempt(w, app, d, t, key, o, arg, a);
    if r.Go? && r.value.None? {
      LoopCounts(w, app, d, r.tick, key, o, arg, a.(attempts := a.attempts + 1));
      CountsOn(t, r.tick, AttemptLoop(w, app, d, t, key, o, arg, a).tick, a.attempts);
    }
  }

  /** A step call takes up one attempt after another, from the one after the attempt on record. */
  lemma AttemptsInTurn(w: World, app: App, d: Delivery, t: Tick, key: string, o: StepOptions, arg: Argument)
    ensures var k := Key(t.phase, key);
            CountsUp(t, ExecuteStep(w, app, d, t, key, o, arg).tick,
                     if k in t.rec.steps then t.rec.steps[k].attempts + 1 else 1)
  {
    hide AttemptLoop;
    var begin := BeginOrReplay(w, d, t, key, o);
    if !SettlementReplay(d, t) && begin.Go? && begin.value.Live? {
      LoopCounts(w, app, d, begin.tick, key, o, arg, begin.value.attempt);
    }
  }

  // -- Times -------------------------------------------------------------------------------

  /** The step counts from `started`, and if it has settled, that was recorded between `from` and now. */
  predicate Timed(u: Tick, k: Key, started: nat, from: nat) {
    && k in u.rec.steps && u.rec.steps[k].startedAt == started
    && (u.rec.steps[k].status.StepCompleted? ==>
          u.rec.steps[k].completedAt.Some? && from <= u.rec.steps[k].completedAt.value <= u.now)
    && (u.rec.steps[k].status.StepFailed? ==>
          u.rec.steps[k].failedAt.Some? && from <= u.rec.steps[k].failedAt.value <= u.now)
  }

  lemma ErrorTimes(w: World, app: App, d: Delivery, t: Tick, key: string, o: StepOptions, a: Attempt, b: Body)
    requires b.Fails? || b.RetryLater?
    ensures var r := HandleStepError(w, app, d, t, key, o, a, b);
            && Timed(r.tick, Key(t.phase, key), a.startedAt, t.now) && t.now <= r.tick.now
            && (r.Go? ==> r.tick.rec.Has(Key(t.phase, key), StepRunning))
  {
    hide Policy, Limit, Delay, Exhausted, ErrorOf;
  }

  lemma AttemptTimes(w: World, app: App, d: Delivery, t: Tick, key: string, o: StepOptions, arg: Argument, a: Attempt)
    requires t.rec.Has(Key(t.phase, key), StepRunning) && t.rec.steps[Key(t.phase, key)].startedAt == a.startedAt
    ensures var k := Key(t.phase, key);
            var r := RunAttempt(w, app, d, t, key, o, arg, a);
            && Timed(r.tick, k, a.startedAt, t.now) && t.now <= r.tick.now && r.tick.phase == t.phase
            && (r.Go? && r.value.None? ==> r.tick.rec.Has(k, StepRunning))
  {
    hide Policy, HandleStepError;
    var p1 := Pass(w, t.(trace := t.trace + [Started(Key(t.phase, key), a.attempts, t.now, arg)]));
    var b := Thrown(d, w.body(Key(t.phase, key), a.attempts));
    if p1.Go? && (b.Fails? || b.RetryLater?) {
      ErrorTimes(w, app, d, p1.tick, key, o, a, b);
      ErrorActs(w, app, d, p1.tick, key, o, a, b);
    }
  }

  lemma {:induction false} LoopTimes(w: World, app: App, d: Delivery, t: Tick, key: string, o: StepOptions,
                                     arg: Argument, a: Attempt)
    requires t.rec.Has(Key(t.phase, key), StepRunning) && t.rec.steps[Key(t.phase, key)].startedAt == a.startedAt
    ensures Timed(AttemptLoop(w, app, d, t, key, o, arg, a).tick, Key(t.phase, key), a.startedAt, t.now)
    decreases if a.attempts < Policy(app, o).attempts then Policy(app, o).attempts - a.attempts else 0
  {
    hide RunAttempt, Policy;
    AttemptTimes(w, app, d, t, key, o, arg, a);
    var r := RunAttempt(w, app, d, t, key, o, arg, a);
    if r.Go? && r.value.None? {
      LoopTimes(w, app, d, r.tick, key, o, arg, a.(attempts := a.attempts + 1));
    }
  }

  /**
   * A step counts from its first call, through all its attempts and deliveries; when it settles, that is
   * recorded at the time.
   */
  lemma StepTimes(w: World, app: App, d: Delivery, t: Tick, key: string, o: StepOptions, arg: Argument)
    requires !Settled(t.rec, Key(t.phase, key)) && !t.rec.instance.status.Cancelled? && !SettlementReplay(d, t)
    ensures var k := Key(t.phase, key);
            Timed(ExecuteStep(w, app, d, t, key, o, arg).tick, k,
                  if k in t.rec.steps then t.rec.steps[k].startedAt else t.now, t.now)
  {
    hide AttemptLoop;
    var begin := BeginOrReplay(w, d, t, key, o);
    if begin.Go? {
      LoopTimes(w, app, d, begin.tick, key, o, arg, begin.value.attempt);
    }
  }

  // -- A whole delivery --------------------------------------------------------------------

  /** Every record of a step that settled between `a` and `b` says what a body started between them answered. */
  ghost predicate Honours(w: World, d: Delivery, a: Tick, b: Tick) {
    && a.trace <= b.trace
    && forall k :: Settled(b.rec, k) && b.rec.steps[k].kind.Work?
                   && !(k in a.rec.steps && a.rec.steps[k] == b.rec.steps[k]) ==>
         Answers(w, d, k, b.rec.steps[k]) && StartedIn(a, b, k, b.rec.steps[k].attempts)
  }

  predicate StartedIn(a: Tick, b: Tick, k: Key, n: nat) {
    exists i :: |a.trace| <= i < |b.trace| && StartOf(b.trace[i], k) && b.trace[i].attempt == n
  }

  lemma StartedMore(a: Tick, b: Tick, c: Tick, k: Key, n: nat)
    requires a.trace <= b.trace <= c.trace && (StartedIn(a, b, k, n) || StartedIn(b, c, k, n))
    ensures StartedIn(a, c, k, n)
  {
    if StartedIn(a, b, k, n) {
      var i :| |a.trace| <= i < |b.trace| && StartOf(b.trace[i], k) && b.trace[i].attempt == n;
      assert c.trace[i] == b.trace[i];
    }
  }

  lemma HonoursTrans(w: World, d: Delivery, a: Tick, b: Tick, c: Tick)
    requires Honours(w, d, a, b) && Honours(w, d, b, c)
    ensures Honours(w, d, a, c)
  {
    hide Answers, StartedIn;
    forall k | Settled(c.rec, k) && c.rec.steps[k].kind.Work?
               && !(k in a.rec.steps && a.rec.steps[k] == c.rec.steps[k])
      ensures Answers(w, d, k, c.rec.steps[k]) && StartedIn(a, c, k, c.rec.steps[k].attempts)
    {
      StartedEither(w, d, a, b, c, k);
    }
  }

  lemma StartedEither(w: World, d: Delivery, a: Tick, b: Tick, c: Tick, k: Key)
    requires Honours(w, d, a, b) && Honours(w, d, b, c)
    requires Settled(c.rec, k) && c.rec.steps[k].kind.Work?
             && !(k in a.rec.steps && a.rec.steps[k] == c.rec.steps[k])
    ensures Answers(w, d, k, c.rec.steps[k]) && StartedIn(a, c, k, c.rec.steps[k].attempts)
  {
    hide Answers, StartedIn;
    StartedMore(a, b, c, k, c.rec.steps[k].attempts);
  }

  /** Writes that leave the step records alone. */
  lemma HonoursSame(w: World, d: Delivery, a: Tick, b: Tick)
    requires b.rec.steps == a.rec.steps && a.trace <= b.trace
    ensures Honours(w, d, a, b)
  {
  }

  lemma StepHonours(book: Book, w: World, app: App, d: Delivery, t: Tick, key: string, o: StepOptions, arg: Argument)
    requires Sound(book, t.rec) && !NamesSleep(book, Key(t.phase, key))
    ensures Honours(w, d, t, ExecuteStep(w, app, d, t, key, o, arg).tick)
  {
    hide ExecuteStep, Follows, Sound, StepEnds, Answers, LastStart, RaisedBy;
    var k, u := Key(t.phase, key), ExecuteStep(w, app, d, t, key, o, arg).tick;
    StepSpans(book, w, app, d, t, key, o, arg);
    SpansSound(book, t, u);
    if Settled(t.rec, k) {
      SpansKeeps(book, t, u);
    } else {
      StepAnswers(w, app, d, t, key, o, arg);
      if Settled(u.rec, k) {
        StartedLast(t, u, k, u.rec.steps[k].attempts);
      }
    }
  }

  lemma StartedLast(a: Tick, b: Tick, k: Key, n: nat)
    requires LastStart(a, b, k, n)
    ensures StartedIn(a, b, k, n)
  {
  }

  lemma SleepHonours(book: Book, w: World, d: Delivery, t: Tick, key: string, delay: int)
    requires Sound(book, t.rec) && NamesSleep(book, Key(t.phase, key))
    ensures Honours(w, d, t, SleepFor(w, d, t, key, delay).tick)
  {
    hide SleepFor, Follows, SleepEnds, Answers, StartedIn;
    var k, u := Key(t.phase, key), SleepFor(w, d, t, key, delay).tick;
    SleepSpans(book, w, d, t, key, delay);
    SpansSound(book, t, u);
    if k in u.rec.steps {
      assert StepSound(book, k, u.rec.steps[k], u.rec.Counter());
    }
  }

  lemma {:induction false} EvalHonours(book: Book, w: World, app: App, d: Delivery, t: Tick, p: Processor,
                                       seen: seq<Seen>)
    requires Sound(book, t.rec) && t.phase != Compensation && ProcessorObeys(p, t.phase, book)
    ensures Honours(w, d, t, Eval(w, app, d, t, p, seen).tick)
    decreases p.Left(seen)
  {
    hide ExecuteStep, SleepFor, Follows, Sound, StepEnds, SleepEnds, OnlyAt, Honours, Spans;
    var r := Eval(w, app, d, t, p, seen);
    match p.At(seen)
    case Return(_) => HonoursSame(w, d, t, r.tick);
    case Throw(_, _, _) => HonoursSame(w, d, t, r.tick);
    case Pause(key, delay) =>
      assert MoveObeys(p.At(seen), t.phase, book);
      SleepSpans(book, w, d, t, key, delay);
      SleepHonours(book, w, d, t, key, delay);
      var c := SleepFor(w, d, t, key, delay);
      SpansSound(book, t, c.tick);
      if c.Go? {
        EvalHonours(book, w, app, d, c.tick, p, seen + [Slept]);
        HonoursTrans(w, d, t, c.tick, r.tick);
      }
    case Call(key, o, recovery) =>
      assert MoveObeys(p.At(seen), t.phase, book);
      StepSpans(book, w, app, d, t, key, o, Nothing);
      StepHonours(book, w, app, d, t, key, o, Nothing);
      var c := ExecuteStep(w, app, d, t, key, o, Nothing);
      SpansSound(book, t, c.tick);
      if GoesOn(recovery, c) {
        EvalHonours(book, w, app, d, c.tick, p, seen + [SeenOf(recovery, c)]);
        HonoursTrans(w, d, t, c.tick, r.tick);
      }
  }

  lemma {:induction false} RollbacksHonour(book: Book, w: World, app: App, d: Delivery, t: Tick, rs: seq<Rollback>,
                                           error: Err, report: Report)
    requires Sound(book, t.rec) && t.phase == Compensation
    ensures Honours(w, d, t, RunRollbacks(w, app, d, t, rs, error, report).tick)
    decreases |rs|
  {
    hide ExecuteStep, Follows, Sound, StepEnds, OnlyAt, Honours, Spans;
    var r := RunRollbacks(w, app, d, t, rs, error, report);
    if rs == [] {
      HonoursSame(w, d, t, r.tick);
    } else {
      var first := rs[0];
      var o, arg := RollbackOptions(app, first), Undo(first.output, error);
      StepSpans(book, w, app, d, t, first.key, o, arg);
      StepHonours(book, w, app, d, t, first.key, o, arg);
      var c := ExecuteStep(w, app, d, t, first.key, o, arg);
      SpansSound(book, t, c.tick);
      if c.Go? || c.signal.Raised? {
        RollbacksHonour(book, w, app, d, c.tick, rs[1..], error,
                        if c.Go? then report.(rolledBack := report.rolledBack + [first.key])
                        else report.(failed := report.failed + [(first.key, c.signal.err)]));
        HonoursTrans(w, d, t, c.tick, r.tick);
      }
    }
  }

  lemma SameStart(w: World, d: Delivery, t: Tick, t1: Tick, u: Tick)
    requires t1.rec.steps == t.rec.steps && t.trace <= t1.trace && Honours(w, d, t1, u)
    ensures Honours(w, d, t, u)
  {
    hide Honours;
    HonoursSame(w, d, t, t1);
    HonoursTrans(w, d, t, t1, u);
  }

  lemma CompensateHonours(book: Book, w: World, app: App, d: Delivery, t: Tick, error: Err)
    requires Sound(book, t.rec)
    ensures Honours(w, d, t, Compensate(w, app, d, t, error).tick)
  {
    hide RunRollbacks, Sound, LatestFirst, Honours;
    if t.rollbacks == [] {
      HonoursSame(w, d, t, t);
    } else {
      var t1 := t.(phase := Compensation);
      RollbacksHonour(book, w, app, d, t1, LatestFirst(t.rollbacks), error, NO_REPORT);
      SameStart(w, d, t, t1, Compensate(w, app, d, t, error).tick);
    }
  }

  lemma HandleHonours(book: Book, w: World, app: App, d: Delivery, t: Tick, info: FailureInfo)
    requires Sound(book, t.rec) && Obeys(app, book)
    ensures Honours(w, d, t, HandleFailure(w, app, d, t, info).tick)
  {
    hide Eval, Sound, ProcessorObeys, Honours;
    if app.onFailure.None? {
      HonoursSame(w, d, t, t);
    } else {
      var t1 := t.(phase := Failure, trace := t.trace + [Handled(info)]);
      EvalHonours(book, w, app, d, t1, app.onFailure.value(info), []);
      SameStart(w, d, t, t1, HandleFailure(w, app, d, t, info).tick);
    }
  }

  lemma UnwindHonours(w: World, d: Delivery, t: Tick, signal: Signal)
    ensures Honours(w, d, t, Unwind(w, t, signal).tick)
  {
    HonoursSame(w, d, t, Unwind(w, t, signal).tick);
  }

  lemma SettleHonours(w: World, d: Delivery, t: Tick, error: Err, report: Report)
    ensures Honours(w, d, t, SettleTerminal(w, t, error, report).tick)
  {
    hide Merge;
    HonoursSame(w, d, t, SettleTerminal(w, t, error, report).tick);
  }

  lemma EnterHonours(w: World, d: Delivery, t: Tick, error: Err)
    ensures Honours(w, d, t, Enter(w, t, error).tick)
  {
    hide Merge;
    HonoursSame(w, d, t, Enter(w, t, error).tick);
  }

  lemma SequenceHonours(book: Book, w: World, app: App, d: Delivery, t: Tick, error: Err)
    requires Sound(book, t.rec) && Obeys(app, book)
    ensures Honours(w, d, t, FailureSequence(w, app, d, t, error).tick)
  {
    hide Compensate, HandleFailure, Obeys, Sound, Moves, Merge, CompletedMainSteps, SettleTerminal, Accounts, Added,
         Handed, Told, Keeps, Honours, Unwind, LatestFirst;
    var u := FailureSequence(w, app, d, t, error).tick;
    var entered := Enter(w, t, error);
    EnterUnderway(book, w, t, error);
    EnterHonours(w, d, t, error);
    if entered.Go? {
      var trigger := TriggerOf(t.rec.instance, error);
      var undone := Compensate(w, app, d, entered.tick, trigger);
      CompensateMoves(book, w, app, d, entered.tick, trigger);
      CompensateHonours(book, w, app, d, entered.tick, trigger);
      MovesSound(book, entered.tick, undone.tick);
      if undone.Stop? {
        UnwindHonours(w, d, undone.tick, undone.signal);
      } else {
        var info := FailureInfo(trigger, FailedStepOf(t), CompletedMainSteps(undone.tick.rec), undone.value);
        var handled := HandleFailure(w, app, d, undone.tick, info);
        HandleHonours(book, w, app, d, undone.tick, info);
        if handled.Stop? {
          UnwindHonours(w, d, handled.tick, handled.signal);
        } else {
          SettleHonours(w, d, handled.tick, trigger, undone.value);
        }
        HonoursTrans(w, d, undone.tick, handled.tick, u);
      }
      HonoursTrans(w, d, entered.tick, undone.tick, u);
      HonoursTrans(w, d, t, entered.tick, u);
    }
  }

  lemma FailFastHonours(w: World, d: Delivery, t: Tick, err: Err)
    ensures Honours(w, d, t, FailFast(w, t, err).tick)
  {
    hide Merge;
    HonoursSame(w, d, t, FailFast(w, t, err).tick);
  }

  lemma ClassifyHonours(book: Book, w: World, app: App, d: Delivery, t: Tick, err: Err, stepScoped: bool,
                        unrecoverable: bool)
    requires Sound(book, t.rec) && Obeys(app, book)
    ensures Honours(w, d, t, Classify(w, app, d, t, err, stepScoped, unrecoverable).tick)
  {
    hide FailureSequence, FailFast, Merge, Sound, Obeys, Honours;
    var r := Classify(w, app, d, t, err, stepScoped, unrecoverable);
    SequenceHonours(book, w, app, d, t, err);
    FailFastHonours(w, d, t, err);
    if r != FailureSequence(w, app, d, t, err) && r != FailFast(w, t, err) {
      HonoursSame(w, d, t, r.tick);
    }
  }

  lemma ConcludeHonours(book: Book, w: World, app: App, d: Delivery, entered: bool, run: Eff<Value>)
    requires Sound(book, run.tick.rec) && Obeys(app, book)
    ensures Honours(w, d, run.tick, Conclude(w, app, d, entered, run).tick)
  {
    hide FailureSequence, Classify, Merge, Sound, Obeys, SettleTrigger, Honours, Clone;
    var r := Conclude(w, app, d, entered, run);
    if run.Stop? && run.signal.Raised? && !entered {
      ClassifyHonours(book, w, app, d, run.tick, run.signal.err, run.signal.stepScoped, run.signal.unrecoverable);
    } else if run.Stop? && run.signal.Raised? {
      SequenceHonours(book, w, app, d, run.tick, SettleTrigger(d, Some(run.signal.err)));
    } else if (run.Go? && entered) || (run.Stop? && run.signal.SettleIncomplete?) {
      SequenceHonours(book, w, app, d, run.tick, SettleTrigger(d, None));
    } else {
      HonoursSame(w, d, run.tick, r.tick);
    }
  }

  lemma ExecuteHonours(book: Book, w: World, app: App, d: Delivery, t: Tick)
    requires Sound(book, t.rec) && Obeys(app, book) && Ready(t)
    ensures Honours(w, d, t, Execute(w, app, d, t).tick)
  {
    hide Eval, Sound, Obeys, Conclude, Honours, Follows;
    var run := Eval(w, app, d, t, app.main, []);
    ObeysMain(app, book);
    RanHere(book, w, app, d, t);
    EvalHonours(book, w, app, d, t, app.main, []);
    ConcludeHonours(book, w, app, d, t.rec.instance.status.Compensating?, run);
    HonoursTrans(w, d, t, run.tick, Execute(w, app, d, t).tick);
  }

  // -- What compensations are handed ---------------------------------------------------------

  /** A compensation is handed the result its step has on record. */
  predicate HandsResult(rec: Record, act: Act) {
    act.Started? && act.key.phase == Compensation ==>
      && rec.Has(Key(Main, act.key.name), StepCompleted)
      && act.argument.Undo? && act.argument.output == rec.steps[Key(Main, act.key.name)].result
  }

  lemma RegisteredResult(book: Book, rec: Record, rs: seq<Rollback>, trigger: Err, failedStep: Option<string>, act: Act)
    requires AllFromSteps(book, rec, rs) && FailureAct(act, rs, trigger, failedStep)
    requires forall k :: k in rec.steps ==> Clone(rec.steps[k].result) == rec.steps[k].result
    ensures HandsResult(rec, act)
  {
    hide LatestFirst, Clone;
    SameMembers(rs);
    if act.Started? && act.key.phase == Compensation {
      var i :| 0 <= i < |LatestFirst(rs)| && LatestFirst(rs)[i].key == act.key.name
               && act.argument == Undo(LatestFirst(rs)[i].output, trigger);
      var j :| 0 <= j < |rs| && rs[j] == LatestFirst(rs)[i];
      assert FromStep(book, rec, rs[j]);
    }
  }

  /** Whatever a delivery compensates, each compensation is handed the stored answer of the step it undoes. */
  lemma CompensationsGetResults(book: Book, w: World, app: App, d: Delivery, t: Tick)
    requires Sound(book, t.rec) && Obeys(app, book) && Ready(t)
    ensures var u := Execute(w, app, d, t).tick;
            forall i :: |t.trace| <= i < |u.trace| ==> HandsResult(u.rec, u.trace[i])
  {
    hide Eval, Execute, FailureSequence, Obeys, Sound, MainSame, Follows, AllFromSteps, FailureAct, HandsResult, Closed;
    var run := Eval(w, app, d, t, app.main, []);
    var u := Execute(w, app, d, t).tick;
    EvalActs(w, app, d, t, app.main, []);
    ForwardGetsNone(t, run.tick, u.rec);
    ExecuteSplits(w, app, d, t);
    RanHere(book, w, app, d, t);
    if u.trace != run.tick.trace {
      var error :| u == FailureSequence(w, app, d, run.tick, error).tick;
      FailureSequenceEnds(book, w, app, d, run.tick, error);
      ForwardRegisters(book, w, app, d, t);
      StoredClones(book, run.tick.rec);
      forall i | |run.tick.trace| <= i < |u.trace| ensures HandsResult(u.rec, u.trace[i]) {
        RegisteredResult(book, run.tick.rec, run.tick.rollbacks, TriggerOf(run.tick.rec.instance, error),
                         FailedStepOf(run.tick), u.trace[i]);
        SameResult(run.tick.rec, u.rec, u.trace[i]);
      }
      EarlierActs(run.tick, u);
    }
  }

  lemma EarlierActs(a: Tick, b: Tick)
    requires Follows(a, b)
    ensures a.trace <= b.trace
  {
  }

  lemma ForwardGetsNone(a: Tick, b: Tick, rec: Record)
    requires Added(a, b, act => InPhase(act, Main))
    ensures a.trace <= b.trace && forall i :: |a.trace| <= i < |b.trace| ==> HandsResult(rec, b.trace[i])
  {
  }

  lemma StoredClones(book: Book, rec: Record)
    requires Sound(book, rec)
    ensures forall k :: k in rec.steps ==> Clone(rec.steps[k].result) == rec.steps[k].result
  {
    hide Clone;
    forall k | k in rec.steps ensures Clone(rec.steps[k].result) == rec.steps[k].result {
      assert StepSound(book, k, rec.steps[k], rec.Counter());
    }
  }

  lemma SameResult(a: Record, b: Record, act: Act)
    requires MainSame(a, b) && HandsResult(a, act)
    ensures HandsResult(b, act)
  {
  }

  // -- Whole runs --------------------------------------------------------------------------

  lemma DeliveryHonours(book: Book, app: App, input: InitInput, s: Run, w: World, d: Delivery, k: Key)
    requires Obeys(app, book) && (s.stored.Some? ==> Sound(book, s.stored.value)) && Unended(s) && !Skipped(s, d)
    ensures var n := Next(app, input, s, Deliver(w, d));
            n.stored.Some?
            && (Settled(n.stored.value, k) && n.stored.value.steps[k].kind.Work? ==>
                  || (s.stored.Some? && k in s.stored.value.steps
                      && s.stored.value.steps[k] == n.stored.value.steps[k])
                  || (Answers(w, d, k, n.stored.value.steps[k])
                      && StartedAt(s.trace, n.trace, k, n.stored.value.steps[k].attempts)))
  {
    hide Obeys, Sound, RunLocked, Execute, Answers, StartOf;
    var t := Began(input, s, w);
    DeliverTick(app, input, s, w, d);
    BeganSound(book, app, input, s, w);
    ExecuteHonours(book, w, app, d, t);
  }

  /** The acts of `after` that `before` has not include a start of step `k` under attempt `n`. */
  predicate StartedAt(before: seq<Act>, after: seq<Act>, k: Key, n: nat) {
    exists i :: |before| <= i < |after| && StartOf(after[i], k) && after[i].attempt == n
  }

  /** The `i`-th event was a delivery that started this body under the attempt on record and got that answer. */
  predicate AnsweredBy(app: App, input: InitInput, es: seq<Event>, i: nat, k: Key, s: Step) {
    && i < |es| && es[i].Deliver? && Answers(es[i].world, es[i].delivery, k, s)
    && StartedAt(RunAll(app, input, FRESH, es[..i]).trace, RunAll(app, input, FRESH, es[..i + 1]).trace, k, s.attempts)
  }

  lemma {:induction false} RunsStep(app: App, input: InitInput, s: Run, es: seq<Event>, e: Event)
    ensures RunAll(app, input, s, es + [e]) == Next(app, input, RunAll(app, input, s, es), e)
    decreases |es|
  {
    hide Next;
    if es == [] {
      assert RunAll(app, input, s, [e]) == RunAll(app, input, Next(app, input, s, e), [e][1..]);
    } else {
      assert (es + [e])[1..] == es[1..] + [e];
      RunsStep(app, input, Next(app, input, s, es[0]), es[1..], e);
    }
  }

  /** Deliveries aside, no event makes or changes a step record. */
  lemma OthersKeep(app: App, input: InitInput, s: Run, e: Event, k: Key)
    requires !e.Deliver?
    ensures var n := Next(app, input, s, e);
            n.stored.Some? && k in n.stored.value.steps ==>
              s.stored.Some? && k in s.stored.value.steps && s.stored.value.steps[k] == n.stored.value.steps[k]
  {
  }

  lemma EarlierAnswer(app: App, input: InitInput, es: seq<Event>, e: Event, i: nat, k: Key, s: Step)
    requires AnsweredBy(app, input, es, i, k, s)
    ensures AnsweredBy(app, input, es + [e], i, k, s)
  {
    hide RunAll, Answers, StartedAt;
    assert (es + [e])[..i] == es[..i] && (es + [e])[..i + 1] == es[..i + 1];
  }

  /**
   * Every checkpoint a run can hold is an answer: some delivery of the history started this very body under the
   * attempt on record, and what the body returned, after a JSON round trip, is the stored result; a stored
   * failure is the failure it threw. Over all deliveries, crashes, settlements and operator actions.
   */
  lemma {:induction false} CheckpointsAreAnswers(book: Book, app: App, input: InitInput, es: seq<Event>, k: Key)
    requires Obeys(app, book)
    ensures var n := RunAll(app, input, FRESH, es);
            n.stored.Some? && Settled(n.stored.value, k) && n.stored.value.steps[k].kind.Work? ==>
              exists i :: AnsweredBy(app, input, es, i, k, n.stored.value.steps[k])
    decreases |es|
  {
    hide Obeys, Next, Sound, Answers, Settled, AnsweredBy, StartedAt;
    if es != [] {
      var front, e := es[..|es| - 1], es[|es| - 1];
      assert es == front + [e];
      CheckpointsAreAnswers(book, app, input, front, k);
      RunsStep(app, input, FRESH, front, e);
      AlwaysSound(book, app, input, FRESH, front);
      AnswerAfter(book, app, input, front, e, k);
    }
  }

  lemma AnswerAfter(book: Book, app: App, input: InitInput, es: seq<Event>, e: Event, k: Key)
    requires Obeys(app, book)
    requires var s := RunAll(app, input, FRESH, es);
             && (s.stored.Some? ==> Sound(book, s.stored.value))
             && (s.stored.Some? && Settled(s.stored.value, k) && s.stored.value.steps[k].kind.Work? ==>
                   exists i :: AnsweredBy(app, input, es, i, k, s.stored.value.steps[k]))
    ensures var n := Next(app, input, RunAll(app, input, FRESH, es), e);
            n.stored.Some? && Settled(n.stored.value, k) && n.stored.value.steps[k].kind.Work? ==>
              exists i :: AnsweredBy(app, input, es + [e], i, k, n.stored.value.steps[k])
  {
    hide Obeys, RunAll, Next, Sound, Answers, AnsweredBy, StartedAt, Skipped;
    var s := RunAll(app, input, FRESH, es);
    var n := Next(app, input, s, e);
    if n.stored.Some? && Settled(n.stored.value, k) && n.stored.value.steps[k].kind.Work? {
      var step := n.stored.value.steps[k];
      if s.stored.Some? && k in s.stored.value.steps && s.stored.value.steps[k] == step {
        var i :| AnsweredBy(app, input, es, i, k, step);
        EarlierAnswer(app, input, es, e, i, k, step);
      } else if !e.Deliver? {
        OthersKeep(app, input, s, e, k);
      } else {
        FreshAnswer(book, app, input, es, e, k);
      }
    }
  }

  lemma FreshAnswer(book: Book, app: App, input: InitInput, es: seq<Event>, e: Event, k: Key)
    requires Obeys(app, book) && e.Deliver?
    requires var s := RunAll(app, input, FRESH, es);
             var n := Next(app, input, s, e);
             && (s.stored.Some? ==> Sound(book, s.stored.value))
             && n.stored.Some? && Settled(n.stored.value, k) && n.stored.value.steps[k].kind.Work?
             && !(s.stored.Some? && k in s.stored.value.steps
                  && s.stored.value.steps[k] == n.stored.value.steps[k])
    ensures AnsweredBy(app, input, es + [e], |es|, k,
                       Next(app, input, RunAll(app, input, FRESH, es), e).stored.value.steps[k])
  {
    hide Obeys, RunAll, Next, Sound, Answers, StartedAt;
    var s := RunAll(app, input, FRESH, es);
    if !Unended(s) {
      DeliverEnded(app, input, s, e.world, e.delivery);
    } else if Skipped(s, e.delivery) {
      SkippedStays(app, input, s, e.world, e.delivery);
    } else {
      DeliveryHonours(book, app, input, s, e.world, e.delivery, k);
      RunsStep(app, input, FRESH, es, e);
      assert (es + [e])[..|es|] == es && (es + [e])[..|es| + 1] == es + [e];
    }
  }
}
