/** In which order steps are compensated. */
module Ordering {
  import opened Values
  import opened Phases
  import opened Records
  import opened Processors
  import opened Steps
  import opened Ticks
  import opened Journal
  import opened StepCalls
  import opened Routes
  import opened Sagas
  import opened Failures
  import opened Runs
  import opened Guarantees
  import opened Compensating
  import opened Irreversible

  predicate Distinct(names: seq<string>) {
    forall i, j :: 0 <= i < j < |names| ==> names[i] != names[j]
  }

  /** The processor calls each key at most once, whatever it is handed. */
  ghost predicate OnceEach(p: Processor) {
    forall steps :: Distinct(RouteOf(p, steps, []).stops)
  }

  predicate Strictly(rs: seq<Rollback>) {
    forall i, j :: 0 <= i < j < |rs| ==> rs[i].seqNo > rs[j].seqNo
  }

  predicate Apart(rs: seq<Rollback>) {
    forall i, j :: 0 <= i < j < |rs| ==> rs[i].seqNo != rs[j].seqNo
  }

  /** Each registered compensation carries the number of its step. */
  predicate Numbered(rec: Record, rs: seq<Rollback>) {
    forall i :: 0 <= i < |rs| ==>
      Key(Main, rs[i].key) in rec.steps && rec.steps[Key(Main, rs[i].key)].seqNo == rs[i].seqNo
  }

  // -- Strictly descending --------------------------------------------------------------------

  lemma {:induction false} RouteNumbered(p: Processor, rec: Record, seen: seq<Seen>)
    ensures Numbered(rec, RouteOf(p, rec.steps, seen).rollbacks)
    ensures forall i :: 0 <= i < |RouteOf(p, rec.steps, seen).rollbacks| ==>
              RouteOf(p, rec.steps, seen).rollbacks[i].key in RouteOf(p, rec.steps, seen).stops
    decreases p.Left(seen)
  {
    match p.At(seen)
    case Return(_) =>
    case Throw(_, _, _) =>
    case Pause(key, _) =>
      RouteNumbered(p, rec, seen + [Slept]);
    case Call(key, o, recovery) =>
      var k := Key(Main, key);
      if k in rec.steps {
        RouteNumbered(p, rec, seen + [Got(Clone(rec.steps[k].result))]);
        RouteNumbered(p, rec, seen + [Retold(recovery, rec.steps[k], key)]);
      }
  }

  predicate KeysApart(rs: seq<Rollback>) {
    forall i, j :: 0 <= i < j < |rs| ==> rs[i].key != rs[j].key
  }

  lemma {:induction false} RouteKeysApart(p: Processor, rec: Record, seen: seq<Seen>)
    requires Distinct(RouteOf(p, rec.steps, seen).stops)
    ensures KeysApart(RouteOf(p, rec.steps, seen).rollbacks)
    decreases p.Left(seen)
  {
    match p.At(seen)
    case Return(_) =>
    case Throw(_, _, _) =>
    case Pause(key, _) =>
      if rec.Has(Key(Main, key), StepCompleted) {
        TailDistinct(key, RouteOf(p, rec.steps, seen + [Slept]).stops);
        RouteKeysApart(p, rec, seen + [Slept]);
        var rest := RouteOf(p, rec.steps, seen + [Slept]).rollbacks;
        assert [] + rest == rest;
      }
    case Call(key, o, recovery) =>
      var k := Key(Main, key);
      if rec.Has(k, StepCompleted) {
        var next := seen + [Got(Clone(rec.steps[k].result))];
        TailDistinct(key, RouteOf(p, rec.steps, next).stops);
        RouteKeysApart(p, rec, next);
        RouteNumbered(p, rec, next);
        var own, rest := Registers(key, o, rec.steps[k]), RouteOf(p, rec.steps, next).rollbacks;
        assert RouteOf(p, rec.steps, seen).rollbacks == own + rest;
        KeysApartJoin(own, rest, key, RouteOf(p, rec.steps, next).stops);
      } else if rec.Has(k, StepFailed) && !recovery.Uncaught? {
        TailDistinct(key, RouteOf(p, rec.steps, seen + [Retold(recovery, rec.steps[k], key)]).stops);
        RouteKeysApart(p, rec, seen + [Retold(recovery, rec.steps[k], key)]);
      }
  }

  lemma KeysApartJoin(own: seq<Rollback>, rest: seq<Rollback>, key: string, stops: seq<string>)
    requires |own| <= 1 && (own != [] ==> own[0].key == key) && key !in stops
    requires forall i :: 0 <= i < |rest| ==> rest[i].key in stops
    requires KeysApart(rest)
    ensures KeysApart(own + rest)
  {
  }

  lemma TailDistinct(first: string, rest: seq<string>)
    requires Distinct([first] + rest)
    ensures Distinct(rest) && first !in rest
  {
    var all := [first] + rest;
    assert forall i :: 0 <= i < |rest| ==> all[i + 1] == rest[i];
    assert all[0] == first;
  }

  lemma SortedStrictly(rs: seq<Rollback>)
    requires Apart(rs)
    ensures Strictly(LatestFirst(rs))
  {
    LatestFirstSorts(rs);
    var ordered := LatestFirst(rs);
    forall i, j | 0 <= i < j < |ordered| ensures ordered[i].seqNo > ordered[j].seqNo {
      SortedApart(rs, ordered, i, j);
    }
  }

  /** Two entries with one number in a permutation would come from two entries with one number. */
  lemma SortedApart(rs: seq<Rollback>, ordered: seq<Rollback>, i: nat, j: nat)
    requires Apart(rs) && multiset(ordered) == multiset(rs) && i < j < |ordered|
    ensures ordered[i].seqNo != ordered[j].seqNo
  {
    assert ordered[i] in multiset(rs) && ordered[j] in multiset(rs);
    var x :| 0 <= x < |rs| && rs[x] == ordered[i];
    var y :| 0 <= y < |rs| && rs[y] == ordered[j];
    OnceIn(rs, x);
    if ordered[i] == ordered[j] {
      TwiceIn(ordered, i, j);
    }
  }

  lemma TwiceIn(s: seq<Rollback>, i: nat, j: nat)
    requires i < j < |s| && s[i] == s[j]
    ensures multiset(s)[s[i]] >= 2
  {
    assert s == s[..j] + [s[j]] + s[j + 1..];
    assert s[i] in s[..j];
    assert s[i] in multiset(s[..j]);
  }

  lemma OnceIn(s: seq<Rollback>, x: nat)
    requires x < |s| && Apart(s)
    ensures multiset(s)[s[x]] == 1
  {
    assert s == s[..x] + [s[x]] + s[x + 1..];
    assert s[x] !in s[..x] && s[x] !in s[x + 1..];
    assert s[x] !in multiset(s[..x]) && s[x] !in multiset(s[x + 1..]);
  }

  lemma RouteApart(book: Book, app: App, rec: Record)
    requires Sound(book, rec) && OnceEach(app.main)
    ensures Apart(RouteIn(app, rec).rollbacks) && Numbered(rec, RouteIn(app, rec).rollbacks)
  {
    hide RouteOf;
    assert Distinct(RouteOf(app.main, rec.steps, []).stops);
    RouteNumbered(app.main, rec, []);
    RouteKeysApart(app.main, rec, []);
    var rs := RouteIn(app, rec).rollbacks;
    forall i, j | 0 <= i < j < |rs| ensures rs[i].seqNo != rs[j].seqNo {
      assert Key(Main, rs[i].key) != Key(Main, rs[j].key);
    }
  }

  // -- The order in which handlers run ---------------------------------------------------------

  /** Of two compensations in the history, the one that comes first undoes the later step. */
  predicate Latest(rec: Record, x: Act, y: Act) {
    InPhase(x, Compensation) && InPhase(y, Compensation)
    && Key(Main, x.key.name) in rec.steps && Key(Main, y.key.name) in rec.steps ==>
      rec.steps[Key(Main, x.key.name)].seqNo >= rec.steps[Key(Main, y.key.name)].seqNo
  }

  ghost predicate InOrder(rec: Record, from: nat, trace: seq<Act>) {
    forall i, j :: from <= i < j < |trace| ==> Latest(rec, trace[i], trace[j])
  }

  lemma {:induction false} RollbacksInOrder(w: World, app: App, d: Delivery, t: Tick, rs: seq<Rollback>, error: Err,
                                            report: Report, main: Record)
    requires t.phase == Compensation && Descending(rs) && Numbered(main, rs)
    ensures InOrder(main, |t.trace|, RunRollbacks(w, app, d, t, rs, error, report).tick.trace)
    decreases |rs|
  {
    hide ExecuteStep, Handed;
    var r := RunRollbacks(w, app, d, t, rs, error, report);
    if rs != [] {
      var first := rs[0];
      var o := RollbackOptions(app, first);
      var c := ExecuteStep(w, app, d, t, first.key, o, Undo(first.output, error));
      StepActs(w, app, d, t, first.key, o, Undo(first.output, error));
      if c.Go? || c.signal.Raised? {
        var next := if c.Go? then report.(rolledBack := report.rolledBack + [first.key])
                    else report.(failed := report.failed + [(first.key, c.signal.err)]);
        RollbacksInOrder(w, app, d, c.tick, rs[1..], error, next, main);
        RollbackActs(w, app, d, c.tick, rs[1..], error, next);
        LaterActs(app, o, t, c.tick, r.tick, rs, error, main);
      }
    }
  }

  lemma LaterActs(app: App, o: StepOptions, t: Tick, u: Tick, v: Tick, rs: seq<Rollback>, error: Err, main: Record)
    requires rs != [] && Descending(rs) && Numbered(main, rs)
    requires Added(t, u, act => About(app, act, CompKey(rs[0]), o, Undo(rs[0].output, error)))
    requires Added(u, v, act => Handed(act, rs[1..], error)) && InOrder(main, |u.trace|, v.trace)
    ensures InOrder(main, |t.trace|, v.trace)
  {
    hide Paired;
    forall i, j | |t.trace| <= i < j < |v.trace| ensures Latest(main, v.trace[i], v.trace[j]) {
      if i < |u.trace| {
        assert v.trace[i] == u.trace[i];
        assert About(app, u.trace[i], CompKey(rs[0]), o, Undo(rs[0].output, error));
        if j < |u.trace| {
          assert v.trace[j] == u.trace[j];
        } else {
          assert Handed(v.trace[j], rs[1..], error);
          var x :| 0 <= x < |rs[1..]| && rs[1..][x].key == v.trace[j].key.name;
          assert rs[1..][x] == rs[x + 1];
        }
      }
    }
  }

  /**
   * Compensation order: a tick compensates in strictly descending step number, the registered list
   * being sorted so, and handlers start in that order.
   */
  lemma CompensatesLatestFirst(book: Book, w: World, app: App, d: Delivery, t: Tick, error: Err)
    requires Sound(book, t.rec) && OnceEach(app.main) && t.rollbacks == RouteIn(app, t.rec).rollbacks
    ensures Strictly(LatestFirst(t.rollbacks)) && multiset(LatestFirst(t.rollbacks)) == multiset(t.rollbacks)
    ensures InOrder(t.rec, |t.trace|, Compensate(w, app, d, t, error).tick.trace)
  {
    hide RouteOf, LatestFirst, Sound, OnceEach, Compensate;
    RouteApart(book, app, t.rec);
    SortedStrictly(t.rollbacks);
    LatestFirstSorts(t.rollbacks);
    CompensatesInOrder(w, app, d, t, error);
  }

  /** Handlers start in descending number of the steps they undo. */
  lemma CompensatesInOrder(w: World, app: App, d: Delivery, t: Tick, error: Err)
    requires Numbered(t.rec, t.rollbacks)
    ensures InOrder(t.rec, |t.trace|, Compensate(w, app, d, t, error).tick.trace)
  {
    hide RunRollbacks, LatestFirst;
    LatestFirstSorts(t.rollbacks);
    NumberedSorted(t.rec, t.rollbacks);
    if t.rollbacks != [] {
      RollbacksInOrder(w, app, d, t.(phase := Compensation), LatestFirst(t.rollbacks), error, NO_REPORT, t.rec);
    }
  }

  lemma NumberedSorted(rec: Record, rs: seq<Rollback>)
    requires Numbered(rec, rs)
    ensures Numbered(rec, LatestFirst(rs))
  {
    SameMembers(rs);
    var ordered := LatestFirst(rs);
    forall i | 0 <= i < |ordered|
      ensures Key(Main, ordered[i].key) in rec.steps && rec.steps[Key(Main, ordered[i].key)].seqNo == ordered[i].seqNo
    {
      var x :| 0 <= x < |rs| && rs[x] == ordered[i];
    }
  }

  predicate NotUndoing(act: Act) {
    !InPhase(act, Compensation)
  }

  lemma OrderAround(a: Tick, b: Tick, c: Tick, d: Tick, rec: Record)
    requires Added(a, b, NotUndoing) && b.trace <= c.trace && InOrder(rec, |b.trace|, c.trace)
             && Added(c, d, NotUndoing)
    ensures InOrder(rec, |a.trace|, d.trace)
  {
    hide Paired;
    forall i, j | |a.trace| <= i < j < |d.trace| ensures Latest(rec, d.trace[i], d.trace[j]) {
      if j < |b.trace| {
        assert d.trace[j] == b.trace[j] && NotUndoing(b.trace[j]);
      } else if i < |b.trace| {
        assert d.trace[i] == b.trace[i] && NotUndoing(b.trace[i]);
      } else if j < |c.trace| {
        assert d.trace[i] == c.trace[i] && d.trace[j] == c.trace[j];
      } else {
        assert NotUndoing(d.trace[j]);
      }
    }
  }

  lemma NoActs(a: Tick, b: Tick)
    requires b.trace == a.trace
    ensures Added(a, b, NotUndoing)
  {
  }

  /** The failure sequence of a tick, seen from the state in which the tick began. */
  lemma SequenceInOrder(book: Book, w: World, app: App, d: Delivery, base: Tick, t: Tick, error: Err)
    requires Sound(book, t.rec) && Obeys(app, book) && Numbered(t.rec, t.rollbacks) && Added(base, t, NotUndoing)
    ensures InOrder(t.rec, |base.trace|, FailureSequence(w, app, d, t, error).tick.trace)
  {
    hide Compensate, HandleFailure, Obeys, InOrder, NotUndoing, Merge, CompletedMainSteps, Sound, LatestFirst, Added,
         Told, Handed, Follows, Accounts, MainSame, Moves, SettleTerminal, Unwind;
    var r := FailureSequence(w, app, d, t, error);
    var entered := Enter(w, t, error);
    NoActs(t, entered.tick);
    AddedTrans(base, t, entered.tick, NotUndoing);
    EnterUnderway(book, w, t, error);
    if entered.Stop? {
      NoOrder(t);
      NoActs(t, r.tick);
      OrderAround(base, t, t, r.tick, t.rec);
    } else {
      var t1 := entered.tick;
      var trigger := TriggerOf(t.rec.instance, error);
      CompensatesInOrder(w, app, d, t1, trigger);
      SameOrder(t.rec, t1.rec, |t1.trace|, Compensate(w, app, d, t1, trigger).tick.trace);
      CompensateMoves(book, w, app, d, t1, trigger);
      var undone := Compensate(w, app, d, t1, trigger);
      Extends(t1, undone.tick, act => Handed(act, LatestFirst(t1.rollbacks), trigger));
      if undone.Stop? {
        UnwindQuiet(w, undone.tick, undone.signal);
        NoActs(undone.tick, r.tick);
        OrderAround(base, t1, undone.tick, r.tick, t.rec);
      } else {
        var info := FailureInfo(trigger, FailedStepOf(t), CompletedMainSteps(undone.tick.rec), undone.value);
        MovesSound(book, t1, undone.tick);
        HandleMoves(book, w, app, d, undone.tick, info);
        var handled := HandleFailure(w, app, d, undone.tick, info);
        ToldNotUndoing(undone.tick, handled.tick, info);
        if handled.Stop? {
          UnwindQuiet(w, handled.tick, handled.signal);
        } else {
          SettleQuiet(w, handled.tick, trigger, undone.value);
        }
        NoActs(handled.tick, r.tick);
        AddedTrans(undone.tick, handled.tick, r.tick, NotUndoing);
        OrderAround(base, t1, undone.tick, r.tick, t.rec);
      }
    }
  }

  lemma UnwindQuiet(w: World, t: Tick, signal: Signal)
    ensures Unwind(w, t, signal).tick.trace == t.trace
  {
  }

  lemma SettleQuiet(w: World, t: Tick, error: Err, report: Report)
    ensures SettleTerminal(w, t, error, report).tick.trace == t.trace
  {
    hide Merge;
  }

  lemma NoOrder(t: Tick)
    ensures InOrder(t.rec, |t.trace|, t.trace)
  {
  }

  lemma SameOrder(a: Record, b: Record, from: nat, trace: seq<Act>)
    requires a.steps == b.steps
    ensures InOrder(a, from, trace) <==> InOrder(b, from, trace)
  {
    assert forall x, y :: Latest(a, x, y) <==> Latest(b, x, y);
  }

  lemma Extends(a: Tick, b: Tick, fits: Act -> bool)
    requires Added(a, b, fits)
    ensures a.trace <= b.trace
  {
  }

  lemma ToldNotUndoing(a: Tick, b: Tick, info: FailureInfo)
    requires Added(a, b, act => Told(act, info))
    ensures Added(a, b, NotUndoing)
  {
  }

  /** Whatever a delivery compensates, it starts the handlers in descending number of the steps they undo. */
  lemma DeliveryInOrder(book: Book, w: World, app: App, d: Delivery, t: Tick)
    requires Sound(book, t.rec) && Obeys(app, book) && Ready(t)
    ensures InOrder(Execute(w, app, d, t).tick.rec, |t.trace|, Execute(w, app, d, t).tick.trace)
  {
    hide Eval, Execute, FailureSequence, Obeys, InOrder, NotUndoing, Sound, Added, MainSame, Follows, AllFromSteps;
    var run := Eval(w, app, d, t, app.main, []);
    var u := Execute(w, app, d, t).tick;
    EvalActs(w, app, d, t, app.main, []);
    MainNotUndoing(t, run.tick);
    ExecuteSplits(w, app, d, t);
    ExecuteMain(book, w, app, d, t);
    RanHere(book, w, app, d, t);
    if u.trace == run.tick.trace {
      NoActs(run.tick, u);
      NoOrder(run.tick);
      OrderAround(t, run.tick, run.tick, u, run.tick.rec);
    } else {
      var error :| u == FailureSequence(w, app, d, run.tick, error).tick;
      ForwardRegisters(book, w, app, d, t);
      FromStepsNumbered(book, run.tick.rec, run.tick.rollbacks);
      SequenceInOrder(book, w, app, d, t, run.tick, error);
    }
    MainOrder(run.tick.rec, u.rec, |t.trace|, u.trace);
  }

  lemma FromStepsNumbered(book: Book, rec: Record, rs: seq<Rollback>)
    requires AllFromSteps(book, rec, rs)
    ensures Numbered(rec, rs)
  {
    forall i | 0 <= i < |rs|
      ensures Key(Main, rs[i].key) in rec.steps && rec.steps[Key(Main, rs[i].key)].seqNo == rs[i].seqNo
    {
      assert FromStep(book, rec, rs[i]);
    }
  }

  lemma MainNotUndoing(a: Tick, b: Tick)
    requires Added(a, b, act => InPhase(act, a.phase)) && a.phase == Main
    ensures Added(a, b, NotUndoing)
  {
  }

  lemma MainOrder(a: Record, b: Record, from: nat, trace: seq<Act>)
    requires MainSame(a, b) && InOrder(a, from, trace)
    ensures InOrder(b, from, trace)
  {
    forall i, j | from <= i < j < |trace| ensures Latest(b, trace[i], trace[j]) {
      assert Latest(a, trace[i], trace[j]);
    }
  }

  /** The same list on every resumed delivery of a run on its way down. */
  lemma SameListOnResume(app: App, s: Run, n: Run)
    requires Descends(s, n)
    ensures LatestFirst(RouteIn(app, n.stored.value).rollbacks) == LatestFirst(RouteIn(app, s.stored.value).rollbacks)
  {
    hide RouteOf, LatestFirst;
    RouteOfMain(app.main, s.stored.value, n.stored.value, []);
  }

  // -- Program order -----------------------------------------------------------------------------

  /** Along the route, steps are numbered upwards, and every forward record is on the route. */
  ghost predicate Tidy(p: Processor, rec: Record) {
    var stops := RouteOf(p, rec.steps, []).stops;
    && (forall k: Key :: k.phase == Main && k in rec.steps ==> k.name in stops)
    && Upwards(rec, stops)
  }

  predicate Upwards(rec: Record, stops: seq<string>) {
    forall i, j :: 0 <= i < j < |stops| && Key(Main, stops[i]) in rec.steps && Key(Main, stops[j]) in rec.steps ==>
      rec.steps[Key(Main, stops[i])].seqNo < rec.steps[Key(Main, stops[j])].seqNo
  }

  /** All stops but the last have settled records. */
  lemma {:induction false} StopsPresent(p: Processor, steps: map<Key, Step>, seen: seq<Seen>, i: nat)
    requires i < |RouteOf(p, steps, seen).stops| - 1
    ensures Key(Main, RouteOf(p, steps, seen).stops[i]) in steps
    decreases p.Left(seen)
  {
    match p.At(seen)
    case Return(_) =>
    case Throw(_, _, _) =>
    case Pause(key, _) =>
      if i > 0 {
        StopsPresent(p, steps, seen + [Slept], i - 1);
      }
    case Call(key, o, recovery) =>
      var k := Key(Main, key);
      if i > 0 && steps[k].status.StepCompleted? {
        StopsPresent(p, steps, seen + [Got(Clone(steps[k].result))], i - 1);
      } else if i > 0 {
        StopsPresent(p, steps, seen + [Retold(recovery, steps[k], key)], i - 1);
      }
  }

  predicate Fresh(a: Record, b: Record, name: string) {
    Key(Main, name) in b.steps && Key(Main, name) !in a.steps
  }

  /** Of two steps that one tick created, the one the processor calls first has the lower number. */
  ghost predicate NewUpwards(a: Record, b: Record, stops: seq<string>) {
    forall i, j :: 0 <= i < j < |stops| && Fresh(a, b, stops[i]) && Fresh(a, b, stops[j]) ==>
      b.steps[Key(Main, stops[i])].seqNo < b.steps[Key(Main, stops[j])].seqNo
  }

  lemma NewUpwardsJoin(book: Book, a: Tick, b: Tick, c: Tick, key: string, rest: seq<string>)
    requires OnlyAt(a.rec, b.rec, Key(Main, key)) && Follows(b, c) && Sound(book, b.rec)
    requires NewUpwards(b.rec, c.rec, rest) && key !in rest
    requires Key(Main, key) in b.rec.steps
    ensures NewUpwards(a.rec, c.rec, [key] + rest)
  {
    var stops := [key] + rest;
    assert forall i :: 0 < i < |stops| ==> stops[i] == rest[i - 1];
    assert StepSound(book, Key(Main, key), b.rec.steps[Key(Main, key)], b.rec.Counter());
    assert StepMoves(b.rec.steps[Key(Main, key)], c.rec.steps[Key(Main, key)], c.now);
  }

  lemma NewUpwardsOne(a: Record, b: Record, stops: seq<string>, key: string)
    requires Distinct(stops) && OnlyAt(a, b, Key(Main, key))
    ensures NewUpwards(a, b, stops)
  {
  }

  lemma NewUpwardsNone(a: Record, stops: seq<string>)
    ensures NewUpwards(a, a, stops)
  {
  }

  /** The number of a new step lies above everything counted before it. */
  lemma {:induction false} EvalUpwards(book: Book, w: World, app: App, d: Delivery, t: Tick, p: Processor,
                                       seen: seq<Seen>)
    requires Sound(book, t.rec) && t.phase == Main && ProcessorObeys(p, Main, book)
    requires !ReadsExhausted(w, app, d, t, p, seen)
    requires var f := Eval(w, app, d, t, p, seen).tick.rec.steps; Distinct(RouteOf(p, f, seen).stops)
    ensures var f := Eval(w, app, d, t, p, seen).tick.rec;
            NewUpwards(t.rec, f, RouteOf(p, f.steps, seen).stops)
    decreases p.Left(seen)
  {
    hide Follows, OnlyPhase, Sound, ExecuteStep, SleepFor, Spans, OnlyAt, NewUpwards, StepEnds, SleepEnds, Registers,
         Distinct,
         PollExhausted, StoredError;
    var f := Eval(w, app, d, t, p, seen).tick.rec;
    match p.At(seen)
    case Return(_) =>
      NewUpwardsNone(t.rec, RouteOf(p, f.steps, seen).stops);
    case Throw(_, _, _) =>
      NewUpwardsNone(t.rec, RouteOf(p, f.steps, seen).stops);
    case Pause(key, delay) =>
      assert MoveObeys(p.At(seen), t.phase, book);
      SleepSpans(book, w, d, t, key, delay);
      var c := SleepFor(w, d, t, key, delay);
      if c.Go? {
        SpansSound(book, t, c.tick);
        FinalKeeps(book, w, app, d, c.tick, p, seen + [Slept]);
        PauseStays(d, t, c, key, f);
        var rest := RouteOf(p, f.steps, seen + [Slept]).stops;
        assert RouteOf(p, f.steps, seen).stops == [key] + rest;
        TailDistinct(key, rest);
        EvalUpwards(book, w, app, d, c.tick, p, seen + [Slept]);
        EvalSpans(book, w, app, d, c.tick, p, seen + [Slept]);
        SpansFollows(book, c.tick, Eval(w, app, d, t, p, seen).tick);
        NewUpwardsJoin(book, t, c.tick, Eval(w, app, d, t, p, seen).tick, key, rest);
      } else {
        NewUpwardsOne(t.rec, f, RouteOf(p, f.steps, seen).stops, key);
      }
    case Call(key, o, recovery) =>
      assert MoveObeys(p.At(seen), t.phase, book);
      StepSpans(book, w, app, d, t, key, o, Nothing);
      var c := ExecuteStep(w, app, d, t, key, o, Nothing);
      if GoesOn(recovery, c) {
        var next := seen + [SeenOf(recovery, c)];
        SpansSound(book, t, c.tick);
        FinalKeeps(book, w, app, d, c.tick, p, next);
        EndsEnd(t, c, key, o);
        StepErrors(w, app, d, t, key, o, Nothing);
        CallSteers(t, c, f.steps, p, seen);
        var rest := RouteOf(p, f.steps, next).stops;
        assert RouteOf(p, f.steps, seen).stops == [key] + rest;
        TailDistinct(key, rest);
        EvalUpwards(book, w, app, d, c.tick, p, next);
        EvalSpans(book, w, app, d, c.tick, p, next);
        SpansFollows(book, c.tick, Eval(w, app, d, t, p, seen).tick);
        NewUpwardsJoin(book, t, c.tick, Eval(w, app, d, t, p, seen).tick, key, rest);
      } else {
        NewUpwardsOne(t.rec, f, RouteOf(p, f.steps, seen).stops, key);
      }
  }

  lemma SpansFollows(book: Book, a: Tick, b: Tick)
    requires Spans(book, a, b)
    ensures Follows(a, b)
  {
  }

  lemma PauseStays(d: Delivery, t: Tick, c: Eff<()>, key: string, f: Record)
    requires t.phase == Main && c.Go? && Keeps(c.tick.rec.steps, f.steps)
    requires SleepEnds(d, t, c, key) || c.tick.rec.Has(Key(Main, key), StepCompleted)
    ensures f.Has(Key(Main, key), StepCompleted) && Key(Main, key) in c.tick.rec.steps
  {
  }

  lemma EndsEnd(t: Tick, c: Eff<Value>, key: string, o: StepOptions)
    requires StepEnds(t, c, key, o) && (c.Go? || c.signal.Raised?) && t.phase == Main
    ensures Key(Main, key) in c.tick.rec.steps
  {
  }

  // -- Whole runs ----------------------------------------------------------------------------------

  lemma TickTidy(book: Book, app: App, t: Tick, u: Tick)
    requires Sound(book, t.rec) && Follows(t, u) && OnceEach(app.main) && Tidy(app.main, t.rec)
    requires ChangesOnRoute(t.rec, u.rec, RouteIn(app, u.rec).stops)
    requires NewUpwards(t.rec, u.rec, RouteIn(app, u.rec).stops)
    ensures Tidy(app.main, u.rec)
  {
    hide RouteOf;
    var before, after := RouteIn(app, t.rec).stops, RouteIn(app, u.rec).stops;
    FollowsKeeps(t, u);
    RouteGrows(app.main, t.rec.steps, u.rec.steps, []);
    assert Distinct(RouteOf(app.main, u.rec.steps, []).stops);
    forall k: Key | k.phase == Main && k in u.rec.steps ensures k.name in after {
      if k in t.rec.steps && u.rec.steps[k] == t.rec.steps[k] {
        assert k.name in before;
      }
    }
    forall i, j | 0 <= i < j < |after| && Key(Main, after[i]) in u.rec.steps && Key(Main, after[j]) in u.rec.steps
      ensures u.rec.steps[Key(Main, after[i])].seqNo < u.rec.steps[Key(Main, after[j])].seqNo
    {
      PairUpwards(book, app, t, u, i, j);
    }
  }

  lemma PairUpwards(book: Book, app: App, t: Tick, u: Tick, i: nat, j: nat)
    requires Sound(book, t.rec) && Follows(t, u) && Tidy(app.main, t.rec)
    requires NewUpwards(t.rec, u.rec, RouteIn(app, u.rec).stops)
    requires Distinct(RouteIn(app, u.rec).stops) && RouteIn(app, t.rec).stops <= RouteIn(app, u.rec).stops
    requires var after := RouteIn(app, u.rec).stops;
             i < j < |after| && Key(Main, after[i]) in u.rec.steps && Key(Main, after[j]) in u.rec.steps
    ensures var after := RouteIn(app, u.rec).stops;
            u.rec.steps[Key(Main, after[i])].seqNo < u.rec.steps[Key(Main, after[j])].seqNo
  {
    hide RouteOf;
    var before, after := RouteIn(app, t.rec).stops, RouteIn(app, u.rec).stops;
    var x, y := Key(Main, after[i]), Key(Main, after[j]);
    if y in t.rec.steps {
      var j' :| 0 <= j' < |before| && before[j'] == y.name;
      assert after[j'] == y.name;
      StopsPresent(app.main, t.rec.steps, [], i);
      assert StepMoves(t.rec.steps[x], u.rec.steps[x], u.now) && StepMoves(t.rec.steps[y], u.rec.steps[y], u.now);
    } else if x in t.rec.steps {
      assert StepSound(book, x, t.rec.steps[x], t.rec.Counter());
      assert StepMoves(t.rec.steps[x], u.rec.steps[x], u.now);
    } else {
      assert Fresh(t.rec, u.rec, after[i]) && Fresh(t.rec, u.rec, after[j]);
    }
  }

  lemma TidyMain(app: App, a: Record, b: Record)
    requires Tidy(app.main, a) && MainSame(a, b)
    ensures Tidy(app.main, b)
  {
    hide RouteOf;
    RouteOfMain(app.main, a, b, []);
  }

  /** What a tick adds to the forward records, it adds in its forward part. */
  lemma ExecuteMain(book: Book, w: World, app: App, d: Delivery, t: Tick)
    requires Sound(book, t.rec) && Obeys(app, book) && Ready(t)
    ensures MainSame(Eval(w, app, d, t, app.main, []).tick.rec, Execute(w, app, d, t).tick.rec)
  {
    hide Eval, FailureSequence, Sound, Obeys, Classify, Merge, MainSame, SettleTrigger, Follows;
    var run := Eval(w, app, d, t, app.main, []);
    RanHere(book, w, app, d, t);
    var entered := t.rec.instance.status.Compensating?;
    if run.Stop? && run.signal.Raised? && !entered {
      ClassifyMain(book, w, app, d, run.tick, run.signal.err, run.signal.stepScoped, run.signal.unrecoverable);
    } else if (run.Go? && !entered)
              || (run.Stop? && (run.signal.Crash? || run.signal.Yield? || run.signal.CancelledRun?)) {
      StepsSame(run.tick.rec, Execute(w, app, d, t).tick.rec);
    } else {
      var error := if run.Stop? && run.signal.Raised? then SettleTrigger(d, Some(run.signal.err))
                     else SettleTrigger(d, None);
      FailureSequenceEnds(book, w, app, d, run.tick, error);
      SequenceMain(book, run.tick, error, FailureSequence(w, app, d, run.tick, error).tick);
    }
  }

  lemma StepsSame(a: Record, b: Record)
    requires b.steps == a.steps
    ensures MainSame(a, b)
  {
  }

  lemma FailFastStays(w: World, t: Tick, err: Err)
    ensures FailFast(w, t, err).tick.rec.steps == t.rec.steps
  {
    hide Merge;
  }

  lemma ClassifyMain(book: Book, w: World, app: App, d: Delivery, t: Tick, err: Err, stepScoped: bool,
                     unrecoverable: bool)
    requires Sound(book, t.rec) && Obeys(app, book)
    ensures MainSame(t.rec, Classify(w, app, d, t, err, stepScoped, unrecoverable).tick.rec)
  {
    hide FailureSequence, Merge, Sound, Obeys, MainSame, FailFast;
    FailFastStays(w, t, err);
    var u := Classify(w, app, d, t, err, stepScoped, unrecoverable).tick;
    if u == FailureSequence(w, app, d, t, err).tick {
      FailureSequenceEnds(book, w, app, d, t, err);
      SequenceMain(book, t, err, u);
    } else {
      StepsSame(t.rec, u.rec);
    }
  }

  lemma ExecuteTidy(book: Book, w: World, app: App, d: Delivery, t: Tick)
    requires Sound(book, t.rec) && Obeys(app, book) && Ready(t) && OnceEach(app.main) && Tidy(app.main, t.rec)
    requires !ReadsExhausted(w, app, d, t, app.main, [])
    ensures Tidy(app.main, Execute(w, app, d, t).tick.rec)
  {
    hide Eval, Execute, Sound, Obeys, MainSame, RouteOf, Tidy, Follows, Agrees, ChangesOnRoute, ReadsExhausted;
    var run := Eval(w, app, d, t, app.main, []);
    ForwardEnds(book, w, app, d, t);
    ObeysMain(app, book);
    assert Distinct(RouteOf(app.main, run.tick.rec.steps, []).stops);
    EvalUpwards(book, w, app, d, t, app.main, []);
    TickTidy(book, app, t, run.tick);
    ExecuteMain(book, w, app, d, t);
    TidyMain(app, run.tick.rec, Execute(w, app, d, t).tick.rec);
  }

  lemma NextTidy(book: Book, app: App, input: InitInput, s: Run, e: Event)
    requires Obeys(app, book) && OnceEach(app.main) && !e.RetryRun? && FaithfulEvent(app, input, s, e)
    requires s.stored.Some? ==> Sound(book, s.stored.value) && Tidy(app.main, s.stored.value)
    ensures var n := Next(app, input, s, e);
            n.stored.Some? ==> Tidy(app.main, n.stored.value)
  {
    hide Obeys, Sound, RunLocked, Tidy, Execute, OnceEach, ReadsExhausted;
    if e.Deliver? && Unended(s) && !Skipped(s, e.delivery) {
      DeliverTick(app, input, s, e.world, e.delivery);
      BeganSound(book, app, input, s, e.world);
      var t := Began(input, s, e.world);
      BeganTidy(app, s, t);
      ExecuteTidy(book, e.world, app, e.delivery, t);
    } else if e.Deliver? && !Unended(s) {
      DeliverEnded(app, input, s, e.world, e.delivery);
    } else if s.stored.Some? && !e.Deliver? {
      TidyMain(app, s.stored.value, Next(app, input, s, e).stored.value);
    }
  }

  lemma BeganTidy(app: App, s: Run, t: Tick)
    requires s.stored.Some? ==> t.rec.steps == s.stored.value.steps && Tidy(app.main, s.stored.value)
    requires s.stored.None? ==> t.rec.steps == map[]
    ensures Tidy(app.main, t.rec)
  {
    if s.stored.Some? {
      hide RouteOf;
      assert RouteIn(app, t.rec) == RouteIn(app, s.stored.value);
    }
  }

  lemma {:induction false} RunTidy(book: Book, app: App, input: InitInput, s: Run, es: seq<Event>)
    requires Obeys(app, book) && OnceEach(app.main) && forall i :: 0 <= i < |es| ==> !es[i].RetryRun?
    requires Faithful(app, input, s, es)
    requires s.stored.Some? ==> Sound(book, s.stored.value) && Tidy(app.main, s.stored.value)
    ensures var n := RunAll(app, input, s, es);
            n.stored.Some? ==> Tidy(app.main, n.stored.value)
    decreases |es|
  {
    hide Obeys, Sound, Next, Tidy, OnceEach, FaithfulEvent;
    if es != [] {
      NextTidy(book, app, input, s, es[0]);
      NextSound(book, app, input, s, es[0]);
      RunTidy(book, app, input, Next(app, input, s, es[0]), es[1..]);
    }
  }

  // -- Program order and numbering agree -------------------------------------------------------------

  lemma UpwardsTail(rec: Record, first: string, rest: seq<string>)
    requires Upwards(rec, [first] + rest)
    ensures Upwards(rec, rest)
    ensures forall name :: name in rest && Key(Main, first) in rec.steps && Key(Main, name) in rec.steps ==>
              rec.steps[Key(Main, first)].seqNo < rec.steps[Key(Main, name)].seqNo
  {
    var all := [first] + rest;
    assert all[0] == first && forall i :: 0 <= i < |rest| ==> all[i + 1] == rest[i];
  }

  lemma {:induction false} RegisteredUpwards(p: Processor, rec: Record, seen: seq<Seen>)
    requires Upwards(rec, RouteOf(p, rec.steps, seen).stops)
    ensures Ascending(RouteOf(p, rec.steps, seen).rollbacks)
    decreases p.Left(seen)
  {
    hide Upwards, Ascending;
    match p.At(seen)
    case Return(_) => Few([]);
    case Throw(_, _, _) => Few([]);
    case Pause(key, _) =>
      Few([]);
      if rec.Has(Key(Main, key), StepCompleted) {
        var rest := RouteOf(p, rec.steps, seen + [Slept]);
        UpwardsTail(rec, key, rest.stops);
        RegisteredUpwards(p, rec, seen + [Slept]);
        assert [] + rest.rollbacks == rest.rollbacks;
      }
    case Call(key, o, recovery) =>
      Few([]);
      var k := Key(Main, key);
      if rec.Has(k, StepCompleted) {
        var next := seen + [Got(Clone(rec.steps[k].result))];
        var rest := RouteOf(p, rec.steps, next);
        UpwardsTail(rec, key, rest.stops);
        RegisteredUpwards(p, rec, next);
        RouteNumbered(p, rec, next);
        AscendingJoin(Registers(key, o, rec.steps[k]), rest.rollbacks, rec.steps[k].seqNo);
      } else if rec.Has(k, StepFailed) && !recovery.Uncaught? {
        UpwardsTail(rec, key, RouteOf(p, rec.steps, seen + [Retold(recovery, rec.steps[k], key)]).stops);
        RegisteredUpwards(p, rec, seen + [Retold(recovery, rec.steps[k], key)]);
      }
  }

  lemma Few(rs: seq<Rollback>)
    requires |rs| <= 1
    ensures Ascending(rs)
  {
  }

  lemma AscendingJoin(own: seq<Rollback>, rest: seq<Rollback>, seqNo: nat)
    requires |own| <= 1 && (own != [] ==> own[0].seqNo == seqNo)
    requires Ascending(rest) && forall i :: 0 <= i < |rest| ==> seqNo < rest[i].seqNo
    ensures Ascending(own + rest)
  {
  }

  /**
   * Reverse program order: in a run that no operator `retry` has reset, each delivery compensates the
   * steps the processor passed, last passed first.
   */
  lemma CompensatesInReverse(book: Book, app: App, input: InitInput, es: seq<Event>)
    requires Obeys(app, book) && OnceEach(app.main) && forall i :: 0 <= i < |es| ==> !es[i].RetryRun?
    requires Faithful(app, input, FRESH, es)
    ensures var n := RunAll(app, input, FRESH, es);
            n.stored.Some? ==>
              LatestFirst(RouteIn(app, n.stored.value).rollbacks) == Reverse(RouteIn(app, n.stored.value).rollbacks)
  {
    hide Obeys, RunAll, RouteOf, LatestFirst, Reverse, OnceEach, Upwards, Faithful;
    RunTidy(book, app, input, FRESH, es);
    var n := RunAll(app, input, FRESH, es);
    if n.stored.Some? {
      RegisteredUpwards(app.main, n.stored.value, []);
      LatestFirstReverses(RouteIn(app, n.stored.value).rollbacks);
    }
  }
}
