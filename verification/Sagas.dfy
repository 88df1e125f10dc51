/** The failure sequence: compensations latest first, then the terminal handler, then the terminal status. */
module Sagas {
  import opened Values
  import opened Phases
  import opened Retries
  import opened Records
  import opened Processors
  import opened Steps
  import opened Ticks
  import opened Journal
  import opened StepCalls
  import opened Routes

  // -- Acts ----------------------------------------------------------------------

  predicate Closing(act: Act) {
    act.Retried? || act.Ended?
  }

  /** Every retry or end directly follows the start it closes. */
  predicate Paired(trace: seq<Act>, from: nat) {
    forall i :: from <= i < |trace| && Closing(trace[i]) ==>
      i > from && trace[i - 1].Started? && trace[i - 1].key == trace[i].key && trace[i - 1].attempt == trace[i].attempt
  }

  /** The acts a tick added after `a`. */
  ghost predicate Added(a: Tick, b: Tick, fits: Act -> bool) {
    && a.trace <= b.trace
    && (forall i :: |a.trace| <= i < |b.trace| ==> fits(b.trace[i]))
    && Paired(b.trace, |a.trace|)
  }

  /** A retry is allowed up to the resolved attempts, or for ever when polling without configured attempts. */
  predicate LimitFits(app: App, o: StepOptions, limit: Option<nat>) {
    limit == Some(Policy(app, o).attempts) || (limit.None? && Configured(app, o).None?)
  }

  predicate About(app: App, act: Act, k: Key, o: StepOptions, arg: Argument) {
    && !act.Handled? && act.key == k && (act.Started? ==> act.argument == arg)
    && (act.Retried? ==> LimitFits(app, o, act.limit))
  }

  lemma AddedTrans(a: Tick, b: Tick, c: Tick, fits: Act -> bool)
    requires Added(a, b, fits) && Added(b, c, fits)
    ensures Added(a, c, fits)
  {
    forall i | |a.trace| <= i < |c.trace| && Closing(c.trace[i])
      ensures i > |a.trace| && c.trace[i - 1].Started? && c.trace[i - 1].key == c.trace[i].key
              && c.trace[i - 1].attempt == c.trace[i].attempt
    {
      if i < |b.trace| {
        assert b.trace[i] == c.trace[i] && b.trace[i - 1] == c.trace[i - 1];
      }
    }
  }

  lemma AddedWeaken(a: Tick, b: Tick, narrow: Act -> bool, wide: Act -> bool)
    requires Added(a, b, narrow) && forall act :: narrow(act) ==> wide(act)
    ensures Added(a, b, wide)
  {
  }

  /** A failed body leaves one act at most, closing its own attempt. */
  lemma ErrorActs(w: World, app: App, d: Delivery, t: Tick, key: string, o: StepOptions, a: Attempt, b: Body)
    requires b.Fails? || b.RetryLater?
    ensures var r := HandleStepError(w, app, d, t, key, o, a, b);
            && r.tick.phase == t.phase
            && |r.tick.trace| == |t.trace| + 1 && r.tick.trace[..|t.trace|] == t.trace
            && var act := r.tick.trace[|t.trace|];
               && Closing(act) && act.key == Key(t.phase, key) && act.attempt == a.attempts
               && (act.Retried? ==> LimitFits(app, o, act.limit))
  {
    hide Policy, Delay, RetryStep, ErrorOf, Exhausted;
  }

  lemma AttemptActs(w: World, app: App, d: Delivery, t: Tick, key: string, o: StepOptions, arg: Argument, a: Attempt)
    ensures var r := RunAttempt(w, app, d, t, key, o, arg, a);
            r.tick.phase == t.phase && Added(t, r.tick, act => About(app, act, Key(t.phase, key), o, arg))
  {
    hide HandleStepError, Policy, Added, About;
    var k := Key(t.phase, key);
    var r := RunAttempt(w, app, d, t, key, o, arg, a);
    var start := Started(k, a.attempts, t.now, arg);
    var p1 := Pass(w, t.(trace := t.trace + [start]));
    var b := Thrown(d, w.body(k, a.attempts));
    if p1.Stop? || b.NestedYield? || b.NestedCancel? {
      AttemptAdds(app, o, t, r.tick, start, []);
    } else if b.Succeeds? {
      AttemptAdds(app, o, t, r.tick, start, [Ended(k, a.attempts)]);
    } else {
      ErrorActs(w, app, d, p1.tick, key, o, a, b);
      var closing := r.tick.trace[|t.trace| + 1];
      assert r.tick.trace[..|t.trace| + 1] == t.trace + [start];
      AttemptAdds(app, o, t, r.tick, start, [closing]);
    }
  }

  lemma AttemptAdds(app: App, o: StepOptions, t: Tick, u: Tick, start: Act, closing: seq<Act>)
    requires start.Started? && u.trace == t.trace + [start] + closing
    requires closing == [] || (|closing| == 1 && Closing(closing[0]) && closing[0].key == start.key
                               && closing[0].attempt == start.attempt
                               && (closing[0].Retried? ==> LimitFits(app, o, closing[0].limit)))
    ensures Added(t, u, act => About(app, act, start.key, o, start.argument))
  {
    hide LimitFits;
  }

  lemma {:induction false} LoopActs(w: World, app: App, d: Delivery, t: Tick, key: string, o: StepOptions,
                                    arg: Argument, a: Attempt)
    ensures var r := AttemptLoop(w, app, d, t, key, o, arg, a);
            r.tick.phase == t.phase && Added(t, r.tick, act => About(app, act, Key(t.phase, key), o, arg))
    decreases if a.attempts < Policy(app, o).attempts then Policy(app, o).attempts - a.attempts else 0
  {
    hide RunAttempt, Policy, About;
    AttemptActs(w, app, d, t, key, o, arg, a);
    var r := RunAttempt(w, app, d, t, key, o, arg, a);
    if r.Go? && r.value.None? {
      LoopActs(w, app, d, r.tick, key, o, arg, a.(attempts := a.attempts + 1));
    }
  }

  /** Every act of a step call concerns that step, and its body is handed the given argument. */
  lemma StepActs(w: World, app: App, d: Delivery, t: Tick, key: string, o: StepOptions, arg: Argument)
    ensures var r := ExecuteStep(w, app, d, t, key, o, arg);
            r.tick.phase == t.phase && Added(t, r.tick, act => About(app, act, Key(t.phase, key), o, arg))
  {
    hide AttemptLoop, About;
    if !SettlementReplay(d, t) {
      var begin := BeginOrReplay(w, d, t, key, o);
      assert begin.tick.trace == t.trace && begin.tick.phase == t.phase;
      if begin.Go? && begin.value.Live? {
        LoopActs(w, app, d, begin.tick, key, o, arg, begin.value.attempt);
      }
    }
  }

  predicate InPhase(act: Act, phase: Phase) {
    !act.Handled? && act.key.phase == phase
  }

  lemma SleepActs(w: World, d: Delivery, t: Tick, key: string, delay: int)
    ensures var r := SleepFor(w, d, t, key, delay); r.tick.phase == t.phase && r.tick.trace == t.trace
  {
  }

  lemma {:induction false} EvalActs(w: World, app: App, d: Delivery, t: Tick, p: Processor, seen: seq<Seen>)
    ensures var r := Eval(w, app, d, t, p, seen);
            r.tick.phase == t.phase && Added(t, r.tick, act => InPhase(act, t.phase))
    decreases p.Left(seen)
  {
    hide ExecuteStep, SleepFor;
    match p.At(seen)
    case Return(_) =>
    case Throw(_, _, _) =>
    case Pause(key, delay) =>
      SleepActs(w, d, t, key, delay);
      var c := SleepFor(w, d, t, key, delay);
      if c.Go? {
        EvalActs(w, app, d, c.tick, p, seen + [Slept]);
      }
    case Call(key, o, recovery) =>
      StepActs(w, app, d, t, key, o, Nothing);
      var c := ExecuteStep(w, app, d, t, key, o, Nothing);
      AddedWeaken(t, c.tick, act => About(app, act, Key(t.phase, key), o, Nothing), act => InPhase(act, t.phase));
      if GoesOn(recovery, c) {
        EvalActs(w, app, d, c.tick, p, seen + [SeenOf(recovery, c)]);
        AddedTrans(t, c.tick, Eval(w, app, d, t, p, seen).tick, act => InPhase(act, t.phase));
      }
  }

  // -- Compensations ---------------------------------------------------------------

  function CompKey(r: Rollback): Key {
    Key(Compensation, r.key)
  }

  predicate Undone(rec: Record, r: Rollback) {
    rec.Has(CompKey(r), StepCompleted)
  }

  predicate GaveUp(rec: Record, r: Rollback) {
    rec.Has(CompKey(r), StepFailed)
  }

  /** The names, in order, of the compensations that completed. */
  function UndoneKeys(rec: Record, rs: seq<Rollback>): seq<string> {
    if rs == [] then [] else (if Undone(rec, rs[0]) then [rs[0].key] else []) + UndoneKeys(rec, rs[1..])
  }

  function GaveUpKeys(rec: Record, rs: seq<Rollback>): seq<string> {
    if rs == [] then [] else (if GaveUp(rec, rs[0]) then [rs[0].key] else []) + GaveUpKeys(rec, rs[1..])
  }

  function FailedKeys(failed: seq<(string, Err)>): seq<string> {
    seq(|failed|, i requires 0 <= i < |failed| => failed[i].0)
  }

  /** Every compensation of `rs` has settled, and `after` adds to `before` exactly what became of each. */
  ghost predicate Accounts(rec: Record, rs: seq<Rollback>, before: Report, after: Report) {
    && (forall i :: 0 <= i < |rs| ==> Undone(rec, rs[i]) || GaveUp(rec, rs[i]))
    && after.rolledBack == before.rolledBack + UndoneKeys(rec, rs)
    && FailedKeys(after.failed) == FailedKeys(before.failed) + GaveUpKeys(rec, rs)
  }

  /** A compensation's handler is told what its step returned and what set the failure off. */
  predicate Handed(act: Act, rs: seq<Rollback>, error: Err) {
    && !act.Handled? && act.key.phase == Compensation
    && (exists i :: 0 <= i < |rs| && rs[i].key == act.key.name
                    && (act.Started? ==> act.argument == Undo(rs[i].output, error)))
  }

  lemma {:induction false} KeepsKeys(a: Record, b: Record, rs: seq<Rollback>)
    requires Keeps(a.steps, b.steps)
    requires forall i :: 0 <= i < |rs| ==> Undone(a, rs[i]) || GaveUp(a, rs[i])
    ensures UndoneKeys(b, rs) == UndoneKeys(a, rs) && GaveUpKeys(b, rs) == GaveUpKeys(a, rs)
  {
    if rs != [] {
      KeepsKeys(a, b, rs[1..]);
      assert Undone(a, rs[0]) || GaveUp(a, rs[0]);
    }
  }

  /** What running compensations in order does, however often it is cut short. */
  lemma {:induction false} RollbacksAccount(book: Book, w: World, app: App, d: Delivery, t: Tick, rs: seq<Rollback>,
                                            error: Err, report: Report)
    requires Sound(book, t.rec) && t.phase == Compensation
    ensures var r := RunRollbacks(w, app, d, t, rs, error, report);
            && Spans(book, t, r.tick)
            && (r.Go? ==> Accounts(r.tick.rec, rs, report, r.value))
            && (r.Stop? ==> !r.signal.Raised? && !r.signal.SettleIncomplete?)
    decreases |rs|
  {
    hide Spans, ExecuteStep, Sound, StepEnds, Accounts;
    var r := RunRollbacks(w, app, d, t, rs, error, report);
    if rs == [] {
      RestSpans(book, t, r.tick);
      AccountsNone(t.rec, report);
    } else {
      var first := rs[0];
      var o := RollbackOptions(app, first);
      StepSpans(book, w, app, d, t, first.key, o, Undo(first.output, error));
      var c := ExecuteStep(w, app, d, t, first.key, o, Undo(first.output, error));
      SpansSound(book, t, c.tick);
      EndsSettled(t, c, first.key, o);
      if c.Go? || c.signal.Raised? {
        var next := if c.Go? then report.(rolledBack := report.rolledBack + [first.key])
                    else report.(failed := report.failed + [(first.key, c.signal.err)]);
        RollbacksAccount(book, w, app, d, c.tick, rs[1..], error, next);
        SpansTrans(book, t, c.tick, r.tick);
        SpansKeeps(book, c.tick, r.tick);
        if r.Go? {
          AccountsMore(c.tick.rec, r.tick.rec, rs, report, next, r.value);
        }
      }
    }
  }

  lemma EndsSettled(t: Tick, c: Eff<Value>, key: string, o: StepOptions)
    requires StepEnds(t, c, key, o)
    ensures c.Go? ==> c.tick.rec.Has(Key(t.phase, key), StepCompleted)
    ensures c.Stop? && c.signal.Raised? ==> c.tick.rec.Has(Key(t.phase, key), StepFailed)
    ensures c.Stop? ==> !c.signal.SettleIncomplete?
  {
  }

  lemma AccountsNone(rec: Record, report: Report)
    ensures Accounts(rec, [], report, report)
  {
    assert report.rolledBack + [] == report.rolledBack;
    assert FailedKeys(report.failed) + [] == FailedKeys(report.failed);
  }

  lemma AccountsMore(mid: Record, rec: Record, rs: seq<Rollback>, report: Report, next: Report, after: Report)
    requires rs != [] && Keeps(mid.steps, rec.steps)
    requires Accounts(rec, rs[1..], next, after)
    requires (Undone(mid, rs[0]) && next == report.(rolledBack := report.rolledBack + [rs[0].key]))
             || (GaveUp(mid, rs[0]) && exists e: Err :: next == report.(failed := report.failed + [(rs[0].key, e)]))
    ensures Accounts(rec, rs, report, after)
  {
    assert forall i :: 1 <= i < |rs| ==> rs[i] == rs[1..][i - 1];
    var undone, gaveUp := UndoneKeys(rec, rs[1..]), GaveUpKeys(rec, rs[1..]);
    if Undone(mid, rs[0]) && next == report.(rolledBack := report.rolledBack + [rs[0].key]) {
      assert (report.rolledBack + [rs[0].key]) + undone == report.rolledBack + ([rs[0].key] + undone);
      assert [] + gaveUp == gaveUp;
    } else {
      assert FailedKeys(next.failed) == FailedKeys(report.failed) + [rs[0].key];
      assert (FailedKeys(report.failed) + [rs[0].key]) + gaveUp == FailedKeys(report.failed) + ([rs[0].key] + gaveUp);
      assert [] + undone == undone;
    }
  }

  /** Who is told what while compensations run. */
  lemma {:induction false} RollbackActs(w: World, app: App, d: Delivery, t: Tick, rs: seq<Rollback>, error: Err,
                                        report: Report)
    requires t.phase == Compensation
    ensures var r := RunRollbacks(w, app, d, t, rs, error, report);
            Added(t, r.tick, act => Handed(act, rs, error))
    decreases |rs|
  {
    hide ExecuteStep;
    var r := RunRollbacks(w, app, d, t, rs, error, report);
    if rs != [] {
      var first := rs[0];
      var o := RollbackOptions(app, first);
      var c := ExecuteStep(w, app, d, t, first.key, o, Undo(first.output, error));
      StepActs(w, app, d, t, first.key, o, Undo(first.output, error));
      AddedWeaken(t, c.tick, act => About(app, act, CompKey(first), o, Undo(first.output, error)),
                  act => Handed(act, rs, error));
      if c.Go? || c.signal.Raised? {
        var next := if c.Go? then report.(rolledBack := report.rolledBack + [first.key])
                    else report.(failed := report.failed + [(first.key, c.signal.err)]);
        RollbackActs(w, app, d, c.tick, rs[1..], error, next);
        HandedTail(rs, error);
        AddedWeaken(c.tick, r.tick, act => Handed(act, rs[1..], error), act => Handed(act, rs, error));
        AddedTrans(t, c.tick, r.tick, act => Handed(act, rs, error));
      }
    }
  }

  lemma HandedTail(rs: seq<Rollback>, error: Err)
    requires rs != []
    ensures forall act :: Handed(act, rs[1..], error) ==> Handed(act, rs, error)
  {
    forall act | Handed(act, rs[1..], error) ensures Handed(act, rs, error) {
      var i :| 0 <= i < |rs[1..]| && rs[1..][i].key == act.key.name
               && (act.Started? ==> act.argument == Undo(rs[1..][i].output, error));
      assert rs[i + 1] == rs[1..][i];
    }
  }
}
