/** The whole failure sequence: what it leaves behind wherever it stops, and in which order it undoes. */
module Failures {
  import opened Values
  import opened Phases
  import opened Records
  import opened Processors
  import opened Steps
  import opened Ticks
  import opened Journal
  import opened Routes
  import opened Sagas

  // -- Order -----------------------------------------------------------------------

  predicate Descending(rs: seq<Rollback>) {
    forall i, j :: 0 <= i < j < |rs| ==> rs[i].seqNo >= rs[j].seqNo
  }

  predicate Ascending(rs: seq<Rollback>) {
    forall i, j :: 0 <= i < j < |rs| ==> rs[i].seqNo < rs[j].seqNo
  }

  function Reverse(rs: seq<Rollback>): seq<Rollback> {
    if rs == [] then [] else [rs[|rs| - 1]] + Reverse(rs[..|rs| - 1])
  }

  lemma {:induction false} InsertByAgeSorts(r: Rollback, rest: seq<Rollback>)
    requires Descending(rest)
    ensures Descending(InsertByAge(r, rest))
  {
    if rest != [] && r.seqNo <= rest[0].seqNo {
      InsertByAgeSorts(r, rest[1..]);
      var tail := InsertByAge(r, rest[1..]);
      forall j | 0 <= j < |tail| ensures rest[0].seqNo >= tail[j].seqNo {
        assert tail[j] == r || tail[j] in rest[1..];
      }
    }
  }

  lemma {:induction false} InsertByAgeAdds(r: Rollback, rest: seq<Rollback>)
    ensures multiset(InsertByAge(r, rest)) == multiset(rest) + multiset{r}
  {
    if rest != [] && r.seqNo <= rest[0].seqNo {
      InsertByAgeAdds(r, rest[1..]);
      assert rest == [rest[0]] + rest[1..];
    }
  }

  lemma NothingDescends()
    ensures Descending([])
  {
  }

  /** Compensations are taken latest step first, and each registered one exactly once. */
  lemma {:induction false} LatestFirstSorts(rs: seq<Rollback>)
    ensures Descending(LatestFirst(rs)) && multiset(LatestFirst(rs)) == multiset(rs)
  {
    hide InsertByAge, Descending;
    if rs == [] {
      NothingDescends();
    } else {
      var n := |rs| - 1;
      LatestFirstSorts(rs[..n]);
      InsertByAgeSorts(rs[n], LatestFirst(rs[..n]));
      InsertByAgeAdds(rs[n], LatestFirst(rs[..n]));
      assert rs == rs[..n] + [rs[n]];
    }
  }

  /** When steps were numbered in program order, compensation order is reverse program order. */
  lemma {:induction false} LatestFirstReverses(rs: seq<Rollback>)
    requires Ascending(rs)
    ensures LatestFirst(rs) == Reverse(rs)
  {
    if rs != [] {
      var n := |rs| - 1;
      LatestFirstReverses(rs[..n]);
      var rest := LatestFirst(rs[..n]);
      if rest != [] {
        LatestFirstSorts(rs[..n]);
        assert rest[0] in multiset(rest);
        assert rest[0] in rs[..n];
      }
    }
  }

  lemma SameMembers(rs: seq<Rollback>)
    ensures forall i :: 0 <= i < |rs| ==> rs[i] in LatestFirst(rs)
    ensures forall i :: 0 <= i < |LatestFirst(rs)| ==> LatestFirst(rs)[i] in rs
  {
    LatestFirstSorts(rs);
    forall i | 0 <= i < |rs| ensures rs[i] in LatestFirst(rs) {
      assert rs[i] in multiset(LatestFirst(rs));
    }
    forall i | 0 <= i < |LatestFirst(rs)| ensures LatestFirst(rs)[i] in rs {
      assert LatestFirst(rs)[i] in multiset(rs);
    }
  }

  // -- What the sequence keeps --------------------------------------------------------

  ghost predicate MainSame(a: Record, b: Record) {
    && (forall k: Key :: k.phase == Main ==> (k in a.steps <==> k in b.steps))
    && (forall k: Key :: k.phase == Main && k in a.steps && k in b.steps ==> a.steps[k] == b.steps[k])
  }

  ghost predicate Moves(book: Book, a: Tick, b: Tick) {
    Follows(a, b) && Sound(book, b.rec) && MainSame(a.rec, b.rec)
  }

  lemma MovesTrans(book: Book, a: Tick, b: Tick, c: Tick)
    requires Moves(book, a, b) && Moves(book, b, c)
    ensures Moves(book, a, c)
  {
    FollowsTrans(a, b, c);
  }

  lemma SpansMoves(book: Book, a: Tick, b: Tick)
    requires Spans(book, a, b) && a.phase != Main
    ensures Moves(book, a, b) && SameRun(a.rec.instance, b.rec.instance) && Keeps(a.rec.steps, b.rec.steps)
  {
    SpansKeeps(book, a, b);
  }

  /** Writing instance fields, switching phase, or noting that the handler runs. */
  lemma WriteMoves(book: Book, a: Tick, b: Tick)
    requires Sound(book, a.rec)
    requires b.rec.steps == a.rec.steps && b.rec.Counter() == a.rec.Counter() && a.now <= b.now
    requires b.trace == a.trace || exists info :: b.trace == a.trace + [Handled(info)]
    ensures Moves(book, a, b)
  {
  }

  /** What an ended run owes the steps whose compensations are `rs`. */
  predicate Discharged(rec: Record, rs: seq<Rollback>) {
    && (rec.instance.status.Failed? ==> forall i :: 0 <= i < |rs| ==> Undone(rec, rs[i]))
    && (rec.instance.status.CompensationFailed? ==>
          && (forall i :: 0 <= i < |rs| ==> Undone(rec, rs[i]) || GaveUp(rec, rs[i]))
          && (exists i :: 0 <= i < |rs| && GaveUp(rec, rs[i])))
  }

  lemma {:induction false} GaveUpSome(rec: Record, rs: seq<Rollback>)
    ensures GaveUpKeys(rec, rs) == [] <==> forall i :: 0 <= i < |rs| ==> !GaveUp(rec, rs[i])
  {
    if rs != [] {
      GaveUpSome(rec, rs[1..]);
      if GaveUpKeys(rec, rs) == [] {
        forall i | 0 <= i < |rs| ensures !GaveUp(rec, rs[i]) {
          if i > 0 {
            assert rs[i] == rs[1..][i - 1];
          }
        }
      } else if GaveUpKeys(rec, rs[1..]) != [] {
        var i :| 0 <= i < |rs[1..]| && GaveUp(rec, rs[1..][i]);
        assert rs[i + 1] == rs[1..][i];
      }
    }
  }

  /** Compensation as a whole: every registered one has settled, and the report says how. */
  lemma CompensateMoves(book: Book, w: World, app: App, d: Delivery, t: Tick, error: Err)
    requires Sound(book, t.rec)
    ensures var r := Compensate(w, app, d, t, error);
            && Moves(book, t, r.tick) && SameRun(t.rec.instance, r.tick.rec.instance)
            && Added(t, r.tick, act => Handed(act, LatestFirst(t.rollbacks), error))
            && (r.Go? ==> Accounts(r.tick.rec, LatestFirst(t.rollbacks), NO_REPORT, r.value))
            && (r.Stop? ==> !r.signal.Raised? && !r.signal.SettleIncomplete?)
  {
    hide RunRollbacks, Spans, Follows, Sound, MainSame, Moves, Handed, Accounts;
    var r := Compensate(w, app, d, t, error);
    if t.rollbacks == [] {
      WriteMoves(book, t, t);
      AccountsNone(t.rec, NO_REPORT);
    } else {
      var t1 := t.(phase := Compensation);
      var rs := LatestFirst(t.rollbacks);
      WriteMoves(book, t, t1);
      RollbacksAccount(book, w, app, d, t1, rs, error, NO_REPORT);
      RollbackActs(w, app, d, t1, rs, error, NO_REPORT);
      SpansMoves(book, t1, r.tick);
      MovesTrans(book, t, t1, r.tick);
    }
  }

  /** An act of the terminal handler. */
  predicate Told(act: Act, info: FailureInfo) {
    if act.Handled? then act.info == info else act.key.phase == Failure
  }

  lemma HandleMoves(book: Book, w: World, app: App, d: Delivery, t: Tick, info: FailureInfo)
    requires Sound(book, t.rec) && Obeys(app, book)
    ensures var r := HandleFailure(w, app, d, t, info);
            && Moves(book, t, r.tick) && SameRun(t.rec.instance, r.tick.rec.instance)
            && Keeps(t.rec.steps, r.tick.rec.steps)
            && Added(t, r.tick, act => Told(act, info))
            && (r.Stop? ==> !r.signal.Raised? && !r.signal.SettleIncomplete?)
  {
    hide Eval, Spans, Follows, Sound, MainSame, Moves, ProcessorObeys;
    var r := HandleFailure(w, app, d, t, info);
    if app.onFailure.None? {
      WriteMoves(book, t, t);
    } else {
      var t1 := t.(phase := Failure, trace := t.trace + [Handled(info)]);
      WriteMoves(book, t, t1);
      EvalSpans(book, w, app, d, t1, app.onFailure.value(info), []);
      EvalActs(w, app, d, t1, app.onFailure.value(info), []);
      SpansMoves(book, t1, r.tick);
      MovesTrans(book, t, t1, r.tick);
    }
  }

  // -- Where it ends -------------------------------------------------------------------

  /** The stored report names exactly the compensations that completed and those that gave up, in order. */
  predicate Reported(rec: Record, ordered: seq<Rollback>) {
    ordered != [] ==>
      && rec.instance.compensation.Some?
      && rec.instance.compensation.value.rolledBack == UndoneKeys(rec, ordered)
      && FailedKeys(rec.instance.compensation.value.failed) == GaveUpKeys(rec, ordered)
  }

  /** An ended failure has discharged its compensations, reported them, and kept its trigger as its error. */
  ghost predicate Closed(rec: Record, rs: seq<Rollback>, trigger: Err) {
    && Discharged(rec, rs)
    && (rec.instance.status.Failed? || rec.instance.status.CompensationFailed? ==>
          Reported(rec, LatestFirst(rs)) && rec.instance.error == Some(trigger))
  }

  /** What the terminal transition and the report before it write. */
  lemma SettleWrites(w: World, t: Tick, error: Err, report: Report)
    requires t.rec.instance.status.Compensating?
    ensures var r := SettleTerminal(w, t, error, report);
            var i := r.tick.rec.instance;
            && r.tick.rec.steps == t.rec.steps && r.tick.rec.Counter() == t.rec.Counter()
            && r.tick.trace == t.trace && t.now <= r.tick.now
            && (i.status.Compensating? || i.status == if report.failed != [] then CompensationFailed else Failed)
            && i.failureError == t.rec.instance.failureError && i.failedStep == t.rec.instance.failedStep
            && i.output == t.rec.instance.output
            && (!i.status.Compensating? ==>
                  i.error == Some(error) && (report != NO_REPORT ==> i.compensation == Some(report)))
            && (r.Go? ==> r.value == if i.status.Compensating? then Suspended else RunFailed(error))
            && (r.Stop? ==> r.signal.Crash?)
  {
  }

  lemma SettleCloses(book: Book, w: World, t: Tick, rs: seq<Rollback>, error: Err, report: Report)
    requires Sound(book, t.rec) && t.rec.instance.status.Compensating?
    requires Accounts(t.rec, LatestFirst(rs), NO_REPORT, report)
    ensures var r := SettleTerminal(w, t, error, report);
            var i := r.tick.rec.instance;
            && Moves(book, t, r.tick) && r.tick.trace == t.trace
            && (i.status.Compensating? || i.status.Failed? || i.status.CompensationFailed?)
            && i.failureError == t.rec.instance.failureError && i.failedStep == t.rec.instance.failedStep
            && i.output == t.rec.instance.output
            && Closed(r.tick.rec, rs, error)
            && (r.Go? ==> r.value == if i.status.Compensating? then Suspended else RunFailed(error))
            && (r.Stop? ==> r.signal.Crash?)
  {
    hide Moves, Accounts, Closed, SettleTerminal, Sound, LatestFirst;
    var r := SettleTerminal(w, t, error, report);
    SettleWrites(w, t, error, report);
    WriteMoves(book, t, r.tick);
    SettledReport(t.rec, r.tick.rec, rs, error, report);
  }

  lemma SettledReport(a: Record, b: Record, rs: seq<Rollback>, error: Err, report: Report)
    requires Accounts(a, LatestFirst(rs), NO_REPORT, report) && b.steps == a.steps
    requires b.instance.status.Failed? ==> report.failed == []
    requires b.instance.status.CompensationFailed? ==> report.failed != []
    requires b.instance.status.Failed? || b.instance.status.CompensationFailed? ==>
               b.instance.error == Some(error) && (report != NO_REPORT ==> b.instance.compensation == Some(report))
    ensures Closed(b, rs, error)
  {
    var ordered := LatestFirst(rs);
    SameMembers(rs);
    KeepsKeys(a, b, ordered);
    GaveUpSome(b, ordered);
    assert |FailedKeys(report.failed)| == |report.failed|;
    assert report.rolledBack == UndoneKeys(b, ordered);
    assert FailedKeys(report.failed) == GaveUpKeys(b, ordered);
    if b.instance.status.CompensationFailed? {
      var i :| 0 <= i < |ordered| && GaveUp(b, ordered[i]);
      assert ordered[i] in rs;
    }
    if ordered != [] {
      assert Undone(a, ordered[0]) || GaveUp(a, ordered[0]);
      assert UndoneKeys(b, ordered) != [] || GaveUpKeys(b, ordered) != [];
    }
    forall i | 0 <= i < |rs| ensures Undone(b, rs[i]) || GaveUp(b, rs[i]) {
      var j :| 0 <= j < |ordered| && ordered[j] == rs[i];
      assert Undone(a, ordered[j]) || GaveUp(a, ordered[j]);
    }
  }

  /** An act of the failure sequence: nobody hears of any error but the trigger, and no forward step acts. */
  predicate FailureAct(act: Act, rs: seq<Rollback>, trigger: Err, failedStep: Option<string>) {
    if act.Handled? then act.info.error == trigger && act.info.failedStep == failedStep
    else act.key.phase == Failure || Handed(act, LatestFirst(rs), trigger)
  }

  function TriggerOf(i: Instance, error: Err): Err {
    i.failureError.GetOr(error)
  }

  function FailedStepOf(t: Tick): Option<string> {
    t.rec.instance.failedStep.OrElse(t.failedStep)
  }

  /** Wherever the sequence stops. */
  ghost predicate FailureEnds(book: Book, t: Tick, error: Err, u: Tick) {
    var before, after := t.rec.instance, u.rec.instance;
    && Moves(book, t, u)
    && (after.status.Compensating? || after.status.Failed? || after.status.CompensationFailed?
        || after.status.Cancelled?)
    && after.output == before.output
    && after.failureError == (if before.status.Compensating? then before.failureError else Some(error))
    && after.failedStep == (if before.status.Compensating? then before.failedStep
                            else t.failedStep.OrElse(before.failedStep))
    && Closed(u.rec, t.rollbacks, TriggerOf(before, error))
    && Added(t, u, act => FailureAct(act, t.rollbacks, TriggerOf(before, error), FailedStepOf(t)))
  }

  /** Entering the sequence. */
  function Enter(w: World, t: Tick, error: Err): Eff<()> {
    if t.rec.instance.status.Compensating? then Go(t, ())
    else SaveInstance(w, t, NO_CHANGE.(status := Some(Compensating), failureError := Some(error),
                                       failedStep := t.failedStep))
  }

  /** Between entry and the terminal transition. */
  ghost predicate Underway(book: Book, t: Tick, error: Err, u: Tick) {
    FailureEnds(book, t, error, u) && u.rec.instance.status.Compensating?
  }

  lemma EnterUnderway(book: Book, w: World, t: Tick, error: Err)
    requires Sound(book, t.rec)
    ensures var r := Enter(w, t, error);
            && Underway(book, t, error, r.tick) && (r.Stop? ==> r.signal.Crash?) && Sound(book, r.tick.rec)
            && r.tick.rollbacks == t.rollbacks
  {
    hide Follows, Sound, MainSame;
    WriteMoves(book, t, Enter(w, t, error).tick);
  }

  lemma UnderwayOn(book: Book, t: Tick, error: Err, u: Tick, v: Tick)
    requires Underway(book, t, error, u)
    requires Moves(book, u, v) && SameRun(u.rec.instance, v.rec.instance)
    requires Added(u, v, act => FailureAct(act, t.rollbacks, TriggerOf(t.rec.instance, error), FailedStepOf(t)))
    ensures Underway(book, t, error, v) && Sound(book, v.rec)
  {
    hide Follows, Sound, MainSame, FailureAct;
    MovesTrans(book, t, u, v);
    MovesSound(book, u, v);
    AddedTrans(t, u, v, act => FailureAct(act, t.rollbacks, TriggerOf(t.rec.instance, error), FailedStepOf(t)));
  }

  lemma MovesSound(book: Book, a: Tick, b: Tick)
    requires Moves(book, a, b)
    ensures Sound(book, b.rec)
  {
  }

  /** A yield leaves the run compensating; a cancellation ends it. */
  lemma UnwindEnds(book: Book, w: World, t: Tick, error: Err, u: Tick, signal: Signal)
    requires Underway(book, t, error, u) && Sound(book, u.rec) && !signal.Raised? && !signal.SettleIncomplete?
    ensures var r := Unwind(w, u, signal);
            && FailureEnds(book, t, error, r.tick)
            && (r.Go? ==> r.value.Parked? || r.value.RunCancelled?) && (r.Stop? ==> r.signal.Crash?)
  {
    hide Follows, Sound, MainSame, FailureAct;
    var r := Unwind(w, u, signal);
    WriteMoves(book, u, r.tick);
    MovesTrans(book, t, u, r.tick);
    AddedTrans(t, u, r.tick, act => FailureAct(act, t.rollbacks, TriggerOf(t.rec.instance, error), FailedStepOf(t)));
  }

  /** The failure sequence from any state: what it has done when it ends, parks, or is cut short. */
  lemma FailureSequenceEnds(book: Book, w: World, app: App, d: Delivery, t: Tick, error: Err)
    requires Sound(book, t.rec) && Obeys(app, book)
    ensures var r := FailureSequence(w, app, d, t, error);
            FailureEnds(book, t, error, r.tick) && (r.Stop? ==> r.signal.Crash?) && (r.Go? ==> !r.value.RunCompleted?)
  {
    hide Follows, Sound, MainSame, Moves, Compensate, HandleFailure, SettleTerminal, FailureAct, Closed, Accounts,
         Added,
         Handed, Told, Obeys, FailureEnds, Underway, EndRun, SaveInstance, CompletedMainSteps;
    var r := FailureSequence(w, app, d, t, error);
    EnterUnderway(book, w, t, error);
    var entered := Enter(w, t, error);
    if entered.Stop? {
      UnderwayEnds(book, t, error, entered.tick);
    } else {
      var t1 := entered.tick;
      var trigger := TriggerOf(t.rec.instance, error);
      CompensateMoves(book, w, app, d, t1, trigger);
      var undone := Compensate(w, app, d, t1, trigger);
      HandedFits(t, t1, undone.tick, error);
      UnderwayOn(book, t, error, t1, undone.tick);
      if undone.Stop? {
        UnwindEnds(book, w, t, error, undone.tick, undone.signal);
      } else {
        var info := FailureInfo(trigger, FailedStepOf(t), CompletedMainSteps(undone.tick.rec), undone.value);
        HandleMoves(book, w, app, d, undone.tick, info);
        var handled := HandleFailure(w, app, d, undone.tick, info);
        ToldFits(t, undone.tick, handled.tick, error, info);
        UnderwayOn(book, t, error, undone.tick, handled.tick);
        if handled.Stop? {
          UnwindEnds(book, w, t, error, handled.tick, handled.signal);
        } else {
          AccountsKeep(undone.tick.rec, handled.tick.rec, LatestFirst(t.rollbacks), undone.value);
          CloseEnds(book, w, t, error, handled.tick, undone.value);
        }
      }
    }
  }

  lemma UnderwayEnds(book: Book, t: Tick, error: Err, u: Tick)
    requires Underway(book, t, error, u)
    ensures FailureEnds(book, t, error, u)
  {
  }

  lemma HandedFits(t: Tick, u: Tick, v: Tick, error: Err)
    requires u.rollbacks == t.rollbacks
    requires Added(u, v, act => Handed(act, LatestFirst(u.rollbacks), TriggerOf(t.rec.instance, error)))
    ensures Added(u, v, act => FailureAct(act, t.rollbacks, TriggerOf(t.rec.instance, error), FailedStepOf(t)))
  {
  }

  lemma ToldFits(t: Tick, u: Tick, v: Tick, error: Err, info: FailureInfo)
    requires info.error == TriggerOf(t.rec.instance, error) && info.failedStep == FailedStepOf(t)
    requires Added(u, v, act => Told(act, info))
    ensures Added(u, v, act => FailureAct(act, t.rollbacks, TriggerOf(t.rec.instance, error), FailedStepOf(t)))
  {
  }

  lemma AccountsKeep(a: Record, b: Record, rs: seq<Rollback>, report: Report)
    requires Accounts(a, rs, NO_REPORT, report) && Keeps(a.steps, b.steps)
    ensures Accounts(b, rs, NO_REPORT, report)
  {
    KeepsKeys(a, b, rs);
    forall i | 0 <= i < |rs| ensures Undone(b, rs[i]) || GaveUp(b, rs[i]) {
      assert Undone(a, rs[i]) || GaveUp(a, rs[i]);
    }
  }

  lemma CloseEnds(book: Book, w: World, t: Tick, error: Err, u: Tick, report: Report)
    requires Underway(book, t, error, u) && Sound(book, u.rec)
    requires Accounts(u.rec, LatestFirst(t.rollbacks), NO_REPORT, report)
    ensures var r := SettleTerminal(w, u, TriggerOf(t.rec.instance, error), report);
            FailureEnds(book, t, error, r.tick) && (r.Stop? ==> r.signal.Crash?) && (r.Go? ==> !r.value.RunCompleted?)
  {
    hide Follows, Sound, MainSame, FailureAct, Closed, Accounts, SettleTerminal;
    var trigger := TriggerOf(t.rec.instance, error);
    SettleCloses(book, w, u, t.rollbacks, trigger, report);
    var r := SettleTerminal(w, u, trigger, report);
    MovesTrans(book, t, u, r.tick);
    AddedTrans(t, u, r.tick, act => FailureAct(act, t.rollbacks, trigger, FailedStepOf(t)));
  }
}
