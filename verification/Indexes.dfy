/** The Redis layout as a value: hashes plus a status index, against the in-memory records. */
module Indexes {
  import opened Values
  import opened Phases
  import opened Records
  import opened MemoryStores

  /**
   * The key space. `steps` holds the fields of every steps hash, `active` the members of every active
   * set, and `done` the members of every done bucket with the time their run ended.
   */
  datatype Redis = Redis(
    hashes: map<string, Instance>,
    steps: map<(string, Key), Step>,
    active: set<(string, string)>,
    done: map<(string, Status, string), nat>,
    queues: set<string>)
  {
    // -- Commands ----------------------------------------------------------------------

    function SAdd(queue: string, id: string): Redis {
      this.(active := active + {(queue, id)})
    }

    function SRem(queue: string, id: string): Redis {
      this.(active := active - {(queue, id)})
    }

    function ZAdd(queue: string, status: Status, id: string, score: nat): Redis {
      this.(done := done[(queue, status, id) := score])
    }

    /** Drop an id from every done bucket of a queue. */
    function ClearDone(queue: string, id: string): Redis {
      this.(done := done - {(queue, Completed, id), (queue, Failed, id), (queue, Cancelled, id),
                            (queue, CompensationFailed, id)})
    }

    function HSet(id: string, instance: Instance): Redis {
      this.(hashes := hashes[id := instance])
    }

    // -- Scripts -----------------------------------------------------------------------

    function BeginTickScript(input: InitInput, now: nat): Redis {
      if input.id in hashes then
        var was := hashes[input.id];
        if was.status.Terminal() then this
        else
          HSet(input.id, was.(runCount := was.runCount + 1,
                              status := if was.status.Compensating? then Compensating else Running, updatedAt := now))
          .SAdd(input.queueName, input.id)
      else
        HSet(input.id, BeginTick(None, input, now).instance).(queues := queues + {input.queueName})
        .ClearDone(input.queueName, input.id).SAdd(input.queueName, input.id)
    }

    function UpdateScript(id: string, patch: Patch, now: nat): Redis {
      if id !in hashes then this
      else
        var was := hashes[id];
        HSet(id, Merge(was, patch.(input := Clone(patch.input), output := Clone(patch.output),
                                   updatedAt := patch.updatedAt.OrElse(Some(now)))))
        .Move(was.queueName, id, was.status, patch.status.GetOr(was.status), now)
    }

    /** The index follows a change of status, and only a change. */
    function Move(queue: string, id: string, was: Status, next: Status, now: nat): Redis {
      if next == was then this
      else if next.Terminal() then SRem(queue, id).ZAdd(queue, next, id, now)
      else ClearDone(queue, id).SAdd(queue, id)
    }

    function TerminalScript(id: string, ending: Ending, now: nat): Redis {
      if id !in hashes then this
      else
        HSet(id, Merge(hashes[id], EndingPatch(ending, now)))
        .SRem(hashes[id].queueName, id).ZAdd(hashes[id].queueName, ending.Target(), id, now)
    }

    function BeginStepScript(id: string, key: Key, kind: StepKind, now: nat, nextRunAt: Option<nat>)
      : (Redis, BeginResult)
    {
      if id !in hashes then (this, StepMissing)
      else if hashes[id].status.Cancelled? then (this, StepCancelled)
      else if (id, key) in steps then (this, StepExisting(steps[(id, key)]))
      else
        var seqNo := hashes[id].stepSeq.GetOr(0) + 1;
        var step := Step(kind, seqNo, StepRunning, Undefined, None, 1, now, None, None, nextRunAt);
        (HSet(id, hashes[id].(stepSeq := Some(seqNo), updatedAt := now)).(steps := steps[(id, key) := step]),
         StepCreated(seqNo))
    }

    function HSetStep(id: string, key: Key, step: Step): Redis {
      this.(steps := steps[(id, key) := step.(result := Clone(step.result))])
    }

    /** Read the step, merge the patch as it is, and write the result back. */
    function PatchStep(id: string, key: Key, patch: StepPatch): Redis {
      if (id, key) in steps then
        var s := steps[(id, key)];
        HSetStep(id, key, patch.On(s, true).(result := patch.result.GetOr(s.result)))
      else this
    }

    function HDelSteps(id: string, keys: set<Key>): Redis {
      this.(steps := steps - set k | k in keys :: (id, k))
    }

    /** `HDEL` of the fields an operator's retry forgets. */
    function HDelFailure(id: string, all: bool): Redis {
      if id !in hashes then this
      else
        var kept := hashes[id].(error := None, failedAt := None, compensation := None);
        HSet(id, if all then kept.(failureError := None, failedStep := None) else kept)
    }

    function Remove(queue: string, id: string): Redis {
      this.(hashes := hashes - {id}, steps := map p | p in steps && p.0 != id :: steps[p])
      .SRem(queue, id).ClearDone(queue, id)
    }

    function RemoveAll(queue: string, ids: seq<string>): Redis {
      if ids == [] then this else RemoveAll(queue, ids[..|ids| - 1]).Remove(queue, ids[|ids| - 1])
    }

    /** Every id in a queue's index. */
    function Indexed(queue: string): set<string> {
      (set p | p in active && p.0 == queue :: p.1)
      + (set p | p in done.Keys && p.0 == queue && p.1.Terminal() :: p.2)
    }

    function Wipe(queue: string): Redis {
      var ids := Indexed(queue);
      Redis(hashes - ids, map p | p in steps && p.0 !in ids :: steps[p],
            set p | p in active && p.0 != queue,
            map p | p in done && !(p.0 == queue && p.1.Terminal()) :: done[p],
            queues - {queue})
    }
  }

  const EMPTY := Redis(map[], map[], {}, map[], {})

  /** The fields a terminal transition writes. An output that is not there is not written. */
  function EndingPatch(ending: Ending, now: nat): Patch {
    match ending
    case Finish(output) =>
      NO_CHANGE.(status := Some(Completed), output := Clone(output), completedAt := Some(now), updatedAt := Some(now))
    case Fail(error) =>
      NO_CHANGE.(status := Some(Failed), error := Some(error), failedAt := Some(now), updatedAt := Some(now))
    case FailCompensation(error) =>
      NO_CHANGE.(status := Some(CompensationFailed), error := Some(error), failedAt := Some(now),
                 updatedAt := Some(now))
    case Cancel => NO_CHANGE.(status := Some(Cancelled), updatedAt := Some(now))
  }

  // -- Agreement -------------------------------------------------------------------------

  /** What the index says about `id`. */
  ghost predicate IndexedAs(r: Redis, id: string, queue: string, status: Status, at: nat) {
    && (forall q :: (q, id) in r.active <==> q == queue && !status.Terminal())
    && (forall q, s: Status :: s.Terminal() ==> ((q, s, id) in r.done <==> q == queue && s == status))
    && (status.Terminal() ==> r.done[(queue, status, id)] == at)
  }

  ghost predicate Unindexed(r: Redis, id: string) {
    && (forall q :: (q, id) !in r.active)
    && (forall q, s: Status :: s.Terminal() ==> (q, s, id) !in r.done)
  }

  /** One run in both forms. */
  ghost predicate AgreeAt(rec: Record, r: Redis, id: string) {
    && id in r.hashes && r.hashes[id] == rec.instance && rec.instance.queueName in r.queues
    && (rec.instance.status.Terminal() ==> rec.terminalAt.Some?)
    && (forall k :: (id, k) in r.steps <==> k in rec.steps)
    && (forall k :: k in rec.steps ==> r.steps[(id, k)] == rec.steps[k])
    && IndexedAs(r, id, rec.instance.queueName, rec.instance.status, rec.terminalAt.GetOr(0))
  }

  ghost predicate AbsentAt(r: Redis, id: string) {
    id !in r.hashes && (forall k :: (id, k) !in r.steps) && Unindexed(r, id)
  }

  /**
   * The Redis form holds the same runs as the records, and its index is what a scan of them would find:
   * an id is in its queue's active set iff its run has not ended, and in bucket `s` iff it ended in `s`.
   */
  ghost predicate Agree(m: Runs, r: Redis) {
    forall id :: if id in m then AgreeAt(m[id], r, id) else AbsentAt(r, id)
  }

  datatype Op =
    | Begin(input: InitInput)
    | Update(id: string, patch: Patch)
    | End(id: string, ending: Ending)
    | BeginStep(id: string, key: Key, kind: StepKind, nextRunAt: Option<nat>)
    | SaveStep(id: string, key: Key, step: Step)
    | UpdateStep(id: string, key: Key, changes: StepPatch)
    | RemoveSteps(id: string, keys: set<Key>)
    | ClearFields(id: string, all: bool)
    | Remove(queue: string, ids: seq<string>)
    | Wipe(queue: string)
    | Register(queue: string)

  /** The simple form: what an operation does to the records. */
  function Apply(m: Runs, op: Op, now: nat): Runs {
    match op
    case Begin(input) => m[input.id := BeginTick(Lookup(m, input.id), input, now)]
    case Update(id, patch) => if id in m then m[id := m[id].Update(patch, now)] else m
    case End(id, ending) => if id in m then m[id := m[id].End(ending, now)] else m
    case BeginStep(id, key, kind, due) => if id in m then m[id := m[id].BeginStep(key, kind, now, due).0] else m
    case SaveStep(id, key, step) => if id in m then m[id := m[id].SaveStep(key, step)] else m
    case UpdateStep(id, key, patch) => if id in m then m[id := m[id].UpdateStep(key, patch)] else m
    case RemoveSteps(id, keys) => if id in m then m[id := m[id].RemoveSteps(keys)] else m
    case ClearFields(id, all) =>
      if id in m then m[id := if all then m[id].ClearFailure() else m[id].ClearOutcome()] else m
    case Remove(_, ids) => m - (set id | id in ids)
    case Wipe(queue) => Wiped(m, queue)
    case Register(_) => m
  }

  /** The fast form: what the scripts and pipelines do to the Redis keys. */
  function ApplyRedis(r: Redis, op: Op, now: nat): Redis {
    match op
    case Begin(input) => r.BeginTickScript(input, now)
    case Update(id, patch) => r.UpdateScript(id, patch, now)
    case End(id, ending) => r.TerminalScript(id, ending, now)
    case BeginStep(id, key, kind, due) => r.BeginStepScript(id, key, kind, now, due).0
    case SaveStep(id, key, step) => r.HSetStep(id, key, step)
    case UpdateStep(id, key, patch) => r.PatchStep(id, key, patch)
    case RemoveSteps(id, keys) => r.HDelSteps(id, keys)
    case ClearFields(id, all) => r.HDelFailure(id, all)
    case Remove(queue, ids) => r.RemoveAll(queue, ids)
    case Wipe(queue) => r.Wipe(queue)
    case Register(queue) => r.(queues := r.queues + {queue})
  }

  /** A change of status that the update script and the memory store index alike. */
  predicate StatusAllowed(rec: Record, next: Status, now: nat) {
    next == rec.instance.status || !next.Terminal()
    || (!rec.instance.status.Terminal() && (rec.terminalAt.None? || rec.terminalAt.value == now))
  }

  /** A patch that erases nothing the step has, and a stored result that is a JSON value unless it is replaced. */
  predicate PatchAllowed(s: Step, patch: StepPatch) {
    && (patch.error.Unset? ==> s.error.None?) && (patch.completedAt.Unset? ==> s.completedAt.None?)
    && (patch.failedAt.Unset? ==> s.failedAt.None?) && (patch.nextRunAt.Unset? ==> s.nextRunAt.None?)
    && (patch.result.None? ==> Clone(s.result) == s.result)
    && (patch.result == Some(Undefined) ==> s.result.Undefined?)
  }

  /** When the two forms do the same. */
  predicate Allowed(m: Runs, op: Op, now: nat) {
    match op
    case Begin(input) =>
      input.id in m && !m[input.id].instance.status.Terminal() ==> m[input.id].instance.queueName == input.queueName
    case Update(id, patch) =>
      id in m ==>
        && (patch.updatedAt.Some? ==> patch.updatedAt.value == now)
        && (patch.queueName.Some? ==> patch.queueName.value == m[id].instance.queueName)
        && (patch.status.Some? ==> StatusAllowed(m[id], patch.status.value, now))
    case End(id, ending) =>
      id in m ==>
        && (m[id].instance.status.Terminal() ==> m[id].instance.status == ending.Target())
        && (ending.Finish? && ending.output.Undefined? ==> m[id].instance.output.Undefined?)
    case SaveStep(id, _, _) => id in m
    case UpdateStep(id, key, patch) => id in m && key in m[id].steps ==> PatchAllowed(m[id].steps[key], patch)
    case Remove(queue, ids) => forall id :: id in ids && id in m ==> m[id].instance.queueName == queue
    case _ => true
  }

  // -- One operation on one run -----------------------------------------------------------------

  /** Nothing but what concerns `id` has changed. */
  ghost predicate SameBut(a: Redis, b: Redis, id: string) {
    && a.queues <= b.queues
    && (forall x :: x != id ==> (x in a.hashes <==> x in b.hashes) && (x in a.hashes ==> a.hashes[x] == b.hashes[x]))
    && (forall x, k :: x != id ==>
          ((x, k) in a.steps <==> (x, k) in b.steps) && ((x, k) in a.steps ==> a.steps[(x, k)] == b.steps[(x, k)]))
    && (forall q, x :: x != id ==> ((q, x) in a.active <==> (q, x) in b.active))
    && (forall q, s, x :: x != id ==>
          ((q, s, x) in a.done <==> (q, s, x) in b.done)
          && ((q, s, x) in a.done ==> a.done[(q, s, x)] == b.done[(q, s, x)]))
  }

  lemma SameElsewhere(a: Redis, b: Redis, id: string, x: string)
    requires SameBut(a, b, id) && x != id
    ensures forall rec :: AgreeAt(rec, a, x) ==> AgreeAt(rec, b, x)
    ensures AbsentAt(a, x) ==> AbsentAt(b, x)
  {
  }

  /** Agreement after one run has changed is agreement on that run. */
  lemma AgreeOne(m: Runs, r: Redis, id: string, rec: Record, next: Redis)
    requires Agree(m, r) && SameBut(r, next, id)
    ensures Agree(m[id := rec], next) <==> AgreeAt(rec, next, id)
  {
    hide AgreeAt, AbsentAt, SameBut;
    var n := m[id := rec];
    if AgreeAt(rec, next, id) {
      forall x ensures if x in n then AgreeAt(n[x], next, x) else AbsentAt(next, x) {
        if x != id {
          SameElsewhere(r, next, id, x);
        }
      }
    }
    if Agree(n, next) {
      AgreesAt(n, next, id);
    }
  }

  lemma AgreesAt(m: Runs, r: Redis, id: string)
    requires Agree(m, r)
    ensures if id in m then AgreeAt(m[id], r, id) else AbsentAt(r, id)
  {
  }

  lemma MoveSame(r: Redis, queue: string, id: string, was: Status, next: Status, now: nat)
    ensures SameBut(r, r.Move(queue, id, was, next, now), id)
  {
  }

  lemma HSetSame(r: Redis, id: string, i: Instance)
    ensures SameBut(r, r.HSet(id, i), id)
  {
  }

  lemma SameTrans(a: Redis, b: Redis, c: Redis, id: string)
    requires SameBut(a, b, id) && SameBut(b, c, id)
    ensures SameBut(a, c, id)
  {
  }

  /** The index of one run after its status has moved: right exactly when no old bucket keeps it. */
  lemma MoveIndexes(r: Redis, queue: string, id: string, was: Status, at: nat, next: Status, now: nat)
    requires IndexedAs(r, id, queue, was, at)
    ensures var n := r.Move(queue, id, was, next, now);
            && (next == was || !next.Terminal() ==> IndexedAs(n, id, queue, next, at))
            && (next != was && next.Terminal() && !was.Terminal() ==> IndexedAs(n, id, queue, next, now))
            && (next != was && next.Terminal() && was.Terminal() ==> forall any :: !IndexedAs(n, id, queue, next, any))
  {
    var n := r.Move(queue, id, was, next, now);
    if next != was && next.Terminal() && was.Terminal() {
      assert (queue, was, id) in n.done;
    }
  }

  lemma OneIndex(r: Redis, id: string, queue: string, status: Status, a: nat, b: nat)
    requires IndexedAs(r, id, queue, status, a) && IndexedAs(r, id, queue, status, b)
    ensures status.Terminal() ==> a == b
  {
  }

  lemma IndexSame(a: Redis, b: Redis, id: string, queue: string, status: Status, at: nat)
    requires a.active == b.active && a.done == b.done
    ensures IndexedAs(a, id, queue, status, at) <==> IndexedAs(b, id, queue, status, at)
  {
  }

  /** The hash, the steps and the registry agree; only the index is left to compare. */
  ghost predicate DataAt(rec: Record, r: Redis, id: string) {
    && id in r.hashes && r.hashes[id] == rec.instance && rec.instance.queueName in r.queues
    && (rec.instance.status.Terminal() ==> rec.terminalAt.Some?)
    && (forall k :: (id, k) in r.steps <==> k in rec.steps)
    && (forall k :: k in rec.steps ==> r.steps[(id, k)] == rec.steps[k])
  }

  lemma Split(rec: Record, r: Redis, id: string)
    ensures AgreeAt(rec, r, id) <==>
              DataAt(rec, r, id)
              && IndexedAs(r, id, rec.instance.queueName, rec.instance.status, rec.terminalAt.GetOr(0))
  {
    hide IndexedAs;
  }

  lemma UpdateData(rec: Record, r: Redis, id: string, patch: Patch, now: nat)
    requires DataAt(rec, r, id)
    ensures DataAt(rec.Update(patch, now), r.UpdateScript(id, patch, now), id) ==>
              (patch.updatedAt.Some? ==> patch.updatedAt.value == now)
    ensures (patch.updatedAt.Some? ==> patch.updatedAt.value == now)
            && (patch.queueName.Some? ==> patch.queueName.value == rec.instance.queueName) ==>
              DataAt(rec.Update(patch, now), r.UpdateScript(id, patch, now), id)
  {
    hide Clone;
  }

  lemma UpdateIndexed(rec: Record, r: Redis, id: string, patch: Patch, now: nat)
    requires AgreeAt(rec, r, id)
    ensures var after, n := rec.Update(patch, now), r.UpdateScript(id, patch, now);
            var i := after.instance;
            IndexedAs(n, id, i.queueName, i.status, after.terminalAt.GetOr(0)) <==>
              && (patch.queueName.Some? ==> patch.queueName.value == rec.instance.queueName)
              && (patch.status.Some? ==> StatusAllowed(rec, patch.status.value, now))
  {
    hide Clone;
    var was := rec.instance;
    var next := patch.status.GetOr(was.status);
    var after, n := rec.Update(patch, now), r.UpdateScript(id, patch, now);
    var written := r.HSet(id, n.hashes[id]);
    IndexSame(r, written, id, was.queueName, was.status, rec.terminalAt.GetOr(0));
    MoveIndexes(written, was.queueName, id, was.status, rec.terminalAt.GetOr(0), next, now);
    if after.instance.queueName != was.queueName {
      NotElsewhere(written, was.queueName, id, was.status, rec.terminalAt.GetOr(0), next, now, after.instance.queueName,
                   after.terminalAt.GetOr(0));
    }
    hide Redis.Move, IndexedAs;
    var at := after.terminalAt.GetOr(0);
    if after.instance.queueName == was.queueName {
      if !next.Terminal() {
        AnyTime(n, id, was.queueName, next, rec.terminalAt.GetOr(0), at);
      } else if next != was.status && !was.status.Terminal() {
        if IndexedAs(n, id, was.queueName, next, at) {
          OneIndex(n, id, was.queueName, next, at, now);
        }
      }
    }
  }

  lemma AnyTime(r: Redis, id: string, queue: string, status: Status, a: nat, b: nat)
    requires IndexedAs(r, id, queue, status, a) && !status.Terminal()
    ensures IndexedAs(r, id, queue, status, b)
  {
  }

  lemma NotElsewhere(r: Redis, queue: string, id: string, was: Status, at: nat, next: Status, now: nat, other: string,
                     any: nat)
    requires IndexedAs(r, id, queue, was, at) && other != queue
    ensures !IndexedAs(r.Move(queue, id, was, next, now), id, other, next, any)
  {
    var n := r.Move(queue, id, was, next, now);
    assert (other, id) !in n.active;
    assert next.Terminal() ==> (other, next, id) !in n.done;
  }

  lemma UpdateExactly(m: Runs, r: Redis, id: string, patch: Patch, now: nat)
    requires Agree(m, r) && id in m
    ensures Agree(Apply(m, Update(id, patch), now), ApplyRedis(r, Update(id, patch), now)) <==>
              Allowed(m, Update(id, patch), now)
  {
    hide AgreeAt, DataAt, IndexedAs, SameBut, Redis.HSet, Redis.Move, Merge, StatusAllowed, Record.Update;
    AgreesAt(m, r, id);
    var rec, n := m[id].Update(patch, now), r.UpdateScript(id, patch, now);
    Split(m[id], r, id);
    Written(m[id], r, id);
    var written := r.HSet(id, Merge(r.hashes[id], patch.(input := Clone(patch.input), output := Clone(patch.output),
                                                        updatedAt := patch.updatedAt.OrElse(Some(now)))));
    HSetSame(r, id, Merge(r.hashes[id], patch.(input := Clone(patch.input), output := Clone(patch.output),
                                               updatedAt := patch.updatedAt.OrElse(Some(now)))));
    MoveSame(written, r.hashes[id].queueName, id, r.hashes[id].status, patch.status.GetOr(r.hashes[id].status), now);
    SameTrans(r, written, n, id);
    AgreeOne(m, r, id, rec, n);
    Split(rec, n, id);
    UpdateData(m[id], r, id, patch, now);
    UpdateIndexed(m[id], r, id, patch, now);
  }

  lemma Written(rec: Record, r: Redis, id: string)
    requires DataAt(rec, r, id)
    ensures id in r.hashes && r.hashes[id] == rec.instance
  {
  }

  lemma EndData(rec: Record, r: Redis, id: string, ending: Ending, now: nat)
    requires DataAt(rec, r, id)
    ensures DataAt(rec.End(ending, now), r.TerminalScript(id, ending, now), id) <==>
              (ending.Finish? && ending.output.Undefined? ==> rec.instance.output.Undefined?)
  {
    hide Clone;
    if ending.Finish? {
      CloneKeepsPresence(ending.output);
      AbsentClone(ending.output);
    }
  }

  lemma AbsentClone(v: Value)
    ensures v.Undefined? ==> Clone(v) == Undefined
  {
  }

  lemma EndIndexed(rec: Record, r: Redis, id: string, ending: Ending, now: nat)
    requires AgreeAt(rec, r, id)
    ensures IndexedAs(r.TerminalScript(id, ending, now), id, rec.instance.queueName, ending.Target(), now) <==>
              (rec.instance.status.Terminal() ==> rec.instance.status == ending.Target())
  {
    hide Clone, Merge, EndingPatch;
    var n := r.TerminalScript(id, ending, now);
    var was := rec.instance;
    if was.status.Terminal() && was.status != ending.Target() {
      assert (was.queueName, was.status, id) in n.done;
    }
  }

  lemma EndExactly(m: Runs, r: Redis, id: string, ending: Ending, now: nat)
    requires Agree(m, r) && id in m
    ensures Agree(Apply(m, End(id, ending), now), ApplyRedis(r, End(id, ending), now))
            <==> Allowed(m, End(id, ending), now)
  {
    hide AgreeAt, DataAt, IndexedAs, SameBut;
    AgreesAt(m, r, id);
    Split(m[id], r, id);
    Written(m[id], r, id);
    var rec, n := m[id].End(ending, now), r.TerminalScript(id, ending, now);
    EndSame(r, id, ending, now);
    AgreeOne(m, r, id, rec, n);
    Split(rec, n, id);
    EndData(m[id], r, id, ending, now);
    EndIndexed(m[id], r, id, ending, now);
  }

  lemma EndSame(r: Redis, id: string, ending: Ending, now: nat)
    ensures SameBut(r, r.TerminalScript(id, ending, now), id)
  {
    hide Merge, EndingPatch;
  }

  lemma BeginExactly(m: Runs, r: Redis, input: InitInput, now: nat)
    requires Agree(m, r)
    ensures Agree(Apply(m, Begin(input), now), ApplyRedis(r, Begin(input), now)) <==> Allowed(m, Begin(input), now)
  {
    hide Agree, SameBut, AgreeAt, AbsentAt;
    var id := input.id;
    var rec, n := BeginTick(Lookup(m, id), input, now), r.BeginTickScript(input, now);
    AgreesAt(m, r, id);
    BeginSame(r, input, now);
    AgreeOne(m, r, id, rec, n);
    if id in m {
      BeginAgain(m[id], r, input, now);
    } else {
      BeginFirst(r, input, now);
    }
  }

  lemma BeginSame(r: Redis, input: InitInput, now: nat)
    ensures SameBut(r, r.BeginTickScript(input, now), input.id)
  {
    hide BeginTick;
  }

  lemma BeginAgain(rec: Record, r: Redis, input: InitInput, now: nat)
    requires AgreeAt(rec, r, input.id)
    ensures AgreeAt(BeginTick(Some(rec), input, now), r.BeginTickScript(input, now), input.id) <==>
              (!rec.instance.status.Terminal() ==> rec.instance.queueName == input.queueName)
  {
    var n := r.BeginTickScript(input, now);
    if !rec.instance.status.Terminal() {
      assert (input.queueName, input.id) in n.active;
    }
  }

  lemma BeginFirst(r: Redis, input: InitInput, now: nat)
    requires AbsentAt(r, input.id)
    ensures AgreeAt(BeginTick(None, input, now), r.BeginTickScript(input, now), input.id)
  {
    hide Clone;
  }

  lemma StepExactly(m: Runs, r: Redis, op: Op, now: nat)
    requires Agree(m, r) && (op.BeginStep? || op.SaveStep? || op.RemoveSteps? || op.ClearFields?)
    ensures Agree(Apply(m, op, now), ApplyRedis(r, op, now)) <==> Allowed(m, op, now)
  {
    hide Agree, SameBut, AgreeAt, AbsentAt, Redis.BeginStepScript, Redis.HSetStep, Redis.HDelSteps, Redis.HDelFailure,
         Record.BeginStep, Record.SaveStep, Record.RemoveSteps;
    var id, n := op.id, ApplyRedis(r, op, now);
    AgreesAt(m, r, id);
    StepSame(r, op, now);
    if id in m {
      AgreeOne(m, r, id, Apply(m, op, now)[id], n);
      StepAt(m[id], r, op, now);
      assert Apply(m, op, now) == m[id := Apply(m, op, now)[id]];
    } else {
      NoSteps(r, op, now);
      if op.SaveStep? && Agree(m, n) {
        AgreesAt(m, n, id);
      }
    }
  }

  lemma BeginStepSame(r: Redis, id: string, key: Key, kind: StepKind, now: nat, due: Option<nat>)
    ensures SameBut(r, r.BeginStepScript(id, key, kind, now, due).0, id)
  {
  }

  lemma SaveStepSame(r: Redis, id: string, key: Key, step: Step)
    ensures SameBut(r, r.HSetStep(id, key, step), id)
  {
    hide Clone;
  }

  lemma RemoveStepsSame(r: Redis, id: string, keys: set<Key>)
    ensures SameBut(r, r.HDelSteps(id, keys), id)
  {
  }

  lemma ClearSame(r: Redis, id: string, all: bool)
    ensures SameBut(r, r.HDelFailure(id, all), id)
  {
  }

  lemma StepSame(r: Redis, op: Op, now: nat)
    requires op.BeginStep? || op.SaveStep? || op.RemoveSteps? || op.ClearFields?
    ensures SameBut(r, ApplyRedis(r, op, now), op.id)
  {
    hide SameBut;
    if op.BeginStep? {
      BeginStepSame(r, op.id, op.key, op.kind, now, op.nextRunAt);
    } else if op.SaveStep? {
      SaveStepSame(r, op.id, op.key, op.step);
    } else if op.RemoveSteps? {
      RemoveStepsSame(r, op.id, op.keys);
    } else {
      ClearSame(r, op.id, op.all);
    }
  }

  lemma BeginStepAt(rec: Record, r: Redis, id: string, key: Key, kind: StepKind, now: nat, due: Option<nat>)
    requires DataAt(rec, r, id)
    ensures DataAt(rec.BeginStep(key, kind, now, due).0, r.BeginStepScript(id, key, kind, now, due).0, id)
  {
  }

  lemma SaveStepAt(rec: Record, r: Redis, id: string, key: Key, step: Step)
    requires DataAt(rec, r, id)
    ensures DataAt(rec.SaveStep(key, step), r.HSetStep(id, key, step), id)
  {
    hide Clone;
  }

  lemma RemoveStepsAt(rec: Record, r: Redis, id: string, keys: set<Key>)
    requires DataAt(rec, r, id)
    ensures DataAt(rec.RemoveSteps(keys), r.HDelSteps(id, keys), id)
  {
  }

  lemma ClearAt(rec: Record, r: Redis, id: string, all: bool)
    requires DataAt(rec, r, id)
    ensures DataAt(if all then rec.ClearFailure() else rec.ClearOutcome(), r.HDelFailure(id, all), id)
  {
  }

  /** A step operation does the same to the data of both forms, and leaves status, queue and index alone. */
  lemma StepAt(rec: Record, r: Redis, op: Op, now: nat)
    requires (op.BeginStep? || op.SaveStep? || op.RemoveSteps? || op.ClearFields?) && AgreeAt(rec, r, op.id)
    ensures AgreeAt(Apply(map[op.id := rec], op, now)[op.id], ApplyRedis(r, op, now), op.id)
  {
    hide Clone, IndexedAs, DataAt, AgreeAt;
    var after, n := Apply(map[op.id := rec], op, now)[op.id], ApplyRedis(r, op, now);
    Split(rec, r, op.id);
    if op.BeginStep? {
      BeginStepAt(rec, r, op.id, op.key, op.kind, now, op.nextRunAt);
    } else if op.SaveStep? {
      SaveStepAt(rec, r, op.id, op.key, op.step);
    } else if op.RemoveSteps? {
      RemoveStepsAt(rec, r, op.id, op.keys);
    } else {
      ClearAt(rec, r, op.id, op.all);
    }
    IndexSame(r, n, op.id, rec.instance.queueName, rec.instance.status, rec.terminalAt.GetOr(0));
    Split(after, n, op.id);
  }

  lemma NoSteps(r: Redis, op: Op, now: nat)
    requires (op.BeginStep? || op.SaveStep? || op.RemoveSteps? || op.ClearFields?) && AbsentAt(r, op.id)
    ensures if op.SaveStep? then !AbsentAt(ApplyRedis(r, op, now), op.id) else ApplyRedis(r, op, now) == r
  {
    hide Clone;
    if op.SaveStep? {
      assert (op.id, op.key) in ApplyRedis(r, op, now).steps;
    } else if op.RemoveSteps? {
      assert ApplyRedis(r, op, now).steps == r.steps;
    }
  }

  /** The two patched steps. */
  lemma PatchesAlike(s: Step, patch: StepPatch)
    ensures patch.On(s, false).(result := Present(Clone(patch.result.GetOr(Undefined)), s.result))
            == patch.On(s, true).(result := Clone(patch.result.GetOr(s.result)))
            <==> PatchAllowed(s, patch)
  {
    CloneKeepsPresence(patch.result.GetOr(Undefined));
  }

  lemma PatchAt(rec: Record, r: Redis, id: string, key: Key, patch: StepPatch)
    requires DataAt(rec, r, id) && key in rec.steps
    ensures DataAt(rec.UpdateStep(key, patch), r.PatchStep(id, key, patch), id) <==> PatchAllowed(rec.steps[key], patch)
  {
    hide Clone, PatchAllowed, StepPatch.On, Present;
    PatchesAlike(rec.steps[key], patch);
    var after, n := rec.UpdateStep(key, patch), r.PatchStep(id, key, patch);
    var result := Clone(patch.result.GetOr(rec.steps[key].result));
    assert n.steps[(id, key)] == patch.On(rec.steps[key], true).(result := result);
  }

  lemma UpdateStepExactly(m: Runs, r: Redis, id: string, key: Key, patch: StepPatch, now: nat)
    requires Agree(m, r)
    ensures var op := UpdateStep(id, key, patch);
            Agree(Apply(m, op, now), ApplyRedis(r, op, now)) <==> Allowed(m, op, now)
  {
    hide Agree, SameBut, AgreeAt, DataAt, IndexedAs, PatchAllowed, StepPatch.On, Clone;
    AgreesAt(m, r, id);
    if id in m {
      var rec, n := m[id], r.PatchStep(id, key, patch);
      Split(rec, r, id);
      DataSteps(rec, r, id, key);
      if key in rec.steps {
        var s := r.steps[(id, key)];
        SaveStepSame(r, id, key, patch.On(s, true).(result := patch.result.GetOr(s.result)));
        AgreeOne(m, r, id, rec.UpdateStep(key, patch), n);
        PatchAt(rec, r, id, key, patch);
        IndexSame(r, n, id, rec.instance.queueName, rec.instance.status, rec.terminalAt.GetOr(0));
        Split(rec.UpdateStep(key, patch), n, id);
      } else {
        assert m[id := rec] == m;
      }
    } else {
      assert (id, key) !in r.steps by { AbsentSteps(r, id, key); }
    }
  }

  lemma DataSteps(rec: Record, r: Redis, id: string, key: Key)
    requires DataAt(rec, r, id)
    ensures (id, key) in r.steps <==> key in rec.steps
  {
  }

  lemma AbsentSteps(r: Redis, id: string, key: Key)
    requires AbsentAt(r, id)
    ensures (id, key) !in r.steps
  {
  }

  // -- Removal -----------------------------------------------------------------------------------

  /** The keys left when `ids` have been removed from a queue. */
  ghost predicate Removed(r: Redis, queue: string, ids: seq<string>, n: Redis) {
    && n.queues == r.queues
    && (forall x :: x in n.hashes <==> x in r.hashes && x !in ids)
    && (forall x :: x in n.hashes ==> n.hashes[x] == r.hashes[x])
    && (forall x, k :: (x, k) in n.steps <==> (x, k) in r.steps && x !in ids)
    && (forall x, k :: (x, k) in n.steps ==> n.steps[(x, k)] == r.steps[(x, k)])
    && (forall q, x :: (q, x) in n.active <==> (q, x) in r.active && !(q == queue && x in ids))
    && (forall q, s, x :: (q, s, x) in n.done <==> (q, s, x) in r.done && !(q == queue && s.Terminal() && x in ids))
    && (forall q, s, x :: (q, s, x) in n.done ==> n.done[(q, s, x)] == r.done[(q, s, x)])
  }

  lemma {:induction false} RemovesAll(r: Redis, queue: string, ids: seq<string>)
    ensures Removed(r, queue, ids, r.RemoveAll(queue, ids))
  {
    if ids != [] {
      hide Redis.Remove;
      var front, last := ids[..|ids| - 1], ids[|ids| - 1];
      RemovesAll(r, queue, front);
      RemovesOne(r.RemoveAll(queue, front), queue, last);
      RemovedMore(r, queue, front, r.RemoveAll(queue, front), [last], r.RemoveAll(queue, ids));
      assert ids == front + [last];
    }
  }

  lemma RemovesOne(r: Redis, queue: string, id: string)
    ensures Removed(r, queue, [id], r.Remove(queue, id))
  {
  }

  lemma RemovedMore(r: Redis, queue: string, front: seq<string>, mid: Redis, more: seq<string>, n: Redis)
    requires Removed(r, queue, front, mid) && Removed(mid, queue, more, n)
    ensures Removed(r, queue, front + more, n)
  {
    assert forall x :: x in front + more <==> x in front || x in more;
  }

  lemma RemovedAt(r: Redis, queue: string, ids: seq<string>, n: Redis, x: string)
    requires Removed(r, queue, ids, n)
    ensures x !in ids ==> forall rec :: AgreeAt(rec, r, x) ==> AgreeAt(rec, n, x)
    ensures AbsentAt(r, x) ==> AbsentAt(n, x)
    ensures forall rec :: x in ids && AgreeAt(rec, r, x) ==> (AbsentAt(n, x) <==> rec.instance.queueName == queue)
  {
    forall rec | x in ids && AgreeAt(rec, r, x) ensures AbsentAt(n, x) <==> rec.instance.queueName == queue {
      RemovedHere(r, queue, ids, n, x, rec);
    }
  }

  lemma RemovedHere(r: Redis, queue: string, ids: seq<string>, n: Redis, x: string, rec: Record)
    requires Removed(r, queue, ids, n) && x in ids && AgreeAt(rec, r, x)
    ensures AbsentAt(n, x) <==> rec.instance.queueName == queue
  {
    var i := rec.instance;
    if i.status.Terminal() {
      assert (i.queueName, i.status, x) in r.done;
    } else {
      assert (i.queueName, x) in r.active;
    }
  }

  lemma RemoveExactly(m: Runs, r: Redis, queue: string, ids: seq<string>, now: nat)
    requires Agree(m, r)
    ensures Agree(Apply(m, Remove(queue, ids), now), ApplyRedis(r, Remove(queue, ids), now)) <==>
              Allowed(m, Remove(queue, ids), now)
  {
    hide AgreeAt, AbsentAt, Removed;
    var n, left := r.RemoveAll(queue, ids), m - (set id | id in ids);
    RemovesAll(r, queue, ids);
    forall x ensures x !in ids ==> (if x in left then AgreeAt(left[x], n, x) else AbsentAt(n, x)) {
      AgreesAt(m, r, x);
      RemovedAt(r, queue, ids, n, x);
    }
    forall x ensures x in ids && x in m ==> (AbsentAt(n, x) <==> m[x].instance.queueName == queue) {
      AgreesAt(m, r, x);
      RemovedAt(r, queue, ids, n, x);
    }
    forall x ensures x in ids && x !in m ==> AbsentAt(n, x) {
      AgreesAt(m, r, x);
      RemovedAt(r, queue, ids, n, x);
    }
    assert forall x :: x in ids ==> x !in left;
  }

  /** What the index of a queue lists is what the queue owns. */
  lemma IndexedOwned(m: Runs, r: Redis, queue: string)
    requires Agree(m, r)
    ensures r.Indexed(queue) == OwnedBy(m, queue)
  {
    forall x ensures x in r.Indexed(queue) <==> x in OwnedBy(m, queue) {
      AgreesAt(m, r, x);
      IndexedHere(m, r, queue, x);
    }
  }

  lemma IndexedHere(m: Runs, r: Redis, queue: string, x: string)
    requires if x in m then AgreeAt(m[x], r, x) else AbsentAt(r, x)
    ensures x in r.Indexed(queue) <==> Owns(m, queue, x)
  {
    if x in r.Indexed(queue) {
      if p :| p in r.active && p.0 == queue && p.1 == x {
        assert (queue, x) in r.active;
      } else {
        var p :| p in r.done.Keys && p.0 == queue && p.1.Terminal() && p.2 == x;
        assert (queue, p.1, x) in r.done;
      }
    }
    if Owns(m, queue, x) {
      var i := m[x].instance;
      if i.status.Terminal() {
        assert (queue, i.status, x) in r.done.Keys;
      } else {
        assert (queue, x) in r.active;
      }
    }
  }

  lemma WipeAgrees(m: Runs, r: Redis, queue: string)
    requires Agree(m, r)
    ensures Agree(Wiped(m, queue), r.Wipe(queue))
  {
    hide AgreeAt, AbsentAt, Redis.Wipe;
    IndexedOwned(m, r, queue);
    var left, n := Wiped(m, queue), r.Wipe(queue);
    forall x ensures if x in left then AgreeAt(left[x], n, x) else AbsentAt(n, x) {
      AgreesAt(m, r, x);
      WipedAt(m, r, queue, x);
    }
  }

  lemma WipedAt(m: Runs, r: Redis, queue: string, x: string)
    requires if x in m then AgreeAt(m[x], r, x) else AbsentAt(r, x)
    requires r.Indexed(queue) == OwnedBy(m, queue)
    ensures x in m && !Owns(m, queue, x) ==> AgreeAt(m[x], r.Wipe(queue), x)
    ensures x in m && Owns(m, queue, x) ==> AbsentAt(r.Wipe(queue), x)
    ensures x !in m ==> AbsentAt(r.Wipe(queue), x)
  {
    hide Redis.Indexed;
  }

  lemma RegisterAgrees(m: Runs, r: Redis, queue: string)
    requires Agree(m, r)
    ensures Agree(m, r.(queues := r.queues + {queue}))
  {
    hide AgreeAt, AbsentAt;
    forall x ensures if x in m then AgreeAt(m[x], r.(queues := r.queues + {queue}), x)
                     else AbsentAt(r.(queues := r.queues + {queue}), x) {
      AgreesAt(m, r, x);
      SameElsewhere(r, r.(queues := r.queues + {queue}), x + "x", x);
    }
  }

  // -- Whole histories ------------------------------------------------------------------------------

  /**
   * One operation, exactly: starting in agreement, the two stores still agree afterwards if and only if
   * the operation is allowed.
   */
  lemma OpExactly(m: Runs, r: Redis, op: Op, now: nat)
    requires Agree(m, r)
    ensures Agree(Apply(m, op, now), ApplyRedis(r, op, now)) <==> Allowed(m, op, now)
  {
    hide Agree, Record.Update, Merge;
    match op
    case Begin(input) => BeginExactly(m, r, input, now);
    case Update(id, patch) =>
      if id in m {
        UpdateExactly(m, r, id, patch, now);
      } else {
        Missing(m, r, id);
      }
    case End(id, ending) =>
      if id in m {
        EndExactly(m, r, id, ending, now);
      } else {
        Missing(m, r, id);
      }
    case Remove(queue, ids) => RemoveExactly(m, r, queue, ids, now);
    case UpdateStep(id, key, patch) => UpdateStepExactly(m, r, id, key, patch, now);
    case Wipe(queue) => WipeAgrees(m, r, queue);
    case Register(queue) => RegisterAgrees(m, r, queue);
    case _ => StepExactly(m, r, op, now);
  }

  lemma Missing(m: Runs, r: Redis, id: string)
    requires Agree(m, r) && id !in m
    ensures id !in r.hashes
  {
    AgreesAt(m, r, id);
  }

  /** A history of operations, each at its time. */
  type History = seq<(Op, nat)>

  function ApplyAll(m: Runs, h: History): Runs
    decreases |h|
  {
    if h == [] then m else ApplyAll(Apply(m, h[0].0, h[0].1), h[1..])
  }

  function ApplyAllRedis(r: Redis, h: History): Redis
    decreases |h|
  {
    if h == [] then r else ApplyAllRedis(ApplyRedis(r, h[0].0, h[0].1), h[1..])
  }

  predicate AllAllowed(m: Runs, h: History)
    decreases |h|
  {
    h == [] || (Allowed(m, h[0].0, h[0].1) && AllAllowed(Apply(m, h[0].0, h[0].1), h[1..]))
  }

  /** Index agreement: after every history of allowed operations the Redis form agrees with the records. */
  lemma {:induction false} HistoryAgrees(m: Runs, r: Redis, h: History)
    requires Agree(m, r) && AllAllowed(m, h)
    ensures Agree(ApplyAll(m, h), ApplyAllRedis(r, h))
    decreases |h|
  {
    hide Agree, Apply, ApplyRedis, Allowed;
    if h != [] {
      OpExactly(m, r, h[0].0, h[0].1);
      HistoryAgrees(Apply(m, h[0].0, h[0].1), ApplyRedis(r, h[0].0, h[0].1), h[1..]);
    }
  }

  /** What agreement says about the index, from two empty stores on. */
  lemma IndexIsStatus(h: History, id: string, queue: string, status: Status)
    requires AllAllowed(map[], h)
    ensures var m, r := ApplyAll(map[], h), ApplyAllRedis(EMPTY, h);
            && ((queue, id) in r.active <==>
                  id in m && m[id].instance.queueName == queue && !m[id].instance.status.Terminal())
            && (status.Terminal() ==>
                  ((queue, status, id) in r.done <==>
                     id in m && m[id].instance.queueName == queue && m[id].instance.status == status))
  {
    hide ApplyAll, ApplyAllRedis, AllAllowed;
    EmptyAgrees();
    HistoryAgrees(map[], EMPTY, h);
    AgreesAt(ApplyAll(map[], h), ApplyAllRedis(EMPTY, h), id);
  }

  lemma EmptyAgrees()
    ensures Agree(map[], EMPTY)
  {
  }

  /** An operator may cancel a failed run. Redis then lists it in two buckets, and the forms no longer agree. */
  lemma CancelledFailureListedTwice(m: Runs, r: Redis, id: string, now: nat)
    requires Agree(m, r) && id in m && m[id].instance.status.Failed?
    ensures var n, queue := ApplyRedis(r, End(id, Cancel), now), m[id].instance.queueName;
            && (queue, Failed, id) in n.done && (queue, Cancelled, id) in n.done
            && !Agree(Apply(m, End(id, Cancel), now), n)
  {
    hide Merge, EndingPatch;
    AgreesAt(m, r, id);
    EndExactly(m, r, id, Cancel, now);
  }
}
