/** The in-memory state store: the simple form of the store. */
module MemoryStores {
  import opened Values
  import opened Phases
  import opened Records
  import opened Sorting
  import opened Locks

  type Runs = map<string, Record>

  predicate NoRepeats(ids: seq<string>) {
    forall i, j :: 0 <= i < j < |ids| ==> ids[i] != ids[j]
  }

  lemma NoRepeatsTail(ids: seq<string>)
    requires ids != []
    ensures NoRepeats(ids) <==> NoRepeats(ids[1..]) && ids[0] !in ids[1..]
  {
    var tail := ids[1..];
    assert forall i :: 0 <= i < |tail| ==> tail[i] == ids[i + 1];
    assert ids == [ids[0]] + tail;
    if NoRepeats(tail) && ids[0] !in tail {
      forall i, j | 0 <= i < j < |ids| ensures ids[i] != ids[j] {
        assert ids[j] == tail[j - 1];
        if i > 0 {
          assert ids[i] == tail[i - 1];
        }
      }
    }
  }

  /** `ids` without those in `gone`, in the same order. */
  function Keep(ids: seq<string>, gone: set<string>): (r: seq<string>)
    ensures forall x :: x in r <==> x in ids && x !in gone
    ensures NoRepeats(ids) ==> NoRepeats(r)
  {
    if ids == [] then []
    else
      NoRepeatsTail(ids);
      var rest := Keep(ids[1..], gone);
      NoRepeatsTail([ids[0]] + rest);
      if ids[0] in gone then rest else [ids[0]] + rest
  }

  lemma {:induction false} KeepKeep(ids: seq<string>, a: set<string>, b: set<string>)
    ensures Keep(Keep(ids, a), b) == Keep(ids, a + b)
  {
    if ids != [] {
      KeepKeep(ids[1..], a, b);
      assert ids[0] !in a ==> Keep(ids, a)[1..] == Keep(ids[1..], a);
    }
  }

  lemma {:induction false} KeepAll(ids: seq<string>, gone: set<string>)
    requires forall x :: x in ids ==> x !in gone
    ensures Keep(ids, gone) == ids
  {
    if ids != [] {
      KeepAll(ids[1..], gone);
    }
  }

  /** The runs of a queue that are in a status, in the order given. */
  function InStatus(runs: Runs, ids: seq<string>, queue: string, status: Status): (r: seq<string>)
    ensures forall id :: id in r <==>
              id in ids && id in runs && runs[id].instance.queueName == queue && runs[id].instance.status == status
    ensures NoRepeats(ids) ==> NoRepeats(r)
  {
    if ids == [] then []
    else
      NoRepeatsTail(ids);
      var rest := InStatus(runs, ids[1..], queue, status);
      NoRepeatsTail([ids[0]] + rest);
      if ids[0] in runs && runs[ids[0]].instance.queueName == queue && runs[ids[0]].instance.status == status
      then [ids[0]] + rest else rest
  }

  function EndedAt(runs: Runs): string -> int {
    (id: string) => if id in runs then runs[id].terminalAt.GetOr(0) as int else 0
  }

  /** A bucket, oldest ending first. */
  function OldestFirst(runs: Runs, ids: seq<string>, queue: string, status: Status): seq<string> {
    Sort(InStatus(runs, ids, queue, status), EndedAt(runs))
  }

  function Clip(xs: seq<string>, offset: nat, limit: int): seq<string> {
    if limit <= 0 || offset >= |xs| then []
    else if offset + limit <= |xs| then xs[offset..offset + limit] else xs[offset..]
  }

  /** A page is the stretch of the list that starts at the offset and is as long as asked for, or as there is. */
  lemma ClipWindow(xs: seq<string>, offset: nat, limit: nat)
    ensures var page := Clip(xs, offset, limit);
            && (forall i :: 0 <= i < |page| ==> offset + i < |xs| && page[i] == xs[offset + i])
            && |page| <= limit && (|page| < limit ==> offset + |page| >= |xs|)
  {
  }

  function Lookup(runs: Runs, id: string): Option<Record> {
    if id in runs then Some(runs[id]) else None
  }

  /** Whether a terminal transition that carries `token` goes through. */
  predicate Passes(locks: Table, id: string, token: string, now: nat) {
    token == "" || !HeldByOther(locks, id, token, now)
  }

  /** A worker whose lock another has taken over cannot end the run, over any history of the lock. */
  lemma ZombieIsFenced(now: nat, es: seq<LockEvent>, id: string, holder: string, zombie: string)
    requires zombie != holder && zombie != ""
    requires Leased(NextAll(Leases(map[], now, map[]), es), id, holder)
    ensures var s := NextAll(Leases(map[], now, map[]), es);
            !Passes(s.locks, id, zombie, s.now) && (holder != "" ==> Passes(s.locks, id, holder, s.now))
  {
    OneHolder(now, es, id, holder, zombie);
  }

  datatype ListOrder = Asc | Desc

  class MemoryStateStore {
    var records: Runs
    /** Insertion order of `records`. */
    var order: seq<string>
    var locks: Table
    var registeredQueues: set<string>

    ghost predicate Valid()
      reads this
    {
      NoRepeats(order) && forall id :: id in order <==> id in records
    }

    constructor ()
      ensures Valid() && records == map[] && locks == map[] && registeredQueues == {}
    {
      records, order, locks, registeredQueues := map[], [], map[], {};
    }

    // -- Runs ------------------------------------------------------------------------

    method InitInstance(input: InitInput, now: nat) returns (instance: Instance)
      requires Valid()
      modifies this`records, this`order
      ensures Valid() && records == old(records)[input.id := BeginTick(Lookup(old(records), input.id), input, now)]
      ensures instance == records[input.id].instance
    {
      if input.id in records {
        var existing := records[input.id];
        if existing.instance.status.Terminal() {
          return existing.instance;
        }
        var i := existing.instance.(runCount := existing.instance.runCount + 1, updatedAt := now);
        if !existing.instance.status.Compensating? {
          i := i.(status := Running);
        }
        records := records[input.id := existing.(instance := i)];
        return i;
      }
      instance := Instance(input.id, input.queueName, input.jobName, input.jobId, Running, Clone(input.input),
                           Undefined,
                           None, None, None, None, 1, None, None, now, now, None, None);
      records := records[input.id := Record(instance, map[], None)];
      order := order + [input.id];
    }

    method UpdateInstance(id: string, patch: Patch, now: nat) returns (instance: Option<Instance>)
      requires Valid()
      modifies this`records
      ensures Valid()
      ensures records == if id in old(records) then old(records)[id := old(records)[id].Update(patch, now)]
              else old(records)
      ensures instance == if id in records then Some(records[id].instance) else None
    {
      if id !in records {
        return None;
      }
      records := records[id := records[id].Update(patch, now)];
      return Some(records[id].instance);
    }

    /** A terminal transition: refused when the lock it should hold is another's; `""` is no token. */
    method TerminalTransition(id: string, token: string, ending: Ending, now: nat) returns (applied: bool)
      requires Valid()
      modifies this`records
      ensures Valid()
      ensures applied <==> id in old(records) && Passes(locks, id, token, now)
      ensures records == if applied then old(records)[id := old(records)[id].End(ending, now)] else old(records)
    {
      if id !in records {
        return false;
      }
      if token != "" {
        if id in locks && locks[id].expiresAt > now && locks[id].token != token {
          return false;
        }
      }
      records := records[id := Record(ending.Apply(records[id].instance, now), records[id].steps, Some(now))];
      return true;
    }

    // -- Steps ------------------------------------------------------------------------

    method BeginStep(id: string, key: Key, kind: StepKind, now: nat, nextRunAt: Option<nat>) returns (r: BeginResult)
      requires Valid()
      modifies this`records
      ensures Valid()
      ensures id !in old(records) ==> r == StepMissing && records == old(records)
      ensures id in old(records) ==>
                var (rec, begun) := old(records)[id].BeginStep(key, kind, now, nextRunAt);
                r == begun && records == old(records)[id := rec]
    {
      if id !in records {
        return StepMissing;
      }
      var record := records[id];
      if record.instance.status.Cancelled? {
        records := records[id := record];
        return StepCancelled;
      }
      if key in record.steps {
        records := records[id := record];
        return StepExisting(record.steps[key]);
      }
      var seqNo := record.instance.stepSeq.GetOr(0) + 1;
      var instance := record.instance.(stepSeq := Some(seqNo), updatedAt := now);
      var step := Step(kind, seqNo, StepRunning, Undefined, None, 1, now, None, None, nextRunAt);
      records := records[id := Record(instance, record.steps[key := step], record.terminalAt)];
      return StepCreated(seqNo);
    }

    method SaveStep(id: string, key: Key, step: Step)
      requires Valid()
      modifies this`records
      ensures Valid()
      ensures records == if id in old(records) then old(records)[id := old(records)[id].SaveStep(key, step)]
              else old(records)
    {
      if id in records {
        records := records[id := records[id].SaveStep(key, step)];
      }
    }

    method UpdateStep(id: string, key: Key, patch: StepPatch)
      requires Valid()
      modifies this`records
      ensures Valid()
      ensures records == if id in old(records) then old(records)[id := old(records)[id].UpdateStep(key, patch)]
              else old(records)
    {
      if id in records && key in records[id].steps {
        var record := records[id];
        var current := record.steps[key];
        var result := Present(Clone(patch.result.GetOr(Undefined)), current.result);
        records := records[id := record.(steps := record.steps[key := patch.On(current, false).(result := result)])];
      }
    }

    method RemoveSteps(id: string, keys: seq<Key>)
      requires Valid()
      modifies this`records
      ensures Valid()
      ensures records == if id in old(records) then old(records)[id := old(records)[id].RemoveSteps(set k | k in keys)]
                         else old(records)
    {
      if id !in records {
        return;
      }
      var record := records[id];
      var steps := record.steps;
      for i := 0 to |keys|
        invariant steps == record.steps - (set k | k in keys[..i])
      {
        steps := steps - {keys[i]};
        assert keys[..i + 1] == keys[..i] + [keys[i]];
      }
      assert keys[..|keys|] == keys;
      records := records[id := record.(steps := steps)];
    }

    // -- Locks ------------------------------------------------------------------------

    method AcquireLock(id: string, token: string, ttl: nat, now: nat) returns (ok: bool)
      modifies this`locks
      ensures (locks, ok) == Acquire(old(locks), id, token, ttl, now)
    {
      if id in locks && locks[id].expiresAt > now && locks[id].token != token {
        return false;
      }
      locks := locks[id := Lock(token, now + ttl)];
      return true;
    }

    method RenewLock(id: string, token: string, ttl: nat, now: nat) returns (ok: bool)
      modifies this`locks
      ensures (locks, ok) == Renew(old(locks), id, token, ttl, now)
    {
      if id !in locks || locks[id].token != token || locks[id].expiresAt <= now {
        return false;
      }
      locks := locks[id := locks[id].(expiresAt := now + ttl)];
      return true;
    }

    method ReleaseLock(id: string, token: string)
      modifies this`locks
      ensures locks == Release(old(locks), id, token)
    {
      if id in locks && locks[id].token == token {
        locks := locks - {id};
      }
    }

    method HeldLocks(ids: seq<string>, now: nat) returns (held: set<string>)
      ensures forall id :: id in held <==> id in ids && LiveLock(locks, id, now)
    {
      held := {};
      for i := 0 to |ids|
        invariant forall id :: id in held <==> id in ids[..i] && LiveLock(locks, id, now)
      {
        if ids[i] in locks && locks[ids[i]].expiresAt > now {
          held := held + {ids[i]};
        }
        assert ids[..i + 1] == ids[..i] + [ids[i]];
      }
      assert ids[..|ids|] == ids;
    }

    // -- Lists ------------------------------------------------------------------------

    method ListActive(queue: string) returns (out: seq<string>)
      requires Valid()
      ensures NoRepeats(out)
      ensures forall id :: id in out <==>
                id in records && records[id].instance.queueName == queue && !records[id].instance.status.Terminal()
    {
      out := [];
      for i := 0 to |order|
        invariant NoRepeats(out)
        invariant forall id :: id in out <==>
                    id in order[..i] && records[id].instance.queueName == queue
                    && !records[id].instance.status.Terminal()
      {
        var instance := records[order[i]].instance;
        if instance.queueName == queue && !instance.status.Terminal() {
          assert order[i] !in out;
          out := out + [order[i]];
        }
        assert order[..i + 1] == order[..i] + [order[i]];
      }
      assert order[..|order|] == order;
    }

    function ListOldestTerminal(queue: string, status: Status, limit: int): seq<string>
      reads this
    {
      Clip(OldestFirst(records, order, queue, status), 0, limit)
    }

    function ListNewestTerminal(queue: string, status: Status, limit: int): seq<string>
      reads this
    {
      Clip(Reversed(OldestFirst(records, order, queue, status)), 0, limit)
    }

    function ListTerminalPage(queue: string, status: Status, offset: nat, limit: int, direction: ListOrder): seq<string>
      reads this
    {
      var ordered := OldestFirst(records, order, queue, status);
      Clip(if direction.Desc? then Reversed(ordered) else ordered, offset, limit)
    }

    method CountTerminal(queue: string, status: Status) returns (count: nat)
      requires Valid()
      ensures count == |InStatus(records, order, queue, status)|
    {
      count := 0;
      for i := |order| downto 0
        invariant count == |InStatus(records, order[i..], queue, status)|
      {
        assert order[i..][1..] == order[i + 1..];
        var instance := records[order[i]].instance;
        if instance.queueName == queue && instance.status == status {
          count := count + 1;
        }
      }
      assert order[0..] == order;
    }

    // -- Removal ------------------------------------------------------------------------

    method Drop(id: string)
      requires Valid()
      modifies this`records, this`order, this`locks
      ensures Valid() && records == old(records) - {id} && locks == old(locks) - {id} && order == Keep(old(order), {id})
    {
      order := Keep(order, {id});
      records := records - {id};
      locks := locks - {id};
    }

    method RemoveInstances(ids: seq<string>)
      requires Valid()
      modifies this`records, this`order, this`locks
      ensures Valid() && records == old(records) - MembersOf(ids) && locks == old(locks) - MembersOf(ids)
      ensures order == Keep(old(order), MembersOf(ids))
    {
      hide MembersOf, Keep;
      KeepAll(order, {});
      MembersNone(ids);
      for i := 0 to |ids|
        invariant Valid()
        invariant records == old(records) - MembersOf(ids[..i])
        invariant locks == old(locks) - MembersOf(ids[..i])
        invariant order == Keep(old(order), MembersOf(ids[..i]))
      {
        KeepKeep(old(order), MembersOf(ids[..i]), {ids[i]});
        MembersMore(ids, i);
        Drop(ids[i]);
      }
      assert ids[..|ids|] == ids;
    }

    method WipeQueue(queue: string)
      requires Valid()
      modifies this`records, this`order, this`locks
      ensures Valid() && records == Wiped(old(records), queue)
      ensures locks == old(locks) - OwnedBy(old(records), queue)
    {
      var ids := order;
      ghost var gone: set<string> := {};
      for i := 0 to |ids|
        invariant Valid()
        invariant records == old(records) - gone && locks == old(locks) - gone
        invariant forall id :: id in gone <==> id in ids[..i] && Owns(old(records), queue, id)
      {
        assert ids[i] !in ids[..i] && ids[i] in old(records);
        assert ids[..i + 1] == ids[..i] + [ids[i]];
        if records[ids[i]].instance.queueName == queue {
          Drop(ids[i]);
          gone := gone + {ids[i]};
        }
      }
      assert ids[..|ids|] == ids;
      assert gone == OwnedBy(old(records), queue);
    }
  }

  // -- Lists without repetition ---------------------------------------------------------

  lemma InsertOnce(x: string, xs: seq<string>, key: string -> int)
    requires NoRepeats(xs) && x !in xs
    ensures NoRepeats(Insert(x, xs, key)) && forall y :: y in Insert(x, xs, key) <==> y == x || y in xs
  {
    if xs != [] && key(x) > key(xs[0]) {
      NoRepeatsTail(xs);
      InsertOnce(x, xs[1..], key);
      var rest := Insert(x, xs[1..], key);
      assert Insert(x, xs, key) == [xs[0]] + rest;
      assert xs[0] !in rest;
      NoRepeatsTail([xs[0]] + rest);
    } else {
      assert ([x] + xs)[1..] == xs;
      NoRepeatsTail([x] + xs);
    }
  }

  lemma Shrinks(a: set<string>, b: set<string>, x: string)
    requires a <= b && x in b && x !in a
    ensures |a| < |b|
  {
    Larger(b - {x}, a);
  }

  lemma Larger(a: set<string>, b: set<string>)
    requires b <= a
    ensures |b| <= |a|
  {
    assert a == b + (a - b);
  }

  lemma SetOfList(ids: seq<string>, members: set<string>)
    requires NoRepeats(ids) && members == set id | id in ids
    ensures |members| == |ids|
  {
    if ids == [] {
    } else {
      NoRepeatsTail(ids);
      var rest := set id | id in ids[1..];
      SetOfList(ids[1..], rest);
      assert members == rest + {ids[0]};
    }
  }

  function MembersOf(ids: seq<string>): set<string> {
    set id | id in ids
  }

  lemma MembersNone(ids: seq<string>)
    ensures MembersOf(ids[..0]) == {}
  {
  }

  lemma MembersMore(ids: seq<string>, i: nat)
    requires i < |ids|
    ensures MembersOf(ids[..i + 1]) == MembersOf(ids[..i]) + {ids[i]}
  {
    assert ids[..i + 1] == ids[..i] + [ids[i]];
  }

  predicate Owns(runs: Runs, queue: string, id: string) {
    id in runs && runs[id].instance.queueName == queue
  }

  function OwnedBy(runs: Runs, queue: string): set<string> {
    set id | id in runs && Owns(runs, queue, id)
  }

  /** Everything but one queue's runs. */
  function Wiped(runs: Runs, queue: string): Runs {
    map id | id in runs && runs[id].instance.queueName != queue :: runs[id]
  }
}
