/** The Redis-backed state store: each Lua script and each pipeline as one method. */
module RedisStores {
  import opened Values
  import opened Phases
  import opened Records
  import opened Sorting
  import opened Locks
  import opened MemoryStores
  import opened Indexes
  import opened Listings

  const REMOVE_CHUNK := 200
  const WIPE_CHUNK := 500

  class RedisStateStore {
    var hashes: map<string, Instance>
    var steps: map<(string, Key), Step>
    var active: set<(string, string)>
    var done: map<(string, Status, string), nat>
    var queues: set<string>
    var locks: Table

    constructor ()
      ensures View() == EMPTY && locks == map[]
    {
      hashes, steps, active, done, queues, locks := map[], map[], {}, map[], {}, map[];
    }

    ghost function View(): Redis
      reads this
    {
      Redis(hashes, steps, active, done, queues)
    }

    // -- Scripts -----------------------------------------------------------------------

    method BeginTick(input: InitInput, now: nat) returns (instance: Instance)
      modifies this
      ensures View() == old(View()).BeginTickScript(input, now) && locks == old(locks)
      ensures instance == hashes[input.id]
    {
      var id := input.id;
      if id in hashes {
        instance := hashes[id];
        if instance.status.Terminal() {
          return;
        }
        instance := instance.(runCount := instance.runCount + 1);
        if !instance.status.Compensating? {
          instance := instance.(status := Running);
        }
        instance := instance.(updatedAt := now);
        hashes := hashes[id := instance];
        active := active + {(input.queueName, id)};
        return;
      }
      instance := Records.BeginTick(None, input, now).instance;
      hashes := hashes[id := instance];
      queues := queues + {input.queueName};
      ClearDoneBuckets(input.queueName, id);
      active := active + {(input.queueName, id)};
    }

    method ClearDoneBuckets(queue: string, id: string)
      modifies this`done
      ensures View() == old(View()).ClearDone(queue, id)
    {
      for i := 0 to |TERMINAL_STATUSES|
        invariant done == old(done) - (set s | s in TERMINAL_STATUSES[..i] :: (queue, s, id))
      {
        assert TERMINAL_STATUSES[..i + 1] == TERMINAL_STATUSES[..i] + [TERMINAL_STATUSES[i]];
        done := done - {(queue, TERMINAL_STATUSES[i], id)};
      }
      assert TERMINAL_STATUSES[..4] == TERMINAL_STATUSES;
      assert (set s | s in TERMINAL_STATUSES :: (queue, s, id))
          == {(queue, Completed, id), (queue, Failed, id), (queue, Cancelled, id), (queue, CompensationFailed, id)} by {
        assert forall s :: s in TERMINAL_STATUSES <==>
            s == Completed || s == Failed || s == Cancelled || s == CompensationFailed;
      }
    }

    method UpdateInstance(id: string, patch: Patch, now: nat) returns (instance: Option<Instance>)
      modifies this
      ensures View() == old(View()).UpdateScript(id, patch, now) && locks == old(locks)
      ensures instance == if id in hashes then Some(hashes[id]) else None
    {
      hide Merge, Clone;
      if id !in hashes {
        return None;
      }
      var was := hashes[id];
      var fields := patch.(input := Clone(patch.input), output := Clone(patch.output),
                           updatedAt := patch.updatedAt.OrElse(Some(now)));
      hashes := hashes[id := Merge(was, fields)];
      if patch.status.Some? && patch.status.value != was.status {
        if patch.status.value.Terminal() {
          active := active - {(was.queueName, id)};
          done := done[(was.queueName, patch.status.value, id) := now];
        } else {
          ClearDoneBuckets(was.queueName, id);
          active := active + {(was.queueName, id)};
        }
      }
      return Some(hashes[id]);
    }

    /** Flip the status and move the id into its done bucket, unless the lock is another's. */
    method TerminalTransition(id: string, token: string, ending: Ending, now: nat) returns (applied: bool)
      modifies this
      ensures applied <==> id in old(hashes) && Passes(locks, id, token, now)
      ensures View() == if applied then old(View()).TerminalScript(id, ending, now) else old(View())
      ensures locks == old(locks)
    {
      hide Merge, EndingPatch;
      if id !in hashes {
        return false;
      }
      if token != "" {
        var cur := if LiveLock(locks, id, now) then Some(locks[id].token) else None;
        if cur.Some? && cur.value != token {
          return false;
        }
      }
      var queue := hashes[id].queueName;
      hashes := hashes[id := Merge(hashes[id], EndingPatch(ending, now))];
      active := active - {(queue, id)};
      done := done[(queue, ending.Target(), id) := now];
      return true;
    }

    method BeginStep(id: string, key: Key, kind: StepKind, now: nat, nextRunAt: Option<nat>) returns (r: BeginResult)
      modifies this
      ensures (View(), r) == old(View()).BeginStepScript(id, key, kind, now, nextRunAt) && locks == old(locks)
    {
      if id !in hashes {
        return StepMissing;
      }
      if hashes[id].status.Cancelled? {
        return StepCancelled;
      }
      if (id, key) in steps {
        return StepExisting(steps[(id, key)]);
      }
      var seqNo := hashes[id].stepSeq.GetOr(0) + 1;
      var step := Step(kind, seqNo, StepRunning, Undefined, None, 1, now, None, None, nextRunAt);
      steps := steps[(id, key) := step];
      hashes := hashes[id := hashes[id].(stepSeq := Some(seqNo), updatedAt := now)];
      return StepCreated(seqNo);
    }

    method SaveStep(id: string, key: Key, step: Step)
      modifies this`steps
      ensures View() == old(View()).HSetStep(id, key, step)
    {
      steps := steps[(id, key) := step.(result := Clone(step.result))];
    }

    /** Two commands: read the step, then write it back merged. */
    method UpdateStep(id: string, key: Key, patch: StepPatch)
      modifies this`steps
      ensures View() == old(View()).PatchStep(id, key, patch)
    {
      if (id, key) in steps {
        var current := steps[(id, key)];
        SaveStep(id, key, patch.On(current, true).(result := patch.result.GetOr(current.result)));
      }
    }

    // -- Lists -------------------------------------------------------------------------

    function BucketOf(queue: string, status: Status): set<string>
      reads this
    {
      set p | p in done.Keys && p.0 == queue && p.1 == status :: p.2
    }

    lemma BucketMember(queue: string, status: Status, id: string)
      ensures id in BucketOf(queue, status) <==> (queue, status, id) in done
    {
      if (queue, status, id) in done {
        assert (queue, status, id) in done.Keys;
      }
    }

    function ScoreIn(queue: string, status: Status): string -> int
      reads this
    {
      var d := done;
      (id: string) => if (queue, status, id) in d then d[(queue, status, id)] as int else 0
    }

    /** `ZRANGE 0 -1`. */
    method ZRange(queue: string, status: Status) returns (ids: seq<string>)
      ensures Ranks(View(), queue, status, ids)
    {
      var rest := BucketOf(queue, status);
      var score := ScoreIn(queue, status);
      ids := [];
      while rest != {}
        invariant NoRepeats(ids) && Sorted(ids, score) && rest <= BucketOf(queue, status)
        invariant forall id :: id in ids <==> id in BucketOf(queue, status) && id !in rest
        decreases |rest|
      {
        var id :| id in rest;
        InsertSorts(id, ids, score);
        InsertOnce(id, ids, score);
        ids := Insert(id, ids, score);
        rest := rest - {id};
      }
      forall id ensures id in ids <==> (queue, status, id) in View().done {
        BucketMember(queue, status, id);
      }
      forall i, j | 0 <= i < j < |ids|
        ensures View().done[(queue, status, ids[i])] <= View().done[(queue, status, ids[j])]
      {
        assert score(ids[i]) <= score(ids[j]);
      }
    }

    method ListOldestTerminal(queue: string, status: Status, limit: int) returns (out: seq<string>)
      ensures exists all :: Ranks(View(), queue, status, all) && out == Clip(all, 0, limit)
    {
      var all := ZRange(queue, status);
      return Clip(all, 0, limit);
    }

    method ListNewestTerminal(queue: string, status: Status, limit: int) returns (out: seq<string>)
      ensures exists all :: Ranks(View(), queue, status, all) && out == Clip(Reversed(all), 0, limit)
    {
      var all := ZRange(queue, status);
      return Clip(Reversed(all), 0, limit);
    }

    method ListTerminalPage(queue: string, status: Status, offset: nat, limit: int, direction: ListOrder)
      returns (out: seq<string>)
      ensures exists all :: Ranks(View(), queue, status, all)
                            && out == Clip(if direction.Desc? then Reversed(all) else all, offset, limit)
    {
      var all := ZRange(queue, status);
      return Clip(if direction.Desc? then Reversed(all) else all, offset, limit);
    }

    // -- Removal -------------------------------------------------------------------------

    method RemoveInstance(queue: string, id: string)
      modifies this
      ensures View() == old(View()).Remove(queue, id) && locks == old(locks)
    {
      hashes := hashes - {id};
      steps := map p | p in steps && p.0 != id :: steps[p];
      active := active - {(queue, id)};
      ClearDoneBuckets(queue, id);
    }

    /** Chunked: the caller may hand over thousands of ids. */
    method RemoveInstances(queue: string, ids: seq<string>)
      modifies this
      ensures View() == old(View()).RemoveAll(queue, ids) && locks == old(locks)
    {
      hide Redis.Remove;
      var i := 0;
      while i < |ids|
        invariant 0 <= i <= |ids|
        invariant View() == old(View()).RemoveAll(queue, ids[..i]) && locks == old(locks)
      {
        var end := if i + REMOVE_CHUNK <= |ids| then i + REMOVE_CHUNK else |ids|;
        for j := i to end
          invariant View() == old(View()).RemoveAll(queue, ids[..j]) && locks == old(locks)
        {
          RemoveInstance(queue, ids[j]);
          assert ids[..j + 1][..j] == ids[..j];
        }
        i := end;
      }
      assert ids[..|ids|] == ids;
    }

    /** Drain a queue chunk by chunk, then drop its index keys. */
    method WipeQueue(queue: string)
      modifies this
      ensures View() == old(View()).Wipe(queue) && locks == old(locks)
    {
      hide Redis.RemoveAll, Removed, Redis.Indexed;
      ghost var gone: seq<string> := [];
      RemovedNone(View(), queue);
      while true
        invariant Removed(old(View()), queue, gone, View()) && locks == old(locks)
        invariant forall id :: id in gone ==> id in old(View()).Indexed(queue)
        decreases |View().Indexed(queue)|
      {
        label before:
        var ids := NextIds(queue);
        if ids == [] {
          break;
        }
        RemoveInstances(queue, ids);
        RemovesAll(old@before(View()), queue, ids);
        RemovedMore(old(View()), queue, gone, old@before(View()), ids, View());
        IndexedLess(old(View()), queue, gone, old@before(View()));
        IndexedLess(old@before(View()), queue, ids, View());
        assert ids[0] in old@before(View()).Indexed(queue) && ids[0] !in View().Indexed(queue);
        Shrinks(View().Indexed(queue), old@before(View()).Indexed(queue), ids[0]);
        gone := gone + ids;
        if |ids| < WIPE_CHUNK {
          assert View().Indexed(queue) == {};
          break;
        }
      }
      ghost var drained := View();
      active := set p | p in active && p.0 != queue;
      done := map p | p in done && !(p.0 == queue && p.1.Terminal()) :: done[p];
      queues := queues - {queue};
      WipedAll(old(View()), queue, gone, drained);
    }

    /** Every active id of the queue, and up to a chunk of each of its buckets. */
    method NextIds(queue: string) returns (ids: seq<string>)
      ensures forall id :: id in ids ==> id in View().Indexed(queue)
      ensures ids == [] || |ids| < WIPE_CHUNK ==> forall id :: id in View().Indexed(queue) ==> id in ids
    {
      hide Redis.Indexed;
      var found: set<string> := set p | p in active && p.0 == queue :: p.1;
      forall id | id in found ensures id in View().Indexed(queue) {
        var p :| p in active && p.0 == queue && p.1 == id;
        assert p == (queue, id);
        InIndex(View(), queue, id);
      }
      for i := 0 to |TERMINAL_STATUSES|
        invariant forall id :: id in found ==> id in View().Indexed(queue)
        invariant forall id :: (queue, id) in active ==> id in found
        invariant |found| < WIPE_CHUNK ==>
                    forall s, id :: s in TERMINAL_STATUSES[..i] && (queue, s, id) in done ==> id in found
      {
        var status := TERMINAL_STATUSES[i];
        var more := ChunkOf(queue, status);
        Larger(found + more, found);
        Larger(found + more, more);
        found := found + more;
        assert TERMINAL_STATUSES[..i + 1] == TERMINAL_STATUSES[..i] + [status];
      }
      assert TERMINAL_STATUSES[..4] == TERMINAL_STATUSES;
      ids := Enumerated(found);
      forall id | |ids| < WIPE_CHUNK && id in View().Indexed(queue) ensures id in ids {
        InIndex(View(), queue, id);
        assert forall s: Status :: s.Terminal() ==> s in TERMINAL_STATUSES;
      }
    }

    method ChunkOf(queue: string, status: Status) returns (ids: set<string>)
      requires status.Terminal()
      ensures forall id :: id in ids ==> id in View().Indexed(queue)
      ensures |ids| < WIPE_CHUNK ==> forall id :: (queue, status, id) in done ==> id in ids
    {
      var bucket := ListOldestTerminal(queue, status, WIPE_CHUNK);
      FirstChunk(View(), queue, status, bucket, WIPE_CHUNK);
      ids := set id | id in bucket;
      SetOfList(bucket, ids);
      forall id | id in ids ensures id in View().Indexed(queue) {
        InIndex(View(), queue, id);
      }
    }
  }

  lemma RemovedNone(r: Redis, queue: string)
    ensures Removed(r, queue, [], r)
  {
  }

  lemma IndexedLess(r: Redis, queue: string, ids: seq<string>, n: Redis)
    requires Removed(r, queue, ids, n)
    ensures forall id :: id in n.Indexed(queue) <==> id in r.Indexed(queue) && id !in ids
  {
    forall id ensures id in n.Indexed(queue) <==> id in r.Indexed(queue) && id !in ids {
      InIndex(r, queue, id);
      InIndex(n, queue, id);
    }
  }

  lemma InIndex(r: Redis, queue: string, id: string)
    ensures id in r.Indexed(queue) <==>
              (queue, id) in r.active || exists s: Status :: s.Terminal() && (queue, s, id) in r.done
  {
    if s: Status :| s.Terminal() && (queue, s, id) in r.done {
      assert (queue, s, id) in r.done.Keys;
    }
  }

  lemma FirstChunk(r: Redis, queue: string, status: Status, bucket: seq<string>, limit: nat)
    requires exists all :: Ranks(r, queue, status, all) && bucket == Clip(all, 0, limit)
    ensures NoRepeats(bucket) && forall id :: id in bucket ==> (queue, status, id) in r.done
    ensures |bucket| < limit ==> forall id :: (queue, status, id) in r.done ==> id in bucket
  {
    var all :| Ranks(r, queue, status, all) && bucket == Clip(all, 0, limit);
    assert bucket <= all;
    if |bucket| < limit {
      assert bucket == all;
    }
  }

  /** The index keys have been emptied, so dropping them completes the wipe. */
  lemma WipedAll(r: Redis, queue: string, gone: seq<string>, n: Redis)
    requires Removed(r, queue, gone, n) && n.Indexed(queue) == {}
    requires forall id :: id in gone ==> id in r.Indexed(queue)
    ensures Redis(n.hashes, n.steps, set p | p in n.active && p.0 != queue,
                  map p | p in n.done && !(p.0 == queue && p.1.Terminal()) :: n.done[p], n.queues - {queue})
            == r.Wipe(queue)
  {
    IndexedLess(r, queue, gone, n);
    var ids := r.Indexed(queue);
    assert forall id :: id in ids <==> id in gone;
    var w := r.Wipe(queue);
    hide Redis.Indexed;
    assert n.hashes == w.hashes;
    forall p ensures p in n.steps <==> p in w.steps {
      assert p == (p.0, p.1);
    }
    forall p | p in n.steps ensures n.steps[p] == w.steps[p] {
      assert p == (p.0, p.1);
    }
    assert n.steps == w.steps;
  }

  method Enumerated(s: set<string>) returns (ids: seq<string>)
    ensures NoRepeats(ids) && |ids| == |s| && forall id :: id in ids <==> id in s
  {
    ids := [];
    var rest := s;
    while rest != {}
      invariant NoRepeats(ids) && rest <= s && |ids| + |rest| == |s|
      invariant forall id :: id in ids <==> id in s && id !in rest
      decreases |rest|
    {
      var id :| id in rest;
      ids := ids + [id];
      rest := rest - {id};
    }
  }
}
