/** The reaper: state lives as long as its job does. */
module Reapers {
  import opened Records
  import opened Sorting
  import opened MemoryStores

  const ROUNDS := 4

  /** What BullMQ answers while a pass runs: which jobs exist, and which runs a 0.1.x resume job still carries. */
  datatype Jobs = Jobs(exist: string -> bool, carried: (string, nat) -> bool)

  function JobIdOf(queue: string, id: string): string {
    if queue + ":" <= id then id[|queue| + 1..] else id
  }

  predicate Dead(jobs: Jobs, queue: string, id: string) {
    !jobs.exist(JobIdOf(queue, id))
  }

  /** A run of the queue is named after its job; any other id is taken for a job id as it is. */
  lemma JobIdNamed(queue: string, job: string)
    ensures JobIdOf(queue, queue + ":" + job) == job
    ensures !(queue + ":" <= job) ==> JobIdOf(queue, job) == job
  {
    var id := queue + ":" + job;
    assert id[..|queue| + 1] == queue + ":";
    assert id[|queue| + 1..] == job;
  }

  /** A run of the queue is dead exactly when its job is gone. */
  lemma DeadNamed(jobs: Jobs, queue: string, job: string)
    ensures Dead(jobs, queue, queue + ":" + job) <==> !jobs.exist(job)
  {
    hide JobIdOf;
    JobIdNamed(queue, job);
  }

  // -- Buckets that shrink -----------------------------------------------------------------

  lemma {:induction false} SortSame(ids: seq<string>, a: string -> int, b: string -> int)
    requires forall id :: id in ids ==> a(id) == b(id)
    ensures Sort(ids, a) == Sort(ids, b)
  {
    if ids != [] {
      SortSame(ids[1..], a, b);
      var rest := Sort(ids[1..], a);
      forall id | id in rest ensures a(id) == b(id) {
        SortMember(ids[1..], a, id);
      }
      InsertSame(ids[0], rest, a, b);
    }
  }

  lemma {:induction false} InsertSame(x: string, xs: seq<string>, a: string -> int, b: string -> int)
    requires a(x) == b(x) && forall id :: id in xs ==> a(id) == b(id)
    ensures Insert(x, xs, a) == Insert(x, xs, b)
  {
    if xs != [] {
      assert xs[0] in xs;
      InsertSame(x, xs[1..], a, b);
    }
  }

  lemma InsertHead(x: string, xs: seq<string>, key: string -> int)
    requires xs == [] || key(x) <= key(xs[0])
    ensures Insert(x, xs, key) == [x] + xs
  {
  }

  lemma InsertStep(x: string, first: string, rest: seq<string>, key: string -> int)
    requires key(x) > key(first)
    ensures Insert(x, [first] + rest, key) == [first] + Insert(x, rest, key)
  {
    assert ([first] + rest)[1..] == rest;
  }

  lemma {:induction false} KeepInsert(x: string, xs: seq<string>, key: string -> int, gone: set<string>)
    requires Sorted(xs, key)
    ensures Keep(Insert(x, xs, key), gone) == if x in gone then Keep(xs, gone) else Insert(x, Keep(xs, gone), key)
  {
    hide Keep, Insert;
    var kept := Keep(xs, gone);
    if xs == [] || key(x) <= key(xs[0]) {
      InsertHead(x, xs, key);
      KeepCons(x, xs, gone);
      if kept != [] {
        assert kept[0] in xs;
      }
      InsertHead(x, kept, key);
    } else {
      var first, rest := xs[0], xs[1..];
      assert xs == [first] + rest;
      KeepInsert(x, rest, key, gone);
      InsertStep(x, first, rest, key);
      KeepCons(first, Insert(x, rest, key), gone);
      KeepCons(first, rest, gone);
      if first !in gone {
        InsertStep(x, first, Keep(rest, gone), key);
      }
    }
  }

  lemma KeepCons(x: string, xs: seq<string>, gone: set<string>)
    ensures Keep([x] + xs, gone) == if x in gone then Keep(xs, gone) else [x] + Keep(xs, gone)
  {
    assert ([x] + xs)[1..] == xs;
  }

  /** Sorting what is left is leaving it from what was sorted. */
  lemma {:induction false} KeepSort(ids: seq<string>, key: string -> int, gone: set<string>)
    ensures Sort(Keep(ids, gone), key) == Keep(Sort(ids, key), gone)
  {
    if ids != [] {
      KeepSort(ids[1..], key, gone);
      SortSorts(ids[1..], key);
      KeepInsert(ids[0], Sort(ids[1..], key), key, gone);
    }
  }

  lemma {:induction false} KeepStatus(runs: Runs, ids: seq<string>, queue: string, status: Status, gone: set<string>)
    ensures InStatus(runs - gone, Keep(ids, gone), queue, status) == Keep(InStatus(runs, ids, queue, status), gone)
  {
    if ids != [] {
      KeepStatus(runs, ids[1..], queue, status, gone);
      var kept := Keep(ids[1..], gone);
      if ids[0] !in gone {
        assert ([ids[0]] + kept)[1..] == kept;
      }
      var rest := InStatus(runs, ids[1..], queue, status);
      assert ([ids[0]] + rest)[1..] == rest;
    }
  }

  /** A bucket after `gone` has been removed is the old bucket without `gone`. */
  lemma BucketLeft(runs: Runs, ids: seq<string>, queue: string, status: Status, gone: set<string>)
    ensures OldestFirst(runs - gone, Keep(ids, gone), queue, status)
            == Keep(OldestFirst(runs, ids, queue, status), gone)
  {
    KeepStatus(runs, ids, queue, status, gone);
    KeepSort(InStatus(runs, ids, queue, status), EndedAt(runs), gone);
    SortSame(Keep(InStatus(runs, ids, queue, status), gone), EndedAt(runs), EndedAt(runs - gone));
  }

  // -- The pass --------------------------------------------------------------------------------

  /** How many of `ids` are dead from the front. */
  predicate DeadUpTo(jobs: Jobs, queue: string, ids: seq<string>, d: nat) {
    d <= |ids| && forall i :: 0 <= i < d ==> Dead(jobs, queue, ids[i])
  }

  function AtMost(a: nat, b: nat): nat {
    if a < b then a else b
  }

  /** Of a bucket's oldest dead entries, four batches at least are gone. */
  ghost predicate Drained(jobs: Jobs, queue: string, bucket: seq<string>, gone: set<string>, batch: nat) {
    forall d :: DeadUpTo(jobs, queue, bucket, d) ==>
      forall i :: 0 <= i < AtMost(d, ROUNDS * batch) ==> bucket[i] in gone
  }

  predicate Reapable(jobs: Jobs, queue: string, runs: Runs, id: string) {
    id in runs && runs[id].instance.queueName == queue && runs[id].instance.status.Terminal() && Dead(jobs, queue, id)
  }

  class DurableReaper {
    const store: MemoryStateStore
    const queue: string
    const batch: nat
    const throttleMs: nat
    const graceMs: nat
    var lastPass: nat
    var running: bool

    constructor (store: MemoryStateStore, queue: string, batch: nat, throttleMs: nat, graceMs: nat)
      ensures this.store == store && this.queue == queue && this.batch == batch
      ensures this.throttleMs == throttleMs && this.graceMs == graceMs && lastPass == 0 && !running
    {
      this.store, this.queue, this.batch, this.throttleMs, this.graceMs := store, queue, batch, throttleMs, graceMs;
      lastPass, running := 0, false;
    }

    /** Whether a fire-and-forget pass starts: not while one is running, and not too soon after the last. */
    method Kick(now: nat) returns (starts: bool)
      modifies this
      ensures starts <==> !old(running) && now - old(lastPass) >= throttleMs
      ensures running == (old(running) || starts) && lastPass == if starts then now else old(lastPass)
    {
      if running || now - lastPass < throttleMs {
        return false;
      }
      lastPass := now;
      running := true;
      return true;
    }

    /** The ids of a batch whose job is missing. */
    method DeadOf(jobs: Jobs, ids: seq<string>) returns (dead: seq<string>)
      requires NoRepeats(ids)
      ensures NoRepeats(dead) && |dead| <= |ids|
      ensures forall id :: id in dead <==> id in ids && Dead(jobs, queue, id)
      ensures |dead| == |ids| ==> forall id :: id in ids ==> id in dead
    {
      dead := [];
      for i := 0 to |ids|
        invariant NoRepeats(dead) && |dead| <= i
        invariant forall id :: id in dead <==> id in ids[..i] && Dead(jobs, queue, id)
        invariant |dead| == i ==> forall id :: id in ids[..i] ==> id in dead
      {
        assert ids[..i + 1] == ids[..i] + [ids[i]];
        assert ids[i] !in ids[..i];
        if !jobs.exist(JobIdOf(queue, ids[i])) {
          dead := dead + [ids[i]];
        }
      }
      assert ids[..|ids|] == ids;
    }

    /** The store is what `runs` and `ids` were, less `gone`, all of which had ended and lost their job. */
    ghost predicate Left(jobs: Jobs, runs: Runs, ids: seq<string>, gone: set<string>)
      reads this, store
    {
      && store.Valid() && store.records == runs - gone && store.order == Keep(ids, gone)
      && forall id :: id in gone ==> Reapable(jobs, queue, runs, id)
    }

    /** Remove the dead among the oldest batch of a bucket; go on while the whole batch was dead. */
    method ReapBatch(jobs: Jobs, status: Status, ghost runs: Runs, ghost ids: seq<string>, ghost gone: set<string>)
      returns (removed: nat, more: bool, ghost now: set<string>)
      requires Left(jobs, runs, ids, gone) && status.Terminal() && NoRepeats(ids)
      modifies store`records, store`order, store`locks
      ensures Left(jobs, runs, ids, now) && gone <= now && removed == |now| - |gone|
      ensures var batched := Clip(Keep(OldestFirst(runs, ids, queue, status), gone), 0, batch);
              && (forall id :: id in now <==> id in gone || (id in batched && Dead(jobs, queue, id)))
              && (more <==> batch > 0 && |batched| == batch && forall id :: id in batched ==> Dead(jobs, queue, id))
    {
      hide OldestFirst, Keep, Clip, Reapable;
      BucketLeft(runs, ids, queue, status, gone);
      var batched := store.ListOldestTerminal(queue, status, batch);
      now := gone;
      BatchFacts(runs, ids, queue, status, gone, batch, batched);
      if |batched| == 0 {
        return 0, false, now;
      }
      var dead := DeadOf(jobs, batched);
      if |dead| > 0 {
        store.RemoveInstances(dead);
        KeepKeep(ids, gone, MembersOf(dead));
        now := gone + MembersOf(dead);
        assert runs - gone - MembersOf(dead) == runs - now;
        Disjoint(gone, dead);
        DeadReapable(jobs, queue, runs, status, dead);
      }
      removed := |dead|;
      more := !(|dead| < |batched| || |batched| < batch);
      SomeAlive(jobs, queue, batched, dead);
    }

    /** Up to four batches of one bucket. */
    method ReapBucket(jobs: Jobs, status: Status, ghost runs: Runs, ghost ids: seq<string>, ghost gone: set<string>)
      returns (removed: nat, ghost now: set<string>)
      requires Left(jobs, runs, ids, gone) && status.Terminal() && NoRepeats(ids)
      requires forall id :: id in OldestFirst(runs, ids, queue, status) ==> id !in gone
      modifies store`records, store`order, store`locks
      ensures Left(jobs, runs, ids, now) && gone <= now && removed == |now| - |gone|
      ensures Drained(jobs, queue, OldestFirst(runs, ids, queue, status), now, batch)
      ensures forall id :: id in now - gone ==> id in OldestFirst(runs, ids, queue, status)
    {
      hide OldestFirst, Keep, Drained, Clip, Left;
      ghost var bucket := OldestFirst(runs, ids, queue, status);
      BucketOnce(runs, ids, queue, status);
      now, removed := gone, 0;
      KeepAll(bucket, gone);
      assert bucket[0..] == bucket;
      for round := 0 to ROUNDS
        invariant Left(jobs, runs, ids, now) && gone <= now && removed == |now| - |gone|
        invariant round * batch <= |bucket| && Keep(bucket, now) == bucket[round * batch..]
        invariant forall i :: 0 <= i < round * batch ==> bucket[i] in now
        invariant forall id :: id in now - gone ==> id in bucket
      {
        ghost var before := now;
        var more: bool;
        var count: nat;
        count, more, now := ReapBatch(jobs, status, runs, ids, now);
        removed := removed + count;
        ghost var batched := Clip(bucket[round * batch..], 0, batch);
        ClipPart(bucket, round * batch, batch, batched);
        if !more {
          DrainedNow(jobs, queue, bucket, before, now, round * batch, batched, batch, round);
          return;
        }
        NextRound(bucket, before, now, round * batch, batched, batch);
        assert (round + 1) * batch == round * batch + batch;
      }
      DrainedAfter(jobs, queue, bucket, now, batch);
    }

    /** All four buckets. */
    method ReapBuckets(jobs: Jobs, ghost runs: Runs, ghost ids: seq<string>)
      returns (reaped: nat, ghost gone: set<string>)
      requires store.Valid() && store.records == runs && store.order == ids
      modifies store`records, store`order, store`locks
      ensures Left(jobs, runs, ids, gone) && reaped == |gone|
      ensures forall status :: status in TERMINAL_STATUSES ==>
                Drained(jobs, queue, OldestFirst(runs, ids, queue, status), gone, batch)
    {
      hide OldestFirst, Drained, Keep, Reapable;
      gone, reaped := {}, 0;
      KeepAll(ids, gone);
      assert runs - gone == runs;
      for i := 0 to |TERMINAL_STATUSES|
        invariant Left(jobs, runs, ids, gone) && reaped == |gone|
        invariant forall j :: 0 <= j < i ==>
                    Drained(jobs, queue, OldestFirst(runs, ids, queue, TERMINAL_STATUSES[j]), gone, batch)
        invariant forall id :: id in gone ==> id in runs && runs[id].instance.status in TERMINAL_STATUSES[..i]
      {
        var status := TERMINAL_STATUSES[i];
        forall id | id in OldestFirst(runs, ids, queue, status) ensures id !in gone {
          InBucket(runs, ids, queue, status, id);
        }
        ghost var before := gone;
        var count: nat;
        count, gone := ReapBucket(jobs, status, runs, ids, gone);
        reaped := reaped + count;
        forall j | 0 <= j < i
          ensures Drained(jobs, queue, OldestFirst(runs, ids, queue, TERMINAL_STATUSES[j]), gone, batch)
        {
          DrainedMore(jobs, queue, OldestFirst(runs, ids, queue, TERMINAL_STATUSES[j]), before, gone, batch);
        }
        forall id | id in gone ensures id in runs && runs[id].instance.status in TERMINAL_STATUSES[..i + 1] {
          assert TERMINAL_STATUSES[..i + 1] == TERMINAL_STATUSES[..i] + [status];
          if id !in before {
            InBucket(runs, ids, queue, status, id);
          }
        }
      }
    }

    /**
     * Delete terminal state whose job no longer exists. Only such runs are removed, the count is exact,
     * and a bucket whose oldest entries are dead loses at least four batches of them.
     */
    method ReapTerminal(jobs: Jobs) returns (reaped: nat)
      requires store.Valid()
      modifies store`records, store`order, store`locks
      ensures store.Valid()
      ensures forall id :: id in store.records ==>
                id in old(store.records) && store.records[id] == old(store.records[id])
      ensures forall id :: id in old(store.records) && id !in store.records ==>
                Reapable(jobs, queue, old(store.records), id)
      ensures forall job :: jobs.exist(job) && queue + ":" + job in old(store.records) ==>
                queue + ":" + job in store.records
      ensures reaped == |old(store.records)| - |store.records|
      ensures forall status :: status in TERMINAL_STATUSES ==>
                Drained(jobs, queue, OldestFirst(old(store.records), old(store.order), queue, status),
                        RemovedFrom(old(store.records), store.records), batch)
    {
      hide OldestFirst, Drained, Keep, Reapable;
      ghost var runs, ids := store.records, store.order;
      ghost var gone: set<string>;
      reaped, gone := ReapBuckets(jobs, runs, ids);
      ReapableThere(jobs, queue, runs, gone);
      assert gone == RemovedFrom(runs, store.records);
      LeftCount(runs, gone);
      forall job | jobs.exist(job) && queue + ":" + job in runs ensures queue + ":" + job in store.records {
        ReapableNamed(jobs, runs, job);
      }
    }

    lemma ReapableNamed(jobs: Jobs, runs: Runs, job: string)
      requires jobs.exist(job)
      ensures !Reapable(jobs, queue, runs, queue + ":" + job)
    {
      DeadNamed(jobs, queue, job);
    }

    /** A non-terminal run whose job is gone, past the grace window, and not carried by a 0.1.x job. */
    predicate Orphan(jobs: Jobs, runs: Runs, id: string, now: nat) {
      && id in runs && runs[id].instance.queueName == queue && !runs[id].instance.status.Terminal()
      && Dead(jobs, queue, id)
      && now - runs[id].instance.updatedAt >= graceMs
      && !LegacyCarrierAlive(jobs, runs[id].instance)
    }

    predicate LegacyCarrierAlive(jobs: Jobs, i: Instance) {
      i.resumeSeq.Some? && i.resumeSeq.value > 0 && jobs.carried(i.originalJobId, i.resumeSeq.value)
    }

    /** Cancel one active run if it is an orphan. */
    method ReconcileOne(jobs: Jobs, id: string, now: nat) returns (orphan: bool)
      requires store.Valid() && id in store.records
      requires store.records[id].instance.queueName == queue && !store.records[id].instance.status.Terminal()
      modifies store`records
      ensures store.Valid() && (orphan <==> Orphan(jobs, old(store.records), id, now))
      ensures store.records == if orphan then old(store.records)[id := old(store.records)[id].End(Cancel, now)]
                               else old(store.records)
    {
      if jobs.exist(JobIdOf(queue, id)) {
        return false;
      }
      var instance := store.records[id].instance;
      if now - instance.updatedAt < graceMs {
        return false;
      }
      if LegacyCarrierAlive(jobs, instance) {
        return false;
      }
      orphan := store.TerminalTransition(id, "", Ending.Cancel, now);
    }

    lemma OrphanSame(jobs: Jobs, a: Runs, b: Runs, id: string, now: nat)
      requires id in a && id in b && a[id] == b[id]
      ensures Orphan(jobs, a, id, now) <==> Orphan(jobs, b, id, now)
    {
    }

    /** Cancel the orphans among the active runs, and nothing else. */
    method ReconcileActive(jobs: Jobs, now: nat) returns (orphans: nat)
      requires store.Valid()
      modifies store`records
      ensures store.Valid() && store.records.Keys == old(store.records).Keys
      ensures forall id :: id in store.records ==>
                store.records[id]
                == if Orphan(jobs, old(store.records), id, now) then old(store.records[id]).End(Cancel, now)
                                     else old(store.records[id])
      ensures orphans == |OrphansOf(jobs, old(store.records), now)|
      ensures forall job :: jobs.exist(job) && queue + ":" + job in old(store.records) ==>
                store.records[queue + ":" + job] == old(store.records[queue + ":" + job])
    {
      ghost var runs := store.records;
      var ids := store.ListActive(queue);
      orphans := 0;
      ghost var ended: set<string> := {};
      hide Orphan, Record.End, CancelledIn;
      CancelledNone(runs, now);
      for i := 0 to |ids|
        invariant store.Valid() && CancelledIn(store.records, runs, ended, now) && orphans == |ended|
        invariant forall id :: id in ended <==> id in ids[..i] && Orphan(jobs, runs, id, now)
      {
        assert ids[..i + 1] == ids[..i] + [ids[i]];
        assert ids[i] !in ids[..i] && ids[i] in ids;
        StillThere(store.records, runs, ended, now, ids[i]);
        OrphanSame(jobs, runs, store.records, ids[i], now);
        CancelledMore(store.records, runs, ended, now, ids[i]);
        var orphan := ReconcileOne(jobs, ids[i], now);
        if orphan {
          orphans := orphans + 1;
          ended := ended + {ids[i]};
        }
      }
      assert ids[..|ids|] == ids;
      OrphansListed(jobs, runs, ids, now);
      assert ended == OrphansOf(jobs, runs, now);
      CancelledAll(jobs, store.records, runs, now);
      forall job | jobs.exist(job) && queue + ":" + job in runs
        ensures store.records[queue + ":" + job] == runs[queue + ":" + job]
      {
        OrphanNamed(jobs, runs, job, now);
      }
    }

    /** Which runs are orphans, in terms of their jobs. */
    lemma OrphanNamed(jobs: Jobs, runs: Runs, job: string, now: nat)
      requires queue + ":" + job in runs
      ensures Orphan(jobs, runs, queue + ":" + job, now) <==>
              var i := runs[queue + ":" + job].instance;
              && !jobs.exist(job) && i.queueName == queue && i.updatedAt + graceMs <= now
              && (i.status.Running? || i.status.Yielded? || i.status.Compensating?)
              && (i.resumeSeq.Some? && i.resumeSeq.value > 0 ==> !jobs.carried(i.originalJobId, i.resumeSeq.value))
    {
      hide Dead;
      DeadNamed(jobs, queue, job);
    }

    lemma CancelledAll(jobs: Jobs, after: Runs, runs: Runs, now: nat)
      requires CancelledIn(after, runs, OrphansOf(jobs, runs, now), now)
      ensures after.Keys == runs.Keys
      ensures forall id :: id in after ==>
                after[id] == if Orphan(jobs, runs, id, now) then runs[id].End(Cancel, now) else runs[id]
    {
      hide Orphan, Record.End;
    }

    function OrphansOf(jobs: Jobs, runs: Runs, now: nat): set<string> {
      set id | id in runs && Orphan(jobs, runs, id, now)
    }

    lemma OrphansListed(jobs: Jobs, runs: Runs, ids: seq<string>, now: nat)
      requires forall id :: id in ids <==>
                 id in runs && runs[id].instance.queueName == queue && !runs[id].instance.status.Terminal()
      ensures forall id :: Orphan(jobs, runs, id, now) ==> id in ids && id in runs
    {
    }
  }

  /** `after` is `runs` with the runs in `ended` cancelled. */
  ghost predicate CancelledIn(after: Runs, runs: Runs, ended: set<string>, now: nat) {
    && after.Keys == runs.Keys
    && forall id :: id in runs ==> after[id] == if id in ended then runs[id].End(Cancel, now) else runs[id]
  }

  lemma CancelledNone(runs: Runs, now: nat)
    ensures CancelledIn(runs, runs, {}, now)
  {
  }

  lemma StillThere(after: Runs, runs: Runs, ended: set<string>, now: nat, id: string)
    requires CancelledIn(after, runs, ended, now) && id in runs && id !in ended
    ensures id in after && after[id] == runs[id]
  {
  }

  lemma CancelledMore(after: Runs, runs: Runs, ended: set<string>, now: nat, id: string)
    requires CancelledIn(after, runs, ended, now) && id in runs && id in after && id !in ended
    ensures CancelledIn(after[id := after[id].End(Cancel, now)], runs, ended + {id}, now)
  {
    hide Record.End;
  }

  function RemovedFrom(before: Runs, after: Runs): set<string> {
    set id | id in before && id !in after
  }

  lemma BatchFacts(runs: Runs, ids: seq<string>, queue: string, status: Status, gone: set<string>, batch: nat,
                   batched: seq<string>)
    requires NoRepeats(ids) && status.Terminal()
    requires batched == Clip(Keep(OldestFirst(runs, ids, queue, status), gone), 0, batch)
    ensures NoRepeats(batched) && |batched| <= batch
    ensures forall id :: id in batched ==>
              id !in gone && id in runs && runs[id].instance.queueName == queue && runs[id].instance.status == status
  {
    BucketOnce(runs, ids, queue, status);
    forall id | id in batched
      ensures id !in gone && id in runs && runs[id].instance.queueName == queue && runs[id].instance.status == status
    {
      assert id in Keep(OldestFirst(runs, ids, queue, status), gone);
      InBucket(runs, ids, queue, status, id);
    }
  }

  lemma DeadReapable(jobs: Jobs, queue: string, runs: Runs, status: Status, dead: seq<string>)
    requires status.Terminal()
    requires forall id :: id in dead ==>
               && id in runs && runs[id].instance.queueName == queue && runs[id].instance.status == status
               && Dead(jobs, queue, id)
    ensures forall id :: id in dead ==> Reapable(jobs, queue, runs, id)
  {
  }

  lemma InBucket(runs: Runs, ids: seq<string>, queue: string, status: Status, id: string)
    ensures id in OldestFirst(runs, ids, queue, status) ==>
              id in runs && runs[id].instance.queueName == queue && runs[id].instance.status == status
  {
    SortMember(InStatus(runs, ids, queue, status), EndedAt(runs), id);
  }

  lemma BucketOnce(runs: Runs, ids: seq<string>, queue: string, status: Status)
    requires NoRepeats(ids)
    ensures NoRepeats(OldestFirst(runs, ids, queue, status))
  {
    SortOnce(InStatus(runs, ids, queue, status), EndedAt(runs));
  }

  lemma {:induction false} SortOnce(ids: seq<string>, key: string -> int)
    requires NoRepeats(ids)
    ensures NoRepeats(Sort(ids, key))
  {
    if ids != [] {
      NoRepeatsTail(ids);
      SortOnce(ids[1..], key);
      SortMember(ids[1..], key, ids[0]);
      InsertOnce(ids[0], Sort(ids[1..], key), key);
    }
  }

  lemma Disjoint(gone: set<string>, dead: seq<string>)
    requires NoRepeats(dead) && forall id :: id in dead ==> id !in gone
    ensures |gone + MembersOf(dead)| == |gone| + |dead|
  {
    SetOfList(dead, MembersOf(dead));
  }

  lemma SomeAlive(jobs: Jobs, queue: string, batched: seq<string>, dead: seq<string>)
    requires NoRepeats(batched) && NoRepeats(dead) && |dead| <= |batched|
    requires forall id :: id in dead <==> id in batched && Dead(jobs, queue, id)
    ensures |dead| == |batched| <==> forall id :: id in batched ==> Dead(jobs, queue, id)
  {
    SetOfList(batched, MembersOf(batched));
    SetOfList(dead, MembersOf(dead));
    if |dead| == |batched| {
      forall id | id in batched ensures id in dead {
        if id !in dead {
          Shrinks(MembersOf(dead), MembersOf(batched), id);
        }
      }
    }
    if forall id :: id in batched ==> Dead(jobs, queue, id) {
      assert MembersOf(dead) == MembersOf(batched);
    }
  }

  lemma ClipPart(bucket: seq<string>, from: nat, batch: nat, batched: seq<string>)
    requires from <= |bucket| && batched == Clip(bucket[from..], 0, batch)
    ensures |batched| <= batch && from + |batched| <= |bucket|
    ensures |batched| < batch ==> from + |batched| == |bucket|
    ensures forall i :: 0 <= i < |batched| ==> batched[i] == bucket[from + i]
  {
  }

  lemma NextRound(bucket: seq<string>, before: set<string>, now: set<string>, from: nat, batched: seq<string>,
                  batch: nat)
    requires NoRepeats(bucket) && from + batch <= |bucket| && |batched| == batch
    requires forall i :: 0 <= i < batch ==> batched[i] == bucket[from + i]
    requires Keep(bucket, before) == bucket[from..] && forall i :: 0 <= i < from ==> bucket[i] in before
    requires forall id :: id in now <==> id in before || id in batched
    ensures Keep(bucket, now) == bucket[from + batch..]
    ensures forall i :: 0 <= i < from + batch ==> bucket[i] in now
  {
    forall i | 0 <= i < from + batch ensures bucket[i] in now {
      if i >= from {
        assert bucket[i] == batched[i - from];
      }
    }
    forall i | from + batch <= i < |bucket| ensures bucket[i] !in now {
      assert bucket[i] == bucket[from..][i - from];
      assert bucket[i] in Keep(bucket, before);
    }
    KeepSuffix(bucket, now, from + batch);
  }

  lemma {:induction false} KeepSuffix(ids: seq<string>, gone: set<string>, n: nat)
    requires n <= |ids| && forall i :: 0 <= i < n ==> ids[i] in gone
    requires forall i :: n <= i < |ids| ==> ids[i] !in gone
    ensures Keep(ids, gone) == ids[n..]
  {
    if n == 0 {
      KeepAll(ids, gone);
      assert ids[0..] == ids;
    } else {
      var tail := ids[1..];
      assert forall i :: 0 <= i < |tail| ==> tail[i] == ids[i + 1];
      KeepSuffix(tail, gone, n - 1);
      assert tail[n - 1..] == ids[n..];
    }
  }

  lemma DrainedNow(jobs: Jobs, queue: string, bucket: seq<string>, before: set<string>, now: set<string>, from: nat,
                   batched: seq<string>, batch: nat, round: nat)
    requires from + |batched| <= |bucket| && (|batched| < batch ==> from + |batched| == |bucket|)
    requires forall i :: 0 <= i < |batched| ==> batched[i] == bucket[from + i]
    requires forall i :: 0 <= i < from ==> bucket[i] in before
    requires forall id :: id in now <==> id in before || (id in batched && Dead(jobs, queue, id))
    requires !(batch > 0 && |batched| == batch && forall id :: id in batched ==> Dead(jobs, queue, id))
    requires |batched| <= batch
    ensures Drained(jobs, queue, bucket, now, batch)
  {
    ghost var stop := from + |batched|;
    if |batched| == batch && batch > 0 {
      var id :| id in batched && !Dead(jobs, queue, id);
      var j :| 0 <= j < |batched| && batched[j] == id;
      assert bucket[from + j] == id;
      stop := from + j;
    }
    forall d, i | DeadUpTo(jobs, queue, bucket, d) && 0 <= i < AtMost(d, ROUNDS * batch) ensures bucket[i] in now {
      assert i < stop;
      if from <= i {
        assert batched[i - from] == bucket[i] && Dead(jobs, queue, bucket[i]);
      }
    }
  }

  lemma DrainedAfter(jobs: Jobs, queue: string, bucket: seq<string>, now: set<string>, batch: nat)
    requires ROUNDS * batch <= |bucket| && forall i :: 0 <= i < ROUNDS * batch ==> bucket[i] in now
    ensures Drained(jobs, queue, bucket, now, batch)
  {
  }

  lemma DrainedMore(jobs: Jobs, queue: string, bucket: seq<string>, before: set<string>, now: set<string>, batch: nat)
    requires Drained(jobs, queue, bucket, before, batch) && before <= now
    ensures Drained(jobs, queue, bucket, now, batch)
  {
  }

  lemma ReapableThere(jobs: Jobs, queue: string, runs: Runs, gone: set<string>)
    requires forall id :: id in gone ==> Reapable(jobs, queue, runs, id)
    ensures gone <= runs.Keys
  {
  }

  lemma LeftCount(runs: Runs, gone: set<string>)
    requires gone <= runs.Keys
    ensures |runs - gone| == |runs| - |gone|
  {
    assert (runs - gone).Keys == runs.Keys - gone;
    assert runs.Keys == (runs.Keys - gone) + gone;
    assert |(runs - gone).Keys| == |runs - gone| && |runs.Keys| == |runs|;
  }
}
