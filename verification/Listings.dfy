/** The bucket listings of the two stores. */
module Listings {
  import opened Values
  import opened Records
  import opened Sorting
  import opened MemoryStores
  import opened Indexes

  /** `ids` is what ZRANGE returns for a whole bucket: its members, each once, by ascending score. */
  ghost predicate Ranks(r: Redis, queue: string, status: Status, ids: seq<string>) {
    && NoRepeats(ids)
    && (forall id :: id in ids <==> (queue, status, id) in r.done)
    && (forall i, j :: 0 <= i < j < |ids| ==> r.done[(queue, status, ids[i])] <= r.done[(queue, status, ids[j])])
  }

  /** No two runs of a bucket ended in the same millisecond. */
  predicate DistinctEnds(m: Runs, queue: string, status: Status) {
    forall a, b :: a in m && b in m && a != b && Held(m, a, queue, status) && Held(m, b, queue, status) ==>
      m[a].terminalAt != m[b].terminalAt
  }

  predicate Held(m: Runs, id: string, queue: string, status: Status) {
    id in m && m[id].instance.queueName == queue && m[id].instance.status == status
  }

  lemma MemberScore(m: Runs, r: Redis, queue: string, status: Status, id: string)
    requires Agree(m, r) && status.Terminal()
    ensures (queue, status, id) in r.done <==> Held(m, id, queue, status)
    ensures Held(m, id, queue, status) ==>
              m[id].terminalAt == Some(r.done[(queue, status, id)]) && EndedAt(m)(id) == r.done[(queue, status, id)]
  {
    hide Agree;
    AgreesAt(m, r, id);
  }

  lemma RankedStrictly(m: Runs, r: Redis, queue: string, status: Status, ids: seq<string>)
    requires Agree(m, r) && status.Terminal() && DistinctEnds(m, queue, status) && Ranks(r, queue, status, ids)
    ensures StrictlySorted(ids, EndedAt(m))
  {
    hide Agree;
    forall i, j | 0 <= i < j < |ids| ensures EndedAt(m)(ids[i]) < EndedAt(m)(ids[j]) {
      MemberScore(m, r, queue, status, ids[i]);
      MemberScore(m, r, queue, status, ids[j]);
    }
  }

  lemma ScannedStrictly(m: Runs, order: seq<string>, queue: string, status: Status)
    requires NoRepeats(order) && DistinctEnds(m, queue, status)
    requires forall id :: Held(m, id, queue, status) ==> m[id].terminalAt.Some?
    ensures StrictlySorted(OldestFirst(m, order, queue, status), EndedAt(m))
  {
    var ids := InStatus(m, order, queue, status);
    forall i, j | 0 <= i < j < |ids| ensures EndedAt(m)(ids[i]) != EndedAt(m)(ids[j]) {
      assert ids[i] in ids && ids[j] in ids;
      assert Held(m, ids[i], queue, status) && Held(m, ids[j], queue, status);
    }
    SortStrictly(ids, EndedAt(m));
  }

  /**
   * With distinct ending times the two stores list a bucket alike, so the oldest, the newest and every
   * page of it are the same.
   */
  lemma ListingsAgree(m: Runs, order: seq<string>, r: Redis, queue: string, status: Status, ids: seq<string>)
    requires Agree(m, r) && NoRepeats(order) && (forall id :: id in order <==> id in m)
    requires status.Terminal() && DistinctEnds(m, queue, status) && Ranks(r, queue, status, ids)
    ensures ids == OldestFirst(m, order, queue, status)
  {
    hide Agree, DistinctEnds;
    RankedStrictly(m, r, queue, status, ids);
    forall id ensures Held(m, id, queue, status) ==> m[id].terminalAt.Some? {
      MemberScore(m, r, queue, status, id);
    }
    ScannedStrictly(m, order, queue, status);
    var scanned := InStatus(m, order, queue, status);
    forall id ensures id in ids <==> id in OldestFirst(m, order, queue, status) {
      MemberScore(m, r, queue, status, id);
      SortMember(scanned, EndedAt(m), id);
    }
    SortedUnique(ids, OldestFirst(m, order, queue, status), EndedAt(m));
  }

  /**
   * A store update that ends a run counts from the time the memory store already has for it, which an
   * operator retry leaves behind; Redis counts from now. Their listings then differ.
   */
  lemma StaleEndDiffers(i: Instance, t: nat, now: nat)
    requires i.status.Running? && t != now
    ensures var m, op := map[i.id := Record(i, map[], Some(t))], Update(i.id, NO_CHANGE.(status := Some(Completed)));
            && !Allowed(m, op, now)
            && Apply(m, op, now)[i.id].terminalAt == Some(t)
            && forall r: Redis :: i.id in r.hashes && r.hashes[i.id] == i ==>
                 (i.queueName, Completed, i.id) in ApplyRedis(r, op, now).done
                 && ApplyRedis(r, op, now).done[(i.queueName, Completed, i.id)] == now
  {
    hide Clone;
  }
}
