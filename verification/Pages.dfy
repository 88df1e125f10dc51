/** The dashboard's listing of finished runs: one queue's page pushed down, or per-queue pages merged. */
module Pages {
  import opened Values
  import opened Sorting

  const LIST_HARD_CAP := 2000

  datatype Row = Row(id: string, jobName: string, updatedAt: int, createdAt: int, duration: Option<int>)

  datatype SortField = UpdatedAt | CreatedAt | Duration

  datatype Direction = Asc | Desc

  /** `keep` stands for the search and job-name filters, which narrow a list when present. */
  datatype Query = Query(
    queue: Option<string>, keep: Option<Row -> bool>,
    sort: Option<SortField>, order: Option<Direction>, page: nat, pageSize: nat)

  /** A queue with its bucket of runs in one terminal status, newest ending first. */
  datatype Bucket = Bucket(queue: string, newestFirst: seq<Row>)

  datatype Listing = Listing(items: seq<Row>, total: nat, truncated: bool)

  function Take(xs: seq<Row>, n: nat): seq<Row> {
    if n <= |xs| then xs[..n] else xs
  }

  /** `slice(offset, offset + limit)`. */
  function Slice(xs: seq<Row>, offset: nat, limit: nat): seq<Row> {
    Take(if offset <= |xs| then xs[offset..] else [], limit)
  }

  function FieldOf(field: SortField, r: Row): int {
    match field
    case UpdatedAt => r.updatedAt
    case CreatedAt => r.createdAt
    case Duration => r.duration.GetOr(0)
  }

  function SortKey(field: SortField, direction: Direction): Row -> int {
    (r: Row) => if direction.Asc? then FieldOf(field, r) else -FieldOf(field, r)
  }

  const NEWEST := SortKey(UpdatedAt, Desc)

  function Filtered(rows: seq<Row>, keep: Row -> bool): seq<Row> {
    if rows == [] then []
    else (if keep(rows[0]) then [rows[0]] else []) + Filtered(rows[1..], keep)
  }

  function ApplyFilters(rows: seq<Row>, q: Query): seq<Row> {
    if q.keep.None? then rows else Filtered(rows, q.keep.value)
  }

  function ApplySort(rows: seq<Row>, q: Query): seq<Row> {
    Sort(rows, SortKey(q.sort.GetOr(UpdatedAt), q.order.GetOr(Desc)))
  }

  /** The first `n` rows of every bucket, queue by queue. */
  function Heads(buckets: seq<Bucket>, n: nat): seq<Row> {
    if buckets == [] then [] else Take(buckets[0].newestFirst, n) + Heads(buckets[1..], n)
  }

  function All(buckets: seq<Bucket>): seq<Row> {
    if buckets == [] then [] else buckets[0].newestFirst + All(buckets[1..])
  }

  /** The rows the first `n` leave out. */
  function Tails(buckets: seq<Bucket>, n: nat): seq<Row> {
    if buckets == [] then []
    else (if n <= |buckets[0].newestFirst| then buckets[0].newestFirst[n..] else []) + Tails(buckets[1..], n)
  }

  function Named(buckets: seq<Bucket>, queue: Option<string>): seq<Bucket> {
    if queue.None? || buckets == [] then buckets
    else (if buckets[0].queue == queue.value then [buckets[0]] else []) + Named(buckets[1..], queue)
  }

  /** Page of one bucket, as the store's offset query returns it. */
  function PageOf(newestFirst: seq<Row>, direction: Direction, offset: nat, limit: nat): seq<Row> {
    Slice(if direction.Desc? then newestFirst else Reversed(newestFirst), offset, limit)
  }

  function Need(q: Query): nat {
    if q.page * q.pageSize + q.pageSize <= LIST_HARD_CAP then q.page * q.pageSize + q.pageSize else LIST_HARD_CAP
  }

  predicate Pushdown(named: seq<Bucket>, q: Query) {
    |named| == 1 && q.sort.GetOr(UpdatedAt) == UpdatedAt && q.keep.None?
  }

  predicate Overfull(buckets: seq<Bucket>, n: nat) {
    exists i :: 0 <= i < |buckets| && |buckets[i].newestFirst| > n
  }

  function ListTerminalInstances(buckets: seq<Bucket>, q: Query): Listing
    requires q.page >= 1
  {
    var named := Named(buckets, q.queue);
    if named == [] then Listing([], 0, false)
    else if Pushdown(named, q) then
      var rows := named[0].newestFirst;
      Listing(PageOf(rows, q.order.GetOr(Desc), (q.page - 1) * q.pageSize, q.pageSize), |rows|, false)
    else
      var need := Need(q);
      var summaries := ApplySort(ApplyFilters(Heads(named, need), q), q);
      Listing(Slice(summaries, (q.page - 1) * q.pageSize, q.pageSize),
              if q.keep.Some? then |summaries| else |All(named)|,
              Overfull(named, need))
  }

  /** What the page should be: all runs of all the queues, filtered, sorted and sliced. */
  function GlobalPage(buckets: seq<Bucket>, q: Query): seq<Row>
    requires q.page >= 1
  {
    Slice(ApplySort(ApplyFilters(All(Named(buckets, q.queue)), q), q), (q.page - 1) * q.pageSize, q.pageSize)
  }

  /** Bucket order agrees with `updatedAt`. */
  predicate Recent(buckets: seq<Bucket>) {
    forall i :: 0 <= i < |buckets| ==> Sorted(buckets[i].newestFirst, NEWEST)
  }

  // -- Leaving out the tails -----------------------------------------------------------------

  lemma {:induction false} AheadAtLeast(a: seq<Row>, b: seq<Row>, x: Row, post: seq<Row>, key: Row -> int)
    requires forall i :: 0 <= i < |b| ==> key(b[i]) <= key(x)
    ensures Ahead(a + b, x, post, key) >= |b|
    decreases |a| + |b|
  {
    if a != [] {
      assert (a + b)[1..] == a[1..] + b;
      AheadAtLeast(a[1..], b, x, post, key);
    } else if b != [] {
      assert a + b == b && [] + b[1..] == b[1..];
      AheadAtLeast([], b[1..], x, post, key);
    }
  }

  /** A row that at least `n` others come before is not among the first `n`. */
  lemma DropOne(a: seq<Row>, b: seq<Row>, x: Row, post: seq<Row>, key: Row -> int, n: nat)
    requires n <= |b| && forall i :: 0 <= i < |b| ==> key(b[i]) <= key(x)
    ensures Take(Sort(a + (b + [x]) + post, key), n) == Take(Sort(a + b + post, key), n)
  {
    var pre := a + b;
    AheadAtLeast(a, b, x, post, key);
    SortAround(pre, x, post, key);
    assert a + (b + [x]) + post == pre + [x] + post;
    assert |Sort(pre + post, key)| == |pre + post|;
    var p := Ahead(pre, x, post, key);
    var s := Sort(pre + post, key);
    assert (s[..p] + [x] + s[p..])[..n] == s[..n];
  }

  lemma {:induction false} DropTail(a: seq<Row>, b: seq<Row>, post: seq<Row>, key: Row -> int, n: nat, m: nat)
    requires n <= m && Sorted(b, key)
    ensures Take(Sort(a + b + post, key), n) == Take(Sort(a + Take(b, m) + post, key), n)
    decreases |b|
  {
    hide Sort, Take;
    if m < |b| {
      var front, x := b[..|b| - 1], b[|b| - 1];
      assert b == front + [x];
      DropOne(a, front, x, post, key, n);
      DropTail(a, front, post, key, n, m);
      TakeFront(front, x, m);
    } else {
      TakeWhole(b, m);
    }
  }

  lemma TakeFront(front: seq<Row>, x: Row, m: nat)
    requires m <= |front|
    ensures Take(front + [x], m) == Take(front, m)
  {
    assert (front + [x])[..m] == front[..m];
  }

  lemma TakeWhole(xs: seq<Row>, m: nat)
    requires m >= |xs|
    ensures Take(xs, m) == xs
  {
  }

  lemma {:induction false} HeadsSuffice(a: seq<Row>, buckets: seq<Bucket>, n: nat, m: nat)
    requires n <= m && Recent(buckets)
    ensures Take(Sort(a + All(buckets), NEWEST), n) == Take(Sort(a + Heads(buckets, m), NEWEST), n)
    decreases |buckets|
  {
    hide Sort, Take, Sorted;
    if buckets != [] {
      var first, rest := buckets[0].newestFirst, buckets[1..];
      assert forall i :: 0 <= i < |rest| ==> rest[i] == buckets[i + 1];
      DropTail(a, first, All(rest), NEWEST, n, m);
      HeadsSuffice(a + Take(first, m), rest, n, m);
      Regroup(a, first, All(rest));
      Regroup(a, Take(first, m), Heads(rest, m));
    }
  }

  lemma Regroup(a: seq<Row>, b: seq<Row>, c: seq<Row>)
    ensures a + (b + c) == a + b + c
  {
  }

  lemma SlicePrefix(xs: seq<Row>, ys: seq<Row>, offset: nat, limit: nat)
    requires Take(xs, offset + limit) == Take(ys, offset + limit)
    ensures Slice(xs, offset, limit) == Slice(ys, offset, limit)
  {
    SliceOfTake(xs, offset, limit);
    SliceOfTake(ys, offset, limit);
  }

  lemma SliceOfTake(xs: seq<Row>, offset: nat, limit: nat)
    ensures Slice(xs, offset, limit) == Slice(Take(xs, offset + limit), offset, limit)
  {
    if offset <= |xs| && offset + limit < |xs| {
      assert xs[offset..][..limit] == xs[..offset + limit][offset..];
    }
  }

  lemma PageEnd(page: nat, pageSize: nat)
    requires page >= 1
    ensures (page - 1) * pageSize + pageSize == page * pageSize
  {
  }

  lemma {:induction false} NamedRecent(buckets: seq<Bucket>, queue: Option<string>)
    requires Recent(buckets)
    ensures Recent(Named(buckets, queue))
  {
    if queue.Some? && buckets != [] {
      var rest := buckets[1..];
      assert forall i :: 0 <= i < |rest| ==> rest[i] == buckets[i + 1];
      NamedRecent(rest, queue);
    }
  }

  lemma {:induction false} SortedAlready(rows: seq<Row>, key: Row -> int)
    requires Sorted(rows, key)
    ensures Sort(rows, key) == rows
  {
    if rows != [] {
      assert forall i :: 0 <= i < |rows[1..]| ==> rows[1..][i] == rows[i + 1];
      SortedAlready(rows[1..], key);
      assert rows == [rows[0]] + rows[1..];
    }
  }

  // -- The pages are right ---------------------------------------------------------------------

  predicate NewestFirst(q: Query) {
    q.sort.GetOr(UpdatedAt) == UpdatedAt && q.order.GetOr(Desc) == Desc && q.keep.None?
  }

  lemma NoRows(offset: nat, limit: nat)
    ensures Slice(Sort([], NEWEST), offset, limit) == []
  {
  }

  lemma OneBucket(buckets: seq<Bucket>)
    requires |buckets| == 1
    ensures All(buckets) == buckets[0].newestFirst
  {
    assert All(buckets[1..]) == [];
  }

  lemma MergeSuffices(named: seq<Bucket>, q: Query)
    requires q.page >= 1 && Recent(named) && q.page * q.pageSize <= LIST_HARD_CAP
    ensures var offset := (q.page - 1) * q.pageSize;
            Slice(Sort(Heads(named, Need(q)), NEWEST), offset, q.pageSize)
            == Slice(Sort(All(named), NEWEST), offset, q.pageSize)
  {
    hide Sort, Slice, Take, Heads, All, Sorted, Recent;
    PageEnd(q.page, q.pageSize);
    HeadsSuffice([], named, q.page * q.pageSize, Need(q));
    assert [] + All(named) == All(named) && [] + Heads(named, Need(q)) == Heads(named, Need(q));
    SlicePrefix(Sort(All(named), NEWEST), Sort(Heads(named, Need(q)), NEWEST), (q.page - 1) * q.pageSize, q.pageSize);
  }

  /**
   * Page merge: the newest `need` rows of each queue are enough for the page the user asked for, as
   * long as that page ends within the cap. The single-queue pushdown gives the same page, without a cap.
   */
  lemma RecencyPageIsGlobal(buckets: seq<Bucket>, q: Query)
    requires q.page >= 1 && Recent(buckets) && NewestFirst(q)
    requires q.page * q.pageSize <= LIST_HARD_CAP || |Named(buckets, q.queue)| <= 1
    ensures ListTerminalInstances(buckets, q).items == GlobalPage(buckets, q)
    ensures ListTerminalInstances(buckets, q).total == |All(Named(buckets, q.queue))|
  {
    var named := Named(buckets, q.queue);
    hide Sort, Slice, Take, Heads, Sorted;
    NamedRecent(buckets, q.queue);
    if named == [] {
      NoRows((q.page - 1) * q.pageSize, q.pageSize);
    } else if Pushdown(named, q) {
      OneBucket(named);
      SortedAlready(named[0].newestFirst, NEWEST);
    } else {
      MergeSuffices(named, q);
    }
  }

  lemma {:induction false} HeadsAreAll(buckets: seq<Bucket>, n: nat)
    requires !Overfull(buckets, n)
    ensures Heads(buckets, n) == All(buckets)
  {
    if buckets != [] {
      var rest := buckets[1..];
      assert forall i :: 0 <= i < |rest| ==> rest[i] == buckets[i + 1];
      assert |buckets[0].newestFirst| <= n;
      HeadsAreAll(rest, n);
    }
  }

  /**
   * When no bucket is longer than what is fetched, the merged page is right for every filter, sort field and
   * direction.
   */
  lemma UntruncatedPageIsGlobal(buckets: seq<Bucket>, q: Query)
    requires q.page >= 1 && !Pushdown(Named(buckets, q.queue), q)
    requires !Overfull(Named(buckets, q.queue), Need(q))
    ensures !ListTerminalInstances(buckets, q).truncated
    ensures ListTerminalInstances(buckets, q).items == GlobalPage(buckets, q)
  {
    HeadsAreAll(Named(buckets, q.queue), Need(q));
    if Named(buckets, q.queue) == [] {
      assert ApplyFilters([], q) == [];
    }
  }

  // -- Exactly when the merged page is right -------------------------------------------------------

  function RowKey(q: Query): Row -> int {
    SortKey(q.sort.GetOr(UpdatedAt), q.order.GetOr(Desc))
  }

  lemma {:induction false} FilteredJoins(a: seq<Row>, b: seq<Row>, keep: Row -> bool)
    ensures Filtered(a + b, keep) == Filtered(a, keep) + Filtered(b, keep)
  {
    if a == [] {
      assert a + b == b && [] + Filtered(b, keep) == Filtered(b, keep);
    } else {
      assert (a + b)[0] == a[0] && (a + b)[1..] == a[1..] + b;
      FilteredJoins(a[1..], b, keep);
      Regroup(if keep(a[0]) then [a[0]] else [], Filtered(a[1..], keep), Filtered(b, keep));
    }
  }

  lemma FiltersJoin(a: seq<Row>, b: seq<Row>, q: Query)
    ensures ApplyFilters(a + b, q) == ApplyFilters(a, q) + ApplyFilters(b, q)
  {
    if q.keep.Some? {
      FilteredJoins(a, b, q.keep.value);
    }
  }

  lemma PartsJoin(a: seq<Row>, b: seq<Row>, all: seq<Row>, part: seq<Row>, rest: seq<Row>, key: Row -> int)
    requires Parts(all, part, rest, key)
    ensures Parts((a + b) + all, a + part, b + rest, key)
  {
    forall x ensures Rank(x, (a + b) + all, key) == Rank(x, a + part, key) + Rank(x, b + rest, key) {
      RankJoins(x, a + b, all, key);
      RankJoins(x, a, b, key);
      RankJoins(x, a, part, key);
      RankJoins(x, b, rest, key);
    }
  }

  /** What is fetched and what is left out make up what there is. */
  lemma {:induction false} HeadsAndTails(buckets: seq<Bucket>, n: nat, q: Query)
    ensures Parts(ApplyFilters(All(buckets), q), ApplyFilters(Heads(buckets, n), q), ApplyFilters(Tails(buckets, n), q),
                  RowKey(q))
  {
    hide Parts, ApplyFilters;
    if buckets == [] {
      NoParts(q);
    } else {
      var first, rest := buckets[0].newestFirst, buckets[1..];
      var front, back := Take(first, n), if n <= |first| then first[n..] else [];
      HeadsAndTails(rest, n, q);
      assert first == front + back;
      FiltersJoin(first, All(rest), q);
      FiltersJoin(front, back, q);
      FiltersJoin(front, Heads(rest, n), q);
      FiltersJoin(back, Tails(rest, n), q);
      PartsJoin(ApplyFilters(front, q), ApplyFilters(back, q), ApplyFilters(All(rest), q),
                ApplyFilters(Heads(rest, n), q),
                ApplyFilters(Tails(rest, n), q), RowKey(q));
    }
  }

  lemma NoParts(q: Query)
    ensures Parts(ApplyFilters([], q), ApplyFilters([], q), ApplyFilters([], q), RowKey(q))
  {
  }

  lemma SliceAt(xs: seq<Row>, offset: nat, limit: nat, i: nat)
    requires i < limit && offset + i < |xs|
    ensures i < |Slice(xs, offset, limit)| && Slice(xs, offset, limit)[i] == xs[offset + i]
  {
  }

  lemma SliceReaches(xs: seq<Row>, offset: nat, limit: nat, i: nat)
    requires i < |Slice(xs, offset, limit)|
    ensures offset + i < |xs| && Slice(xs, offset, limit)[i] == xs[offset + i]
  {
  }

  /** No row left out sorts before position `k` of the whole list. */
  predicate LeavesOutLate(named: seq<Bucket>, q: Query, k: nat) {
    var rows, rest := ApplyFilters(All(named), q), ApplyFilters(Tails(named, Need(q)), q);
    forall i :: 0 <= i < |rest| ==> k <= Rank(rest[i], rows, RowKey(q))
  }

  lemma LatePage(all: seq<Row>, part: seq<Row>, rest: seq<Row>, key: Row -> int, offset: nat, limit: nat)
    requires Parts(all, part, rest, key) && DistinctKeys(all, key)
    requires forall i :: 0 <= i < |rest| ==> offset + limit <= Rank(rest[i], all, key)
    ensures Slice(Sort(part, key), offset, limit) == Slice(Sort(all, key), offset, limit)
  {
    hide Sort, Rank, Parts, Slice;
    var k := offset + limit;
    assert |part| <= |all| by {
      PartsSize(all, part, rest, key);
    }
    forall i: nat | i < k && i < |all| ensures i < |part| && Sort(part, key)[i] == Sort(all, key)[i] {
      PartAgrees(all, part, rest, key, k, i);
    }
    var last := if k <= |all| then k else |all|;
    if last > 0 {
      PartAgrees(all, part, rest, key, k, last - 1);
    }
    SlicePrefix(Sort(part, key), Sort(all, key), offset, limit);
  }

  lemma PartsSize(all: seq<Row>, part: seq<Row>, rest: seq<Row>, key: Row -> int)
    requires Parts(all, part, rest, key)
    ensures |part| <= |all|
  {
    assert |multiset(all)| == |multiset(part)| + |multiset(rest)|;
  }

  lemma EarlyPage(all: seq<Row>, part: seq<Row>, rest: seq<Row>, key: Row -> int, offset: nat, limit: nat, x: Row)
    requires Parts(all, part, rest, key) && DistinctKeys(all, key)
    requires limit > 0 && offset < |all| && x in rest && Rank(x, all, key) < offset + limit
    ensures Slice(Sort(part, key), offset, limit) != Slice(Sort(all, key), offset, limit)
  {
    hide Sort, Rank, Parts, Slice;
    PartsMembers(all, part, rest, key, x);
    RankedAt(all, key, x);
    var at := if Rank(x, all, key) < offset then offset else Rank(x, all, key);
    PartDiffers(all, part, rest, key, x, at);
    SliceAt(Sort(all, key), offset, limit, at - offset);
    if at - offset < |Slice(Sort(part, key), offset, limit)| {
      SliceReaches(Sort(part, key), offset, limit, at - offset);
    }
  }

  /**
   * The merged page, exactly: with distinct sort keys and a page that is not past the end, it is the page
   * of all queues' rows if and only if no row beyond the first `need` of its bucket sorts before the end
   * of the page. This holds for every filter, sort field and direction, within the cap and past it.
   */
  lemma MergedPageExactly(buckets: seq<Bucket>, q: Query)
    requires q.page >= 1 && q.pageSize > 0 && !Pushdown(Named(buckets, q.queue), q)
    requires var rows := ApplyFilters(All(Named(buckets, q.queue)), q);
             DistinctKeys(rows, RowKey(q)) && (q.page - 1) * q.pageSize < |rows|
    ensures ListTerminalInstances(buckets, q).items == GlobalPage(buckets, q)
            <==> LeavesOutLate(Named(buckets, q.queue), q, q.page * q.pageSize)
  {
    hide Sort, Slice, Rank, Parts, DistinctKeys, ApplyFilters, Heads, Tails, All, Need, SortKey, Overfull;
    var named := Named(buckets, q.queue);
    var all, part, rest := ApplyFilters(All(named), q), ApplyFilters(Heads(named, Need(q)), q),
        ApplyFilters(Tails(named, Need(q)), q);
    var offset, k := (q.page - 1) * q.pageSize, q.page * q.pageSize;
    PageEnd(q.page, q.pageSize);
    HeadsAndTails(named, Need(q), q);
    if named == [] {
      NothingToShow(q);
    } else if forall i :: 0 <= i < |rest| ==> k <= Rank(rest[i], all, RowKey(q)) {
      LatePage(all, part, rest, RowKey(q), offset, q.pageSize);
    } else {
      var i :| 0 <= i < |rest| && Rank(rest[i], all, RowKey(q)) < k;
      EarlyPage(all, part, rest, RowKey(q), offset, q.pageSize, rest[i]);
    }
  }

  lemma NothingToShow(q: Query)
    ensures ApplyFilters(All([]), q) == []
  {
  }

  /** Oldest first, one queue: the pushdown is right when no two rows share an `updatedAt`. */
  lemma OldestPageIsGlobal(buckets: seq<Bucket>, q: Query)
    requires q.page >= 1 && Pushdown(Named(buckets, q.queue), q) && q.order == Some(Asc)
    requires StrictlySorted(Named(buckets, q.queue)[0].newestFirst, NEWEST)
    ensures ListTerminalInstances(buckets, q).items == GlobalPage(buckets, q)
  {
    var rows := Named(buckets, q.queue)[0].newestFirst;
    var key := SortKey(UpdatedAt, Asc);
    assert All(Named(buckets, q.queue)) == rows;
    forall i, j | 0 <= i < j < |rows| ensures key(rows[i]) != key(rows[j]) {
      assert NEWEST(rows[i]) < NEWEST(rows[j]);
    }
    SortStrictly(rows, key);
    forall i, j | 0 <= i < j < |rows| ensures key(Reversed(rows)[i]) < key(Reversed(rows)[j]) {
      assert NEWEST(rows[|rows| - 1 - j]) < NEWEST(rows[|rows| - 1 - i]);
    }
    forall x ensures x in Reversed(rows) <==> x in Sort(rows, key) {
      SortMember(rows, key, x);
      ReversedMember(rows, x);
    }
    SortedUnique(Reversed(rows), Sort(rows, key), key);
  }

  lemma ReversedMember(rows: seq<Row>, x: Row)
    ensures x in Reversed(rows) <==> x in rows
  {
    if x in rows {
      var i :| 0 <= i < |rows| && rows[i] == x;
      assert Reversed(rows)[|rows| - 1 - i] == x;
    }
  }

  function RowAt(t: int): Row {
    Row("r", "j", t, t, None)
  }

  const BUSY := Bucket("busy", [RowAt(5), RowAt(4), RowAt(3)])
  const IDLE := Bucket("idle", [RowAt(9)])
  const OLDEST_FIRST := Query(None, None, None, Some(Asc), 1, 1)

  /**
   * Oldest first over several queues, the merge starts from the newest rows of each queue, so a truncated
   * listing shows the oldest of the newest: here 4 although 3 is older.
   */
  lemma MergedOldestPageIsWrong()
    ensures Recent([BUSY, IDLE])
    ensures ListTerminalInstances([BUSY, IDLE], OLDEST_FIRST).truncated
    ensures ListTerminalInstances([BUSY, IDLE], OLDEST_FIRST).items == [RowAt(4)]
    ensures GlobalPage([BUSY, IDLE], OLDEST_FIRST) == [RowAt(3)]
  {
    var key := SortKey(UpdatedAt, Asc);
    var a, b, c, d := RowAt(5), RowAt(4), RowAt(3), RowAt(9);
    assert [BUSY, IDLE][1..] == [IDLE] && [IDLE][1..] == [];
    OneBucket([IDLE]);
    assert Heads([IDLE], 2) == [d] by {
      assert Heads([], 2) == [] && [d] + [] == [d];
    }
    assert Heads([BUSY, IDLE], 2) == [a, b, d] by {
      assert BUSY.newestFirst[..2] == [a, b];
    }
    assert All([BUSY, IDLE]) == [a, b, c, d];
    SortTail(key, a, b, c, d);
    assert |[BUSY, IDLE][0].newestFirst| > 2;
  }

  lemma SortTail(key: Row -> int, a: Row, b: Row, c: Row, d: Row)
    requires key(c) < key(b) < key(a) < key(d)
    ensures Sort([a, b, d], key) == [b, a, d] && Sort([a, b, c, d], key) == [c, b, a, d]
  {
    assert [a, b, d][1..] == [b, d] && [b, d][1..] == [d] && [d][1..] == [];
    assert Sort([d], key) == [d];
    assert Sort([b, d], key) == [b, d];
    assert Insert(a, [b, d], key) == [b] + Insert(a, [d], key);
    assert [a, b, c, d][1..] == [b, c, d] && [b, c, d][1..] == [c, d] && [c, d][1..] == [d];
    assert Sort([c, d], key) == [c, d];
    assert Insert(b, [c, d], key) == [c] + Insert(b, [d], key);
    assert Sort([b, c, d], key) == [c, b, d];
    assert Insert(a, [c, b, d], key) == [c] + Insert(a, [b, d], key) by {
      assert [c, b, d][1..] == [b, d];
    }
  }

  // -- What the reference page is --------------------------------------------------------------

  /** How often a row is to be listed: once for each time a bucket of the queues asked for has it, if it is kept. */
  function Occurrences(buckets: seq<Bucket>, q: Query, x: Row): nat {
    if buckets == [] then 0
    else
      (if (q.queue.Some? && buckets[0].queue != q.queue.value) || (q.keep.Some? && !q.keep.value(x)) then 0
       else multiset(buckets[0].newestFirst)[x])
      + Occurrences(buckets[1..], q, x)
  }

  /** `a` may stand before `b`: by ending time and newest first unless the query says otherwise. */
  predicate MayPrecede(q: Query, a: Row, b: Row) {
    var ascending := q.order == Some(Asc);
    match q.sort
    case Some(CreatedAt) => if ascending then a.createdAt <= b.createdAt else a.createdAt >= b.createdAt
    case Some(Duration) =>
      var x, y := if a.duration.Some? then a.duration.value else 0, if b.duration.Some? then b.duration.value else 0;
      if ascending then x <= y else x >= y
    case _ => if ascending then a.updatedAt <= b.updatedAt else a.updatedAt >= b.updatedAt
  }

  /** `whole` is everything there is to list, in an order the query allows. */
  ghost predicate ListsAll(buckets: seq<Bucket>, q: Query, whole: seq<Row>) {
    && (forall x :: multiset(whole)[x] == Occurrences(buckets, q, x))
    && (forall i, j :: 0 <= i < j < |whole| ==> MayPrecede(q, whole[i], whole[j]))
  }

  /** `page` is the stretch of `whole` that the query asks for. */
  ghost predicate IsWindow(q: Query, whole: seq<Row>, page: seq<Row>)
    requires q.page >= 1
  {
    var offset := (q.page - 1) * q.pageSize;
    && (forall i :: 0 <= i < |page| ==> offset + i < |whole| && page[i] == whole[offset + i])
    && |page| <= q.pageSize && (|page| < q.pageSize ==> offset + |page| >= |whole|)
  }

  lemma {:induction false} FilteredCount(rows: seq<Row>, keep: Row -> bool, x: Row)
    ensures multiset(Filtered(rows, keep))[x] == if keep(x) then multiset(rows)[x] else 0
  {
    if rows != [] {
      FilteredCount(rows[1..], keep, x);
      assert rows == [rows[0]] + rows[1..];
    }
  }

  lemma {:induction false} NamedCount(buckets: seq<Bucket>, q: Query, x: Row)
    ensures (if q.keep.Some? && !q.keep.value(x) then 0 else multiset(All(Named(buckets, q.queue)))[x])
            == Occurrences(buckets, q, x)
  {
    if buckets != [] {
      NamedCount(buckets[1..], q, x);
      var first, rest := buckets[0], Named(buckets[1..], q.queue);
      if q.queue.Some? && first.queue == q.queue.value {
        assert ([first] + rest)[1..] == rest;
      } else if q.queue.Some? {
        assert [] + rest == rest;
      }
    }
  }

  lemma CountsAll(buckets: seq<Bucket>, q: Query, x: Row)
    ensures multiset(ApplySort(ApplyFilters(All(Named(buckets, q.queue)), q), q))[x] == Occurrences(buckets, q, x)
  {
    hide Sort, Filtered, Occurrences, Named, All, SortKey;
    SortSorts(ApplyFilters(All(Named(buckets, q.queue)), q), SortKey(q.sort.GetOr(UpdatedAt), q.order.GetOr(Desc)));
    NamedCount(buckets, q, x);
    if q.keep.Some? {
      FilteredCount(All(Named(buckets, q.queue)), q.keep.value, x);
    }
  }

  lemma KeyPrecedes(q: Query, a: Row, b: Row)
    requires var key := SortKey(q.sort.GetOr(UpdatedAt), q.order.GetOr(Desc)); key(a) <= key(b)
    ensures MayPrecede(q, a, b)
  {
  }

  lemma OrderAllowed(rows: seq<Row>, q: Query)
    ensures var whole := ApplySort(rows, q);
            forall i, j :: 0 <= i < j < |whole| ==> MayPrecede(q, whole[i], whole[j])
  {
    hide Sort, SortKey, MayPrecede;
    SortSorts(rows, SortKey(q.sort.GetOr(UpdatedAt), q.order.GetOr(Desc)));
    var whole := ApplySort(rows, q);
    forall i, j | 0 <= i < j < |whole| ensures MayPrecede(q, whole[i], whole[j]) {
      KeyPrecedes(q, whole[i], whole[j]);
    }
  }

  lemma SliceWindow(whole: seq<Row>, q: Query)
    requires q.page >= 1
    ensures IsWindow(q, whole, Slice(whole, (q.page - 1) * q.pageSize, q.pageSize))
  {
  }

  /** The page that listings are held against: everything, in order, and of that the stretch asked for. */
  lemma GlobalPageMeans(buckets: seq<Bucket>, q: Query)
    requires q.page >= 1
    ensures exists whole :: ListsAll(buckets, q, whole) && IsWindow(q, whole, GlobalPage(buckets, q))
  {
    hide Slice, Occurrences, IsWindow, MayPrecede, ApplySort, ApplyFilters, Named, All;
    var rows := ApplyFilters(All(Named(buckets, q.queue)), q);
    var whole := ApplySort(rows, q);
    forall x ensures multiset(whole)[x] == Occurrences(buckets, q, x) {
      CountsAll(buckets, q, x);
    }
    OrderAllowed(rows, q);
    SliceWindow(whole, q);
    assert ListsAll(buckets, q, whole);
  }
}
