/** Stable sorting by a numeric key, as `Array.prototype.sort` does it. */
module Sorting {

  /** Put `x` in front of the first element that does not come before it. */
  function Insert<T>(x: T, xs: seq<T>, key: T -> int): (r: seq<T>)
    ensures |r| == |xs| + 1
  {
    if xs == [] || key(x) <= key(xs[0]) then [x] + xs else [xs[0]] + Insert(x, xs[1..], key)
  }

  function Sort<T>(xs: seq<T>, key: T -> int): (r: seq<T>)
    ensures |r| == |xs|
  {
    if xs == [] then [] else Insert(xs[0], Sort(xs[1..], key), key)
  }

  predicate Sorted<T>(xs: seq<T>, key: T -> int) {
    forall i, j :: 0 <= i < j < |xs| ==> key(xs[i]) <= key(xs[j])
  }

  predicate StrictlySorted<T>(xs: seq<T>, key: T -> int) {
    forall i, j :: 0 <= i < j < |xs| ==> key(xs[i]) < key(xs[j])
  }

  function Reversed<T>(xs: seq<T>): (r: seq<T>)
    ensures |r| == |xs| && forall i :: 0 <= i < |xs| ==> r[i] == xs[|xs| - 1 - i]
  {
    seq(|xs|, i requires 0 <= i < |xs| => xs[|xs| - 1 - i])
  }

  lemma {:induction false} InsertMembers<T>(x: T, xs: seq<T>, key: T -> int)
    ensures forall i :: 0 <= i < |xs| + 1 ==> Insert(x, xs, key)[i] == x || Insert(x, xs, key)[i] in xs
  {
    if xs != [] {
      InsertMembers(x, xs[1..], key);
    }
  }

  lemma {:induction false} InsertSorts<T>(x: T, xs: seq<T>, key: T -> int)
    requires Sorted(xs, key)
    ensures Sorted(Insert(x, xs, key), key)
  {
    if xs != [] && key(x) > key(xs[0]) {
      InsertSorts(x, xs[1..], key);
      InsertMembers(x, xs[1..], key);
      var rest := Insert(x, xs[1..], key);
      forall j | 0 <= j < |rest| ensures key(xs[0]) <= key(rest[j]) {
        assert rest[j] == x || rest[j] in xs[1..];
      }
    }
  }

  lemma {:induction false} InsertAdds<T>(x: T, xs: seq<T>, key: T -> int)
    ensures multiset(Insert(x, xs, key)) == multiset(xs) + multiset{x}
  {
    if xs != [] && key(x) > key(xs[0]) {
      InsertAdds(x, xs[1..], key);
      assert xs == [xs[0]] + xs[1..];
    }
  }

  /** The result is sorted, and has each element as often as before. */
  lemma {:induction false} SortSorts<T>(xs: seq<T>, key: T -> int)
    ensures Sorted(Sort(xs, key), key) && multiset(Sort(xs, key)) == multiset(xs)
  {
    if xs != [] {
      SortSorts(xs[1..], key);
      InsertSorts(xs[0], Sort(xs[1..], key), key);
      InsertAdds(xs[0], Sort(xs[1..], key), key);
      assert xs == [xs[0]] + xs[1..];
    }
  }

  lemma SortMember<T>(xs: seq<T>, key: T -> int, x: T)
    ensures x in Sort(xs, key) <==> x in xs
  {
    SortSorts(xs, key);
    assert x in multiset(Sort(xs, key)) <==> x in multiset(xs);
  }

  lemma HeadIn<T>(xs: seq<T>)
    requires xs != []
    ensures xs[0] in xs
  {
  }

  /** With distinct keys there is only one sorted arrangement. */
  lemma {:induction false} SortedUnique<T>(a: seq<T>, b: seq<T>, key: T -> int)
    requires StrictlySorted(a, key) && StrictlySorted(b, key)
    requires forall x :: x in a <==> x in b
    ensures a == b
    decreases |a|
  {
    if a == [] {
      if b != [] {
        HeadIn(b);
      }
    } else {
      assert a[0] in b && b[0] in a;
      assert a[0] == b[0];
      forall x ensures x in a[1..] <==> x in b[1..] {
        if x in a[1..] {
          assert x in b;
        }
        if x in b[1..] {
          assert x in a;
        }
      }
      SortedUnique(a[1..], b[1..], key);
    }
  }

  /** Elements with distinct keys sort strictly. */
  lemma {:induction false} SortStrictly<T>(xs: seq<T>, key: T -> int)
    requires forall i, j :: 0 <= i < j < |xs| ==> key(xs[i]) != key(xs[j])
    ensures StrictlySorted(Sort(xs, key), key)
  {
    if xs != [] {
      var tail := xs[1..];
      assert forall i :: 0 <= i < |tail| ==> tail[i] == xs[i + 1];
      SortStrictly(tail, key);
      var rest := Sort(tail, key);
      forall i: nat | i < |rest| ensures key(rest[i]) != key(xs[0]) {
        SortMember(tail, key, rest[i]);
      }
      InsertStrictly(xs[0], rest, key);
    }
  }

  lemma {:induction false} InsertStrictly<T>(x: T, xs: seq<T>, key: T -> int)
    requires StrictlySorted(xs, key) && forall i :: 0 <= i < |xs| ==> key(xs[i]) != key(x)
    ensures StrictlySorted(Insert(x, xs, key), key)
  {
    if xs != [] && key(x) > key(xs[0]) {
      InsertStrictly(x, xs[1..], key);
      InsertMembers(x, xs[1..], key);
      var rest := Insert(x, xs[1..], key);
      forall j | 0 <= j < |rest| ensures key(xs[0]) < key(rest[j]) {
        assert rest[j] == x || rest[j] in xs[1..];
      }
    }
  }

  // -- Leaving out what sorts late ----------------------------------------------------

  /** How many of `pre` and `post` a stable sort puts before an `x` that stands between them. */
  function Ahead<T>(pre: seq<T>, x: T, post: seq<T>, key: T -> int): (n: nat)
    ensures n <= |pre| + |post|
  {
    if pre != [] then (if key(pre[0]) <= key(x) then 1 else 0) + Ahead(pre[1..], x, post, key)
    else if post != [] then (if key(post[0]) < key(x) then 1 else 0) + Ahead([], x, post[1..], key)
    else 0
  }

  /** Insertion into the front part of a list. */
  lemma {:induction false} InsertFront<T>(y: T, a: seq<T>, b: seq<T>, key: T -> int)
    requires b == [] || key(y) <= key(b[0])
    ensures Insert(y, a + b, key) == Insert(y, a, key) + b
  {
    if a == [] {
      assert a + b == b;
    } else {
      assert (a + b)[1..] == a[1..] + b;
      InsertFront(y, a[1..], b, key);
    }
  }

  /** Insertion into the back part of a list. */
  lemma {:induction false} InsertBack<T>(y: T, a: seq<T>, b: seq<T>, key: T -> int)
    requires forall i :: 0 <= i < |a| ==> key(a[i]) < key(y)
    ensures Insert(y, a + b, key) == a + Insert(y, b, key)
  {
    if a == [] {
      assert a + b == b;
    } else {
      assert (a + b)[1..] == a[1..] + b;
      InsertBack(y, a[1..], b, key);
    }
  }

  /** Sorting with `x` is sorting without it, and `x` put in after everything ahead of it. */
  ghost predicate Placed<T>(with: seq<T>, without: seq<T>, x: T, p: nat) {
    p <= |without| && with == without[..p] + [x] + without[p..]
  }

  lemma {:induction false} SortAround<T>(pre: seq<T>, x: T, post: seq<T>, key: T -> int)
    ensures Placed(Sort(pre + [x] + post, key), Sort(pre + post, key), x, Ahead(pre, x, post, key))
    decreases |pre| + |post|
  {
    if pre != [] {
      var y := pre[0];
      SortAround(pre[1..], x, post, key);
      assert (pre + [x] + post)[1..] == pre[1..] + [x] + post;
      assert (pre + post)[1..] == pre[1..] + post;
      var s, p := Sort(pre[1..] + post, key), Ahead(pre[1..], x, post, key);
      SortSorts(pre[1..] + [x] + post, key);
      PlacedInsert(y, s[..p], x, s[p..], key);
      assert s == s[..p] + s[p..];
    } else {
      assert pre + [x] + post == [x] + post && pre + post == post && ([x] + post)[1..] == post;
      InsertAhead(x, post, key);
    }
  }

  lemma PlacedInsert<T>(y: T, a: seq<T>, x: T, b: seq<T>, key: T -> int)
    requires Sorted(a + [x] + b, key)
    ensures Placed(Insert(y, a + [x] + b, key), Insert(y, a + b, key), x, |a| + if key(y) <= key(x) then 1 else 0)
  {
    hide Insert;
    SortedParts(a, x, b, key);
    assert a + [x] + b == a + ([x] + b);
    if key(y) <= key(x) {
      InsertFront(y, a, [x] + b, key);
      InsertFront(y, a, b, key);
      PlacedMiddle(Insert(y, a, key), x, b);
      assert Insert(y, a, key) + ([x] + b) == Insert(y, a, key) + [x] + b;
    } else {
      InsertBack(y, a, [x] + b, key);
      InsertBack(y, a, b, key);
      InsertLater(y, x, b, key);
      PlacedMiddle(a, x, Insert(y, b, key));
      assert a + ([x] + Insert(y, b, key)) == a + [x] + Insert(y, b, key);
    }
  }

  lemma InsertLater<T>(y: T, x: T, b: seq<T>, key: T -> int)
    requires key(y) > key(x)
    ensures Insert(y, [x] + b, key) == [x] + Insert(y, b, key)
  {
    assert ([x] + b)[1..] == b;
  }

  lemma PlacedMiddle<T>(a: seq<T>, x: T, b: seq<T>)
    ensures Placed(a + [x] + b, a + b, x, |a|)
  {
    assert (a + b)[..|a|] == a && (a + b)[|a|..] == b;
  }

  lemma SortedParts<T>(a: seq<T>, x: T, b: seq<T>, key: T -> int)
    requires Sorted(a + [x] + b, key)
    ensures Sorted(a + ([x] + b), key) && Sorted(a + b, key)
    ensures forall i :: 0 <= i < |a| ==> key(a[i]) <= key(x)
    ensures b == [] || key(x) <= key(b[0])
  {
    var all := a + [x] + b;
    assert all == a + ([x] + b);
    forall i, j | 0 <= i < j < |a + b| ensures key((a + b)[i]) <= key((a + b)[j]) {
      assert (a + b)[i] == all[if i < |a| then i else i + 1] && (a + b)[j] == all[if j < |a| then j else j + 1];
    }
    assert all[|a|] == x && (forall i :: 0 <= i < |a| ==> all[i] == a[i]) && (b != [] ==> all[|a| + 1] == b[0]);
  }

  lemma {:induction false} AheadInsert<T>(x: T, y: T, xs: seq<T>, key: T -> int)
    ensures Ahead([], x, Insert(y, xs, key), key) == Ahead([], x, xs, key) + if key(y) < key(x) then 1 else 0
  {
    if xs != [] && key(y) > key(xs[0]) {
      AheadInsert(x, y, xs[1..], key);
      assert Insert(y, xs, key)[1..] == Insert(y, xs[1..], key);
    } else {
      assert Insert(y, xs, key)[1..] == xs;
    }
  }

  lemma {:induction false} AheadSort<T>(x: T, xs: seq<T>, key: T -> int)
    ensures Ahead([], x, Sort(xs, key), key) == Ahead([], x, xs, key)
  {
    if xs != [] {
      AheadSort(x, xs[1..], key);
      AheadInsert(x, xs[0], Sort(xs[1..], key), key);
    }
  }

  lemma {:induction false} NoneAhead<T>(x: T, xs: seq<T>, key: T -> int)
    requires forall i :: 0 <= i < |xs| ==> key(x) <= key(xs[i])
    ensures Ahead([], x, xs, key) == 0
  {
    if xs != [] {
      NoneAhead(x, xs[1..], key);
    }
  }

  lemma {:induction false} InsertAt<T>(x: T, xs: seq<T>, key: T -> int)
    requires Sorted(xs, key)
    ensures Placed(Insert(x, xs, key), xs, x, Ahead([], x, xs, key))
  {
    if xs == [] || key(x) <= key(xs[0]) {
      NoneAhead(x, xs, key);
    } else {
      InsertAt(x, xs[1..], key);
      var p := Ahead([], x, xs[1..], key);
      assert xs[..p + 1] == [xs[0]] + xs[1..][..p] && xs[p + 1..] == xs[1..][p..];
    }
  }

  lemma InsertAhead<T>(x: T, post: seq<T>, key: T -> int)
    ensures Placed(Insert(x, Sort(post, key), key), Sort(post, key), x, Ahead([], x, post, key))
  {
    SortSorts(post, key);
    InsertAt(x, Sort(post, key), key);
    AheadSort(x, post, key);
  }

  // -- Ranks ----------------------------------------------------------------------------

  /** How many elements have a smaller key. */
  function Rank<T>(x: T, xs: seq<T>, key: T -> int): (n: nat)
    ensures n <= |xs|
  {
    Ahead([], x, xs, key)
  }

  predicate DistinctKeys<T>(xs: seq<T>, key: T -> int) {
    forall i, j :: 0 <= i < j < |xs| ==> key(xs[i]) != key(xs[j])
  }

  lemma {:induction false} RankJoins<T>(x: T, a: seq<T>, b: seq<T>, key: T -> int)
    ensures Rank(x, a + b, key) == Rank(x, a, key) + Rank(x, b, key)
  {
    if a == [] {
      assert a + b == b;
    } else {
      assert (a + b)[1..] == a[1..] + b;
      RankJoins(x, a[1..], b, key);
    }
  }

  /** In a strictly sorted list the rank of an element is its position. */
  lemma {:induction false} RankIsPosition<T>(xs: seq<T>, key: T -> int, i: nat)
    requires StrictlySorted(xs, key) && i < |xs|
    ensures Rank(xs[i], xs, key) == i
  {
    assert forall j :: 0 <= j < |xs[1..]| ==> xs[1..][j] == xs[j + 1];
    if i > 0 {
      RankIsPosition(xs[1..], key, i - 1);
    } else {
      NoneAhead(xs[0], xs, key);
    }
  }

  /** The element of a sorted list at some position is the one of that rank in the list it was sorted from. */
  lemma SortedRank<T>(xs: seq<T>, key: T -> int, i: nat)
    requires DistinctKeys(xs, key) && i < |xs|
    ensures StrictlySorted(Sort(xs, key), key) && Rank(Sort(xs, key)[i], xs, key) == i && Sort(xs, key)[i] in xs
  {
    SortStrictly(xs, key);
    RankIsPosition(Sort(xs, key), key, i);
    AheadSort(Sort(xs, key)[i], xs, key);
    SortMember(xs, key, Sort(xs, key)[i]);
  }

  lemma RankedAt<T>(xs: seq<T>, key: T -> int, x: T)
    requires DistinctKeys(xs, key) && x in xs
    ensures Rank(x, xs, key) < |xs| && Sort(xs, key)[Rank(x, xs, key)] == x
  {
    SortMember(xs, key, x);
    var i :| 0 <= i < |Sort(xs, key)| && Sort(xs, key)[i] == x;
    SortedRank(xs, key, i);
  }

  /** A rank above zero comes from somewhere. */
  lemma {:induction false} SomeAhead<T>(x: T, xs: seq<T>, key: T -> int)
    ensures Rank(x, xs, key) > 0 <==> exists i :: 0 <= i < |xs| && key(xs[i]) < key(x)
  {
    if xs != [] {
      SomeAhead(x, xs[1..], key);
      if Rank(x, xs[1..], key) > 0 {
        var i :| 0 <= i < |xs[1..]| && key(xs[1..][i]) < key(x);
        assert xs[i + 1] == xs[1..][i];
      } else {
        assert forall i :: 1 <= i < |xs| ==> xs[i] == xs[1..][i - 1];
      }
    }
  }

  lemma SmallerRank<T>(xs: seq<T>, key: T -> int, x: T, y: T)
    requires DistinctKeys(xs, key) && x in xs && y in xs
    ensures key(x) < key(y) <==> Rank(x, xs, key) < Rank(y, xs, key)
  {
    RankedAt(xs, key, x);
    RankedAt(xs, key, y);
    SortStrictly(xs, key);
  }

  lemma OnceOnly<T>(xs: seq<T>, key: T -> int, x: T)
    requires DistinctKeys(xs, key)
    ensures multiset(xs)[x] <= 1
  {
    if x in xs {
      var i :| 0 <= i < |xs| && xs[i] == x;
      assert xs == xs[..i] + [x] + xs[i + 1..];
      assert x !in xs[..i] && x !in xs[i + 1..];
      assert x !in multiset(xs[..i]) && x !in multiset(xs[i + 1..]);
    }
  }

  // -- Sorting a part ------------------------------------------------------------------

  /** `all` is made up of `part` and `rest`. */
  ghost predicate Parts<T(!new)>(all: seq<T>, part: seq<T>, rest: seq<T>, key: T -> int) {
    && multiset(all) == multiset(part) + multiset(rest)
    && forall x :: Rank(x, all, key) == Rank(x, part, key) + Rank(x, rest, key)
  }

  lemma PartsMembers<T(!new)>(all: seq<T>, part: seq<T>, rest: seq<T>, key: T -> int, x: T)
    requires Parts(all, part, rest, key) && DistinctKeys(all, key)
    ensures x in all <==> x in part || x in rest
    ensures !(x in part && x in rest)
  {
    OnceOnly(all, key, x);
    assert x in all <==> x in multiset(all);
    assert x in part <==> x in multiset(part);
    assert x in rest <==> x in multiset(rest);
  }

  lemma PartsDistinct<T(!new)>(all: seq<T>, part: seq<T>, rest: seq<T>, key: T -> int)
    requires Parts(all, part, rest, key) && DistinctKeys(all, key)
    ensures DistinctKeys(part, key)
  {
    forall i, j | 0 <= i < j < |part| ensures key(part[i]) != key(part[j]) {
      PartsMembers(all, part, rest, key, part[i]);
      PartsMembers(all, part, rest, key, part[j]);
      if key(part[i]) == key(part[j]) {
        SameKeySame(all, key, part[i], part[j]);
        TwiceIsTwo(part, i, j);
        OnceOnly(all, key, part[i]);
      }
    }
  }

  lemma SameKeySame<T>(xs: seq<T>, key: T -> int, x: T, y: T)
    requires DistinctKeys(xs, key) && x in xs && y in xs && key(x) == key(y)
    ensures x == y
  {
    var i :| 0 <= i < |xs| && xs[i] == x;
    var j :| 0 <= j < |xs| && xs[j] == y;
  }

  lemma TwiceIsTwo<T>(xs: seq<T>, i: nat, j: nat)
    requires i < j < |xs| && xs[i] == xs[j]
    ensures multiset(xs)[xs[i]] >= 2
  {
    assert xs == xs[..j] + [xs[j]] + xs[j + 1..];
    assert xs[i] in xs[..j];
    assert xs[i] in multiset(xs[..j]);
  }

  /** Nothing of `rest` sorts below rank `k`: the two sorted lists start the same. */
  lemma PartAgrees<T(!new)>(all: seq<T>, part: seq<T>, rest: seq<T>, key: T -> int, k: nat, i: nat)
    requires Parts(all, part, rest, key) && DistinctKeys(all, key) && i < k && i < |all|
    requires forall j :: 0 <= j < |rest| ==> k <= Rank(rest[j], all, key)
    ensures i < |part| && Sort(part, key)[i] == Sort(all, key)[i]
  {
    hide Sort, Rank;
    SortedRank(all, key, i);
    var x := Sort(all, key)[i];
    PartsMembers(all, part, rest, key, x);
    PartsDistinct(all, part, rest, key);
    SomeAhead(x, rest, key);
    if Rank(x, rest, key) > 0 {
      var j :| 0 <= j < |rest| && key(rest[j]) < key(x);
      PartsMembers(all, part, rest, key, rest[j]);
      SmallerRank(all, key, rest[j], x);
    }
    RankedAt(part, key, x);
  }

  /** If something of `rest` does, they differ at every position from its rank on. */
  lemma PartDiffers<T(!new)>(all: seq<T>, part: seq<T>, rest: seq<T>, key: T -> int, x: T, i: nat)
    requires Parts(all, part, rest, key) && DistinctKeys(all, key)
    requires x in rest && Rank(x, all, key) <= i < |all|
    ensures i < |part| ==> Sort(part, key)[i] != Sort(all, key)[i]
  {
    hide Sort, Rank;
    PartsMembers(all, part, rest, key, x);
    PartsDistinct(all, part, rest, key);
    if i < |part| && Sort(part, key)[i] == Sort(all, key)[i] {
      SortedRank(all, key, i);
      SortedRank(part, key, i);
      var y := Sort(all, key)[i];
      PartsMembers(all, part, rest, key, y);
      SomeAhead(y, rest, key);
      RankedAt(all, key, x);
      RankedAt(all, key, y);
      SmallerRank(all, key, x, y);
    }
  }

  /** The elements with a given key, in order. */
  function WithKey<T>(xs: seq<T>, key: T -> int, k: int): seq<T> {
    if xs == [] then [] else (if key(xs[0]) == k then [xs[0]] else []) + WithKey(xs[1..], key, k)
  }

  lemma WithKeyCons<T>(x: T, xs: seq<T>, key: T -> int, k: int)
    ensures WithKey([x] + xs, key, k) == (if key(x) == k then [x] else []) + WithKey(xs, key, k)
  {
    assert ([x] + xs)[1..] == xs;
  }

  lemma InsertNow<T>(x: T, xs: seq<T>, key: T -> int)
    requires xs == [] || key(x) <= key(xs[0])
    ensures Insert(x, xs, key) == [x] + xs
  {
  }

  lemma InsertDeeper<T>(x: T, xs: seq<T>, key: T -> int)
    requires xs != [] && key(x) > key(xs[0])
    ensures Insert(x, xs, key) == [xs[0]] + Insert(x, xs[1..], key)
  {
  }

  lemma {:induction false} InsertStable<T>(x: T, xs: seq<T>, key: T -> int, k: int)
    ensures WithKey(Insert(x, xs, key), key, k) == (if key(x) == k then [x] else []) + WithKey(xs, key, k)
  {
    hide WithKey, Insert;
    if xs == [] || key(x) <= key(xs[0]) {
      InsertNow(x, xs, key);
      WithKeyCons(x, xs, key, k);
    } else {
      var first, rest := xs[0], xs[1..];
      assert xs == [first] + rest;
      InsertDeeper(x, xs, key);
      InsertStable(x, rest, key, k);
      WithKeyCons(first, Insert(x, rest, key), key, k);
      WithKeyCons(first, rest, key, k);
    }
  }

  /** Elements with equal keys keep their order. */
  lemma {:induction false} SortStable<T>(xs: seq<T>, key: T -> int, k: int)
    ensures WithKey(Sort(xs, key), key, k) == WithKey(xs, key, k)
  {
    if xs != [] {
      SortStable(xs[1..], key, k);
      InsertStable(xs[0], Sort(xs[1..], key), key, k);
    }
  }
}
