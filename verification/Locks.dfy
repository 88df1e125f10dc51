/** The per-instance lock: a token with an expiry time, renewed by its holder. */
module Locks {

  datatype Lock = Lock(token: string, expiresAt: nat)

  type Table = map<string, Lock>

  predicate LiveLock(locks: Table, id: string, now: nat) {
    id in locks && locks[id].expiresAt > now
  }

  predicate HeldBy(locks: Table, id: string, token: string, now: nat) {
    LiveLock(locks, id, now) && locks[id].token == token
  }

  predicate HeldByOther(locks: Table, id: string, token: string, now: nat) {
    LiveLock(locks, id, now) && locks[id].token != token
  }

  function Acquire(locks: Table, id: string, token: string, ttl: nat, now: nat): (r: (Table, bool)) {
    if HeldByOther(locks, id, token, now) then (locks, false) else (locks[id := Lock(token, now + ttl)], true)
  }

  function Renew(locks: Table, id: string, token: string, ttl: nat, now: nat): (r: (Table, bool)) {
    if HeldBy(locks, id, token, now) then (locks[id := Lock(token, now + ttl)], true) else (locks, false)
  }

  function Release(locks: Table, id: string, token: string): Table {
    if id in locks && locks[id].token == token then locks - {id} else locks
  }

  // -- Histories -------------------------------------------------------------------

  datatype LockEvent =
    | AcquireLock(id: string, token: string, ttl: nat)
    | RenewLock(id: string, token: string, ttl: nat)
    | ReleaseLock(id: string, token: string)
    | Pass(ms: nat)

  /** The store's table, and what each holder believes: until when it was granted the lock, unless it let go. */
  datatype Leases = Leases(locks: Table, now: nat, granted: map<(string, string), nat>)

  function Granted(s: Leases, id: string, token: string, r: (Table, bool), ttl: nat): Leases {
    s.(locks := r.0, granted := if r.1 then s.granted[(id, token) := s.now + ttl] else s.granted)
  }

  function Next(s: Leases, e: LockEvent): Leases {
    match e
    case AcquireLock(id, token, ttl) => Granted(s, id, token, Acquire(s.locks, id, token, ttl, s.now), ttl)
    case RenewLock(id, token, ttl) => Granted(s, id, token, Renew(s.locks, id, token, ttl, s.now), ttl)
    case ReleaseLock(id, token) => s.(locks := Release(s.locks, id, token), granted := s.granted - {(id, token)})
    case Pass(ms) => s.(now := s.now + ms)
  }

  function NextAll(s: Leases, es: seq<LockEvent>): Leases
    decreases |es|
  {
    if es == [] then s else NextAll(Next(s, es[0]), es[1..])
  }

  /** The holder was granted the lock, has not let go, and its time is not up. */
  predicate Leased(s: Leases, id: string, token: string) {
    (id, token) in s.granted && s.granted[(id, token)] > s.now
  }

  /** Whoever believes to hold a lock is the one the table names, until the same time. */
  ghost predicate Honest(s: Leases) {
    forall id, token :: Leased(s, id, token) ==> id in s.locks && s.locks[id] == Lock(token, s.granted[(id, token)])
  }

  lemma NextHonest(s: Leases, e: LockEvent)
    requires Honest(s)
    ensures Honest(Next(s, e))
  {
    var n := Next(s, e);
    forall id, token | Leased(n, id, token)
      ensures id in n.locks && n.locks[id] == Lock(token, n.granted[(id, token)])
    {
      if (id, token) in s.granted && s.granted[(id, token)] == n.granted[(id, token)] {
        assert Leased(s, id, token);
      }
    }
  }

  lemma {:induction false} AlwaysHonest(s: Leases, es: seq<LockEvent>)
    requires Honest(s)
    ensures Honest(NextAll(s, es))
    decreases |es|
  {
    if es != [] {
      NextHonest(s, es[0]);
      AlwaysHonest(Next(s, es[0]), es[1..]);
    }
  }

  /**
   * Mutual exclusion: over any history, at most one token holds a live lease on an instance, and the store
   * knows it.
   */
  lemma OneHolder(now: nat, es: seq<LockEvent>, id: string, a: string, b: string)
    ensures var s := NextAll(Leases(map[], now, map[]), es);
            && (Leased(s, id, a) && Leased(s, id, b) ==> a == b)
            && (Leased(s, id, a) ==> HeldBy(s.locks, id, a, s.now) && !Acquire(s.locks, id, b, 1, s.now).1 == (a != b))
  {
    AlwaysHonest(Leases(map[], now, map[]), es);
  }

  /** A holder keeps its lease through everything others do, until it lets go or its time is up. */
  lemma OthersChangeNothing(s: Leases, e: LockEvent, id: string, token: string)
    requires Honest(s) && Leased(s, id, token)
    requires !e.Pass? && e.token != token
    ensures Leased(Next(s, e), id, token) && Next(s, e).granted[(id, token)] == s.granted[(id, token)]
    ensures e.id == id ==> Next(s, e).locks == s.locks
  {
  }

  /** Renewing or releasing a lock one does not hold changes nothing for anybody. */
  lemma NonHolderChangesNothing(locks: Table, id: string, token: string, ttl: nat, now: nat)
    requires !HeldBy(locks, id, token, now)
    ensures Renew(locks, id, token, ttl, now) == (locks, false)
    ensures forall other, at, who :: at >= now ==>
              (HeldBy(Release(locks, id, token), other, who, at) <==> HeldBy(locks, other, who, at))
  {
  }

  // -- Whether the lock can be had ---------------------------------------------------------------

  /** Whatever lock the table holds was granted, until that time, and has not been let go. */
  ghost predicate Backed(s: Leases) {
    forall id :: id in s.locks ==>
      (id, s.locks[id].token) in s.granted && s.granted[(id, s.locks[id].token)] == s.locks[id].expiresAt
  }

  lemma {:induction false} AlwaysBacked(s: Leases, es: seq<LockEvent>)
    requires Honest(s) && Backed(s)
    ensures Honest(NextAll(s, es)) && Backed(NextAll(s, es))
    decreases |es|
  {
    if es != [] {
      NextHonest(s, es[0]);
      AlwaysBacked(Next(s, es[0]), es[1..]);
    }
  }

  /**
   * Over any history, a token gets the lock if and only if no other token has a live lease on it, and then has
   * it for the whole time asked for; it can be renewed exactly by whoever has a live lease; and once the holder
   * lets go, anybody can have it.
   */
  lemma FreeExactly(now: nat, es: seq<LockEvent>, id: string, token: string, ttl: nat)
    ensures var s := NextAll(Leases(map[], now, map[]), es);
            var n, m := Next(s, AcquireLock(id, token, ttl)), Next(s, RenewLock(id, token, ttl));
            && (Acquire(s.locks, id, token, ttl, s.now).1 <==> forall b :: Leased(s, id, b) ==> b == token)
            && (Acquire(s.locks, id, token, ttl, s.now).1 ==>
                  n.locks == s.locks[id := Lock(token, s.now + ttl)] && n.granted[(id, token)] == s.now + ttl)
            && (Renew(s.locks, id, token, ttl, s.now).1 <==> Leased(s, id, token))
            && (Leased(s, id, token) ==>
                  m.locks == s.locks[id := Lock(token, s.now + ttl)] && m.granted[(id, token)] == s.now + ttl)
            && (Leased(s, id, token) ==>
                  forall b :: Acquire(Next(s, ReleaseLock(id, token)).locks, id, b, ttl, s.now).1)
  {
    var s := NextAll(Leases(map[], now, map[]), es);
    AlwaysBacked(Leases(map[], now, map[]), es);
    if LiveLock(s.locks, id, s.now) {
      assert Leased(s, id, s.locks[id].token);
    }
  }
}
