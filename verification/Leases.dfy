/** The distributed lock over the expiring keys: at most one client holds a live lease of a key. */
module Leases {
  import opened Prelude
  import opened KeyValues

  /** What a client that acquired a key believes: it holds the key until the deadline. */
  datatype Lease = Lease(client: nat, key: Key, deadline: real)

  datatype Sys = Sys(store: Lazy, leases: set<Lease>)

  predicate Live(l: Lease, now: real) { now <= l.deadline }

  /** `acquire_lock` and `release_lock`, and what else happens to the store. */
  datatype Event =
    | Acquire(client: nat, key: Key, ttl: int, now: real, later: real)
    | Release(client: nat, key: Key, now: real)
    | Elsewhere(op: Op)

  function AcquireLock(s: Lazy, key: Key, ttl: int, now: real, later: real): (Lazy, bool) {
    LazySet(s, key, "1", Some(ttl), true, now, later)
  }

  function ReleaseLock(s: Lazy, key: Key): Lazy { LazyDelete(s, [key]).0 }

  function React(s: Sys, e: Event): Sys {
    match e
    case Acquire(client, key, ttl, now, later) =>
      var (t, ok) := AcquireLock(s.store, key, ttl, now, later);
      Sys(t, if ok then s.leases + {Lease(client, key, later + ttl as real / 1000.0)} else s.leases)
    case Release(client, key, now) =>
      Sys(ReleaseLock(s.store, key), set l | l in s.leases && !(l.client == client && l.key == key))
    case Elsewhere(op) => s.(store := LazyStep(s.store, op).0)
  }

  function StartOf(e: Event): real {
    match e
    case Acquire(_, _, _, now, _) => now
    case Release(_, _, now) => now
    case Elsewhere(op) => KeyValues.StartOf(op)
  }

  function EndOf(e: Event): real {
    match e
    case Acquire(_, _, _, _, later) => later
    case Release(_, _, now) => now
    case Elsewhere(op) => KeyValues.EndOf(op)
  }

  /** The client has a lease of the key that has not run out. */
  ghost predicate HoldsLive(s: Sys, client: nat, key: Key, now: real) {
    exists l :: l in s.leases && l.client == client && l.key == key && Live(l, now)
  }

  /** Reads of any key, and writes of keys that nobody locks. */
  predicate Harmless(op: Op, locks: set<Key>) {
    match op
    case Get(_, _) => true
    case Set(key, _, _, _, _, _) => key !in locks
    case Delete(keys, _) => forall k :: k in keys ==> k !in locks
  }

  /** Clients lock only the lock keys, and release only while their own lease is live. */
  ghost predicate Proper(s: Sys, e: Event, locks: set<Key>) {
    match e
    case Acquire(_, key, _, _, _) => key in locks
    case Release(client, key, now) => key in locks && HoldsLive(s, client, key, now)
    case Elsewhere(op) => Harmless(op, locks)
  }

  ghost predicate ProperRun(s: Sys, es: seq<Event>, locks: set<Key>, now: real)
    decreases |es|
  {
    es == [] || (now <= StartOf(es[0]) <= EndOf(es[0]) && Proper(s, es[0], locks)
                 && ProperRun(React(s, es[0]), es[1..], locks, EndOf(es[0])))
  }

  function RunEvents(s: Sys, es: seq<Event>): Sys
    decreases |es|
  {
    if es == [] then s else RunEvents(React(s, es[0]), es[1..])
  }

  /** A live lease is in the store, with no earlier deadline there. */
  predicate Backed(s: Lazy, l: Lease) {
    l.key in s.store && (l.key in s.expiries ==> l.deadline <= s.expiries[l.key])
  }

  ghost predicate Exclusive(leases: set<Lease>, now: real) {
    forall a, b :: a in leases && b in leases && a.key == b.key && Live(a, now) && Live(b, now) ==> a.client == b.client
  }

  ghost predicate AllBacked(s: Sys, now: real) {
    forall l :: l in s.leases && Live(l, now) ==> Backed(s.store, l)
  }

  ghost predicate Safe(s: Sys, locks: set<Key>, now: real) {
    Tidy(s.store) && Exclusive(s.leases, now) && AllBacked(s, now) && forall l :: l in s.leases ==> l.key in locks
  }

  lemma EvictKeepsLive(s: Lazy, l: Lease, key: Key, now: real)
    requires Backed(s, l) && Live(l, now)
    ensures Backed(Evict(s, key, now), l)
  {
  }

  lemma AcquireSafe(s: Sys, e: Event, locks: set<Key>)
    requires e.Acquire? && e.key in locks && e.now <= e.later && Safe(s, locks, e.now)
    ensures Safe(React(s, e), locks, e.later)
  {
    var t := Evict(s.store, e.key, e.now);
    forall l | l in s.leases && Live(l, e.now) ensures Backed(t, l) { EvictKeepsLive(s.store, l, e.key, e.now); }
    if e.key !in t.store {
      assert forall l :: l in s.leases && Live(l, e.now) ==> l.key != e.key;
    }
  }

  lemma DeleteOthers(s: Lazy, keys: seq<Key>, l: Lease)
    requires Tidy(s) && Backed(s, l) && l.key !in keys
    ensures Backed(LazyDelete(s, keys).0, l)
  {
    DeleteIs(s, keys);
  }

  lemma ReleaseSafe(s: Sys, e: Event, locks: set<Key>)
    requires e.Release? && Safe(s, locks, e.now) && HoldsLive(s, e.client, e.key, e.now)
    ensures Safe(React(s, e), locks, e.now)
  {
    DeleteIs(s.store, [e.key]);
    var t := React(s, e);
    forall l | l in t.leases && Live(l, e.now) ensures Backed(t.store, l) {
      DeleteOthers(s.store, [e.key], l);
    }
  }

  lemma ElsewhereSafe(s: Sys, op: Op, locks: set<Key>)
    requires Harmless(op, locks) && KeyValues.StartOf(op) <= KeyValues.EndOf(op)
      && Safe(s, locks, KeyValues.StartOf(op))
    ensures Safe(React(s, Elsewhere(op)), locks, KeyValues.EndOf(op))
  {
    var t := React(s, Elsewhere(op));
    if op.Delete? { DeleteIs(s.store, op.keys); }
    forall l | l in s.leases && Live(l, KeyValues.StartOf(op)) ensures Backed(t.store, l) {
      match op
      case Get(key, now) => EvictKeepsLive(s.store, l, key, now);
      case Set(key, _, _, _, now, _) => EvictKeepsLive(s.store, l, key, now);
      case Delete(keys, _) => DeleteOthers(s.store, keys, l);
    }
  }

  lemma SafeLater(s: Sys, locks: set<Key>, now: real, later: real)
    requires Safe(s, locks, now) && now <= later
    ensures Safe(s, locks, later)
  {
  }

  /**
   Mutual exclusion: over any run in which clients release only while their own lease is live, and nobody
   else writes the lock keys, two live leases of one key belong to one client, at every later time.
   Times to live may be any number, zero and negative included.
   */
  lemma {:induction false} AtMostOneHolder(s: Sys, es: seq<Event>, locks: set<Key>, now: real, at: real)
    requires Safe(s, locks, now) && ProperRun(s, es, locks, now)
    requires now <= at && (es != [] ==> EndOf(es[|es| - 1]) <= at)
    ensures Exclusive(RunEvents(s, es).leases, at)
    decreases |es|
  {
    if es == [] {
      SafeLater(s, locks, now, at);
    } else {
      var e := es[0];
      SafeLater(s, locks, now, StartOf(e));
      match e {
        case Acquire(_, _, _, _, _) => AcquireSafe(s, e, locks);
        case Release(_, _, _) => ReleaseSafe(s, e, locks);
        case Elsewhere(op) => ElsewhereSafe(s, op, locks);
      }
      EndsLater(React(s, e), es[1..], locks, EndOf(e));
      AtMostOneHolder(React(s, e), es[1..], locks, EndOf(e), at);
    }
  }

  lemma {:induction false} EndsLater(s: Sys, es: seq<Event>, locks: set<Key>, now: real)
    requires ProperRun(s, es, locks, now)
    ensures es != [] ==> now <= EndOf(es[|es| - 1])
    decreases |es|
  {
    if |es| > 1 { EndsLater(React(s, es[0]), es[1..], locks, EndOf(es[0])); }
  }

  lemma FreshIsSafe(locks: set<Key>, now: real)
    ensures Safe(Sys(Lazy(map[], map[]), {}), locks, now)
  {
  }

  /** From the start of a new client, at most one holder at any time. */
  lemma AtMostOneHolderFromStart(es: seq<Event>, locks: set<Key>, now: real, at: real)
    requires ProperRun(Sys(Lazy(map[], map[]), {}), es, locks, now)
    requires now <= at && (es != [] ==> EndOf(es[|es| - 1]) <= at)
    ensures Exclusive(RunEvents(Sys(Lazy(map[], map[]), {}), es).leases, at)
  {
    FreshIsSafe(locks, now);
    AtMostOneHolder(Sys(Lazy(map[], map[]), {}), es, locks, now, at);
  }

  /**
   A release is harmless if and only if no other client holds a live lease of the key: the release deletes
   the key whoever owns it.
   */
  lemma ReleaseKeepsBackingIff(s: Sys, e: Event, locks: set<Key>)
    requires e.Release? && Safe(s, locks, e.now)
    ensures AllBacked(React(s, e), e.now)
      <==> forall l :: l in s.leases && l.key == e.key && Live(l, e.now) ==> l.client == e.client
  {
    DeleteIs(s.store, [e.key]);
    var t := React(s, e);
    forall l | l in t.leases && Live(l, e.now) && l.key != e.key ensures Backed(t.store, l) {
      DeleteOthers(s.store, [e.key], l);
    }
    forall l | l in s.leases && l.key == e.key && l.client != e.client ensures l in t.leases && !Backed(t.store, l) {
      assert e.key !in t.store.store;
    }
  }

  /** Releasing after one's own lease ran out can leave two holders: 1 takes, 2 takes over, 1 releases, 3 takes. */
  lemma LateReleaseBreaksExclusion()
    ensures var s0 := Sys(Lazy(map[], map[]), {});
      var s1 := React(s0, Acquire(1, "k", 1000, 0.0, 0.0));
      var s2 := React(s1, Acquire(2, "k", 9000, 2.0, 2.0));
      var s3 := React(s2, Release(1, "k", 3.0));
      var s4 := React(s3, Acquire(3, "k", 9000, 4.0, 4.0));
      !Exclusive(s4.leases, 5.0)
  {
    var s0 := Sys(Lazy(map[], map[]), {});
    var s1 := React(s0, Acquire(1, "k", 1000, 0.0, 0.0));
    var s2 := React(s1, Acquire(2, "k", 9000, 2.0, 2.0));
    var s3 := React(s2, Release(1, "k", 3.0));
    var s4 := React(s3, Acquire(3, "k", 9000, 4.0, 4.0));
    assert s1.store.expiries["k"] == 1.0;
    assert Lease(2, "k", 11.0) in s2.leases;
    DeleteIs(s2.store, ["k"]);
    assert "k" !in s3.store.store by { assert "k" in ["k"]; }
    assert Lease(2, "k", 11.0) in s4.leases && Lease(3, "k", 13.0) in s4.leases;
  }
}
