/** Expiring keys: the lazy store of the in-memory client, and the eager map it answers like. */
module KeyValues {
  import opened Prelude

  type Key = string

  /** The client's two dictionaries. */
  datatype Lazy = Lazy(store: map<Key, string>, expiries: map<Key, real>)

  /** Only stored keys have a deadline. */
  ghost predicate Tidy(s: Lazy) { s.expiries.Keys <= s.store.Keys }

  function Evict(s: Lazy, key: Key, now: real): Lazy {
    if key in s.expiries && now > s.expiries[key] then Lazy(s.store - {key}, s.expiries - {key}) else s
  }

  function LazyGet(s: Lazy, key: Key, now: real): (Lazy, Option<string>) {
    var t := Evict(s, key, now);
    (t, if key in t.store then Some(t.store[key]) else None)
  }

  /** `px` in milliseconds; absent and zero both mean no deadline of its own. */
  predicate HasTtl(px: Option<int>) { px.Some? && px.value != 0 }

  /** The clock is read once to evict and once more to set the deadline. */
  function LazySet(s: Lazy, key: Key, value: string, px: Option<int>, nx: bool, now: real, later: real): (Lazy, bool) {
    var t := Evict(s, key, now);
    if nx && key in t.store then (t, false)
    else (Lazy(t.store[key := value],
               if HasTtl(px) then t.expiries[key := later + px.value as real / 1000.0] else t.expiries), true)
  }

  /** `delete` looks at no clock, and counts every stored key. */
  function LazyDelete(s: Lazy, keys: seq<Key>): (Lazy, nat)
    decreases |keys|
  {
    if keys == [] then (s, 0)
    else if keys[0] in s.store then
      var (t, n) := LazyDelete(Lazy(s.store - {keys[0]}, s.expiries - {keys[0]}), keys[1..]);
      (t, n + 1)
    else LazyDelete(s, keys[1..])
  }

  // ----- the eager map

  datatype Entry = Entry(value: string, deadline: Option<real>)
  type Eager = map<Key, Entry>

  predicate Alive(e: Entry, now: real) { e.deadline.None? || now <= e.deadline.value }

  /** Every key whose deadline has passed is gone. */
  function Drop(m: Eager, now: real): Eager {
    map k | k in m && Alive(m[k], now) :: m[k]
  }

  function EagerGet(m: Eager, key: Key, now: real): (Eager, Option<string>) {
    var d := Drop(m, now);
    (d, if key in d then Some(d[key].value) else None)
  }

  /** A value set without a time to live keeps the deadline the key still has. */
  function EagerSet(m: Eager, key: Key, value: string, px: Option<int>, nx: bool, now: real,
                    later: real): (Eager, bool) {
    var d := Drop(m, now);
    if nx && key in d then (d, false)
    else
      var deadline := if HasTtl(px) then Some(later + px.value as real / 1000.0)
                      else if key in d then d[key].deadline else None;
      (d[key := Entry(value, deadline)], true)
  }

  function EagerDelete(m: Eager, keys: seq<Key>, now: real): Eager { Drop(m, now) - (set k | k in keys) }

  function Entries(s: Lazy): Eager {
    map k | k in s.store :: Entry(s.store[k], if k in s.expiries then Some(s.expiries[k]) else None)
  }

  /** The lazy store stands for the eager map at `now`. */
  ghost predicate StandsFor(s: Lazy, m: Eager, now: real) {
    Tidy(s) && Drop(Entries(s), now) == Drop(m, now)
  }

  // ----- the lazy store answers like the eager map

  lemma DropLater(m: Eager, now: real, later: real)
    requires now <= later
    ensures Drop(Drop(m, now), later) == Drop(m, later)
  {
  }

  lemma StandsLater(s: Lazy, m: Eager, now: real, later: real)
    requires StandsFor(s, m, now) && now <= later
    ensures StandsFor(s, m, later)
  {
    DropLater(Entries(s), now, later);
    DropLater(m, now, later);
  }

  lemma EvictStands(s: Lazy, m: Eager, key: Key, now: real)
    requires StandsFor(s, m, now)
    ensures StandsFor(Evict(s, key, now), Drop(m, now), now)
    ensures var t := Evict(s, key, now);
      (key in t.store <==> key in Drop(m, now)) && (key in t.store ==> Entries(t)[key] == Drop(m, now)[key])
  {
    var t := Evict(s, key, now);
    DropLater(m, now, now);
    assert Drop(Entries(t), now) == Drop(Entries(s), now);
    assert key in t.store ==> Alive(Entries(t)[key], now);
    assert key in t.store <==> key in Drop(Entries(t), now);
  }

  lemma GetStands(s: Lazy, m: Eager, key: Key, now: real)
    requires StandsFor(s, m, now)
    ensures LazyGet(s, key, now).1 == EagerGet(m, key, now).1
    ensures StandsFor(LazyGet(s, key, now).0, EagerGet(m, key, now).0, now)
  {
    EvictStands(s, m, key, now);
  }

  lemma SetStands(s: Lazy, m: Eager, key: Key, value: string, px: Option<int>, nx: bool, now: real, later: real)
    requires StandsFor(s, m, now) && now <= later
    ensures LazySet(s, key, value, px, nx, now, later).1 == EagerSet(m, key, value, px, nx, now, later).1
    ensures StandsFor(LazySet(s, key, value, px, nx, now, later).0,
                      EagerSet(m, key, value, px, nx, now, later).0, later)
  {
    EvictStands(s, m, key, now);
    var t, d := Evict(s, key, now), Drop(m, now);
    StandsLater(t, d, now, later);
    var s2, m2 := LazySet(s, key, value, px, nx, now, later).0, EagerSet(m, key, value, px, nx, now, later).0;
    if !(nx && key in t.store) {
      assert Entries(s2) == Entries(t)[key := m2[key]];
      assert m2 == d[key := m2[key]];
      UpdateBoth(Entries(t), d, key, m2[key], later);
    }
  }

  lemma DropUpdated(a: Eager, key: Key, e: Entry, now: real)
    ensures Drop(a[key := e], now) == if Alive(e, now) then Drop(a, now)[key := e] else Drop(a, now) - {key}
  {
  }

  lemma UpdateBoth(a: Eager, b: Eager, key: Key, e: Entry, now: real)
    requires Drop(a, now) == Drop(b, now)
    ensures Drop(a[key := e], now) == Drop(b[key := e], now)
  {
    DropUpdated(a, key, e, now);
    DropUpdated(b, key, e, now);
  }

  lemma {:induction false} DeleteIs(s: Lazy, keys: seq<Key>)
    requires Tidy(s)
    ensures var gone := set k | k in keys;
      LazyDelete(s, keys).0 == Lazy(s.store - gone, s.expiries - gone)
    decreases |keys|
  {
    var gone := set k | k in keys;
    if keys != [] {
      var rest := set k | k in keys[1..];
      assert gone == {keys[0]} + rest by { assert keys == [keys[0]] + keys[1..]; }
      if keys[0] in s.store {
        DeleteIs(Lazy(s.store - {keys[0]}, s.expiries - {keys[0]}), keys[1..]);
        assert s.store - {keys[0]} - rest == s.store - gone && s.expiries - {keys[0]} - rest == s.expiries - gone;
      } else {
        DeleteIs(s, keys[1..]);
        assert s.store - rest == s.store - gone && s.expiries - rest == s.expiries - gone;
      }
    } else {
      assert s.store - gone == s.store && s.expiries - gone == s.expiries;
    }
  }

  lemma DeleteStands(s: Lazy, m: Eager, keys: seq<Key>, now: real)
    requires StandsFor(s, m, now)
    ensures StandsFor(LazyDelete(s, keys).0, EagerDelete(m, keys, now), now)
  {
    DeleteIs(s, keys);
    var gone := set k | k in keys;
    var t := LazyDelete(s, keys).0;
    assert Entries(t) == Entries(s) - gone;
    assert Drop(Entries(s) - gone, now) == Drop(Entries(s), now) - gone;
    assert Drop(Drop(m, now) - gone, now) == Drop(m, now) - gone;
  }

  // ----- any sequence of operations

  datatype Op =
    | Get(key: Key, now: real)
    | Set(key: Key, value: string, px: Option<int>, nx: bool, now: real, later: real)
    | Delete(keys: seq<Key>, now: real)

  datatype Reply = Found(value: Option<string>) | Stored(ok: bool) | Deleted

  function StartOf(op: Op): real { op.now }

  function EndOf(op: Op): real { if op.Set? then op.later else op.now }

  predicate ClockRuns(ops: seq<Op>, now: real)
    decreases |ops|
  {
    ops == [] || (now <= StartOf(ops[0]) <= EndOf(ops[0]) && ClockRuns(ops[1..], EndOf(ops[0])))
  }

  function LazyStep(s: Lazy, op: Op): (Lazy, Reply) {
    match op
    case Get(key, now) => var (t, v) := LazyGet(s, key, now); (t, Found(v))
    case Set(key, value, px, nx, now, later) =>
      var (t, ok) := LazySet(s, key, value, px, nx, now, later);
      (t, Stored(ok))
    case Delete(keys, now) => (LazyDelete(s, keys).0, Deleted)
  }

  function EagerStep(m: Eager, op: Op): (Eager, Reply) {
    match op
    case Get(key, now) => var (t, v) := EagerGet(m, key, now); (t, Found(v))
    case Set(key, value, px, nx, now, later) =>
      var (t, ok) := EagerSet(m, key, value, px, nx, now, later);
      (t, Stored(ok))
    case Delete(keys, now) => (EagerDelete(m, keys, now), Deleted)
  }

  function LazyReplies(s: Lazy, ops: seq<Op>): seq<Reply>
    decreases |ops|
  {
    if ops == [] then [] else [LazyStep(s, ops[0]).1] + LazyReplies(LazyStep(s, ops[0]).0, ops[1..])
  }

  function EagerReplies(m: Eager, ops: seq<Op>): seq<Reply>
    decreases |ops|
  {
    if ops == [] then [] else [EagerStep(m, ops[0]).1] + EagerReplies(EagerStep(m, ops[0]).0, ops[1..])
  }

  /**
   Although the store evicts a key only when that key is touched, every sequence of gets, sets and
   deletes is answered as by a map that drops each key once its deadline has passed.
   */
  lemma {:induction false} LazyAnswersLikeEager(s: Lazy, m: Eager, ops: seq<Op>, now: real)
    requires StandsFor(s, m, now) && ClockRuns(ops, now)
    ensures LazyReplies(s, ops) == EagerReplies(m, ops)
    decreases |ops|
  {
    if ops != [] {
      var op := ops[0];
      StandsLater(s, m, now, StartOf(op));
      match op {
        case Get(key, t) => GetStands(s, m, key, t);
        case Set(key, value, px, nx, t, later) => SetStands(s, m, key, value, px, nx, t, later);
        case Delete(keys, t) => DeleteStands(s, m, keys, t);
      }
      LazyAnswersLikeEager(LazyStep(s, op).0, EagerStep(m, op).0, ops[1..], EndOf(op));
    }
  }

  lemma EmptyStands(now: real)
    ensures StandsFor(Lazy(map[], map[]), map[], now)
  {
  }

  /** The same for a new client: whatever is done with it, it answers like an empty map. */
  lemma FreshAnswersLikeEager(ops: seq<Op>, now: real)
    requires ClockRuns(ops, now)
    ensures LazyReplies(Lazy(map[], map[]), ops) == EagerReplies(map[], ops)
  {
    EmptyStands(now);
    LazyAnswersLikeEager(Lazy(map[], map[]), map[], ops, now);
  }

  /** The number of keys that the eager map deletes. */
  function EagerCount(m: Eager, keys: seq<Key>): nat
    decreases |keys|
  {
    if keys == [] then 0 else (if keys[0] in m then 1 else 0) + EagerCount(m - {keys[0]}, keys[1..])
  }

  /** Stored although its deadline has passed. */
  predicate Stale(s: Lazy, key: Key, now: real) {
    key in s.store && key in s.expiries && now > s.expiries[key]
  }

  /** `delete` never counts less than the eager map, and the same exactly when no deleted key is stale. */
  lemma {:induction false} DeleteCounts(s: Lazy, keys: seq<Key>, now: real)
    requires Tidy(s)
    ensures EagerCount(Drop(Entries(s), now), keys) <= LazyDelete(s, keys).1
    ensures EagerCount(Drop(Entries(s), now), keys) == LazyDelete(s, keys).1
      <==> forall k :: k in keys ==> !Stale(s, k, now)
    decreases |keys|
  {
    if keys != [] {
      var key, m := keys[0], Drop(Entries(s), now);
      var t := Lazy(s.store - {key}, s.expiries - {key});
      assert Drop(Entries(t), now) == m - {key};
      assert keys == [key] + keys[1..];
      DeleteCounts(t, keys[1..], now);
      if key !in s.store { assert t == s; }
      assert key in s.store ==> (key in m <==> !Stale(s, key, now));
      assert forall k :: k in keys[1..] && k != key ==> (Stale(t, k, now) <==> Stale(s, k, now));
      assert !Stale(t, key, now);
    }
  }
}
