/** How long a key lives: what a get finds after one set or delete, with the times written out. */
module KeyLives {
  import opened Prelude
  import opened KeyValues

  /** What a get of the key finds at a time. */
  function FoundAt(s: Lazy, key: Key, at: real): Option<string> { LazyGet(s, key, at).1 }

  /** The last moment at which the key is still found, if there is an end. */
  function DeadlineOf(s: Lazy, key: Key): Option<real> {
    if key in s.expiries then Some(s.expiries[key]) else None
  }

  /** A key is found with its value until its deadline, that moment included, and not afterwards. */
  lemma FoundUntil(s: Lazy, key: Key, at: real)
    requires Tidy(s)
    ensures FoundAt(s, key, at)
         == if key !in s.store || (DeadlineOf(s, key).Some? && at > DeadlineOf(s, key).value) then None
            else Some(s.store[key])
  {
  }

  /** A set with `nx` is refused exactly if the key is found at that moment. */
  lemma SetRefusedIff(s: Lazy, key: Key, value: string, px: Option<int>, nx: bool, now: real, later: real)
    requires Tidy(s)
    ensures !LazySet(s, key, value, px, nx, now, later).1 <==> nx && FoundAt(s, key, now).Some?
  {
  }

  /** With a time to live the value is found until so many milliseconds after the second reading of the clock. */
  lemma LivesFor(s: Lazy, key: Key, value: string, ms: int, nx: bool, now: real, later: real, at: real)
    requires Tidy(s) && now <= later <= at && ms != 0
    requires LazySet(s, key, value, Some(ms), nx, now, later).1
    ensures FoundAt(LazySet(s, key, value, Some(ms), nx, now, later).0, key, at)
         == if (at - later) * 1000.0 <= ms as real then Some(value) else None
  {
  }

  /** Without one, or with zero, a key that was not found lives on, and one that was keeps its old deadline. */
  lemma LivesOn(s: Lazy, key: Key, value: string, px: Option<int>, nx: bool, now: real, later: real, at: real)
    requires Tidy(s) && now <= later <= at && (px.None? || px.value == 0)
    requires LazySet(s, key, value, px, nx, now, later).1
    ensures FoundAt(LazySet(s, key, value, px, nx, now, later).0, key, at)
         == if FoundAt(s, key, now).Some? && DeadlineOf(s, key).Some? && at > DeadlineOf(s, key).value then None
            else Some(value)
  {
  }

  /** A set changes what is found of no other key, and a refused one of none. */
  lemma OthersLive(s: Lazy, key: Key, value: string, px: Option<int>, nx: bool, now: real, later: real,
                   other: Key, at: real)
    requires Tidy(s) && now <= later <= at && (other != key || !LazySet(s, key, value, px, nx, now, later).1)
    ensures FoundAt(LazySet(s, key, value, px, nx, now, later).0, other, at) == FoundAt(s, other, at)
  {
  }

  /** A delete takes exactly its keys away. */
  lemma DeletedIsGone(s: Lazy, keys: seq<Key>, key: Key, at: real)
    requires Tidy(s)
    ensures FoundAt(LazyDelete(s, keys).0, key, at) == if key in keys then None else FoundAt(s, key, at)
  {
    DeleteIs(s, keys);
  }

  /** A get changes nothing that is found then or later. */
  lemma GetChangesNothing(s: Lazy, key: Key, now: real, other: Key, at: real)
    requires Tidy(s) && now <= at
    ensures FoundAt(LazyGet(s, key, now).0, other, at) == FoundAt(s, other, at)
  {
  }
}
