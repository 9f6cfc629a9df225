/** Lists with inclusive ranges, and the rolling price buffer built on them. */
module Buffers {

  /** A slice bound as Python reads it: from the end if negative, and clamped to the sequence. */
  function Bound(i: int, length: nat): nat {
    if i < 0 then (if length + i < 0 then 0 else length + i) else if i > length then length else i
  }

  /** `s[start:stop]`. */
  function PySlice<T>(s: seq<T>, start: int, stop: int): seq<T> {
    var a, b := Bound(start, |s|), Bound(stop, |s|);
    if a < b then s[a..b] else []
  }

  /** The client's range: the slice with the end included, and -1 for "to the end". */
  function Range<T>(s: seq<T>, start: int, end: int): seq<T> {
    if end == -1 then PySlice(s, start, |s|) else PySlice(s, start, end + 1)
  }

  /** The inclusive range as Redis documents it for LRANGE and LTRIM. */
  function RedisRange<T>(s: seq<T>, start: int, end: int): seq<T> {
    var first := if start < 0 then (if |s| + start < 0 then 0 else |s| + start) else start;
    var last := if end < 0 then |s| + end else if end >= |s| then |s| - 1 else end;
    if first > last || first >= |s| then [] else s[first..last + 1]
  }

  /** The slicing agrees with Redis for all bounds. */
  lemma RangeIsRedisRange<T>(s: seq<T>, start: int, end: int)
    ensures Range(s, start, end) == RedisRange(s, start, end)
  {
  }

  // ----- the rolling buffer

  type Tick = string
  type Lists = map<string, seq<Tick>>

  const MAX_TICKS := 60
  const KEY_PREFIX := "ohlcv:rolling:"

  function BufferKey(symbol: string): string { KEY_PREFIX + symbol }

  function ListAt(lists: Lists, key: string): seq<Tick> { if key in lists then lists[key] else [] }

  /** The pipeline of one tick: append, then keep the last 60. */
  function PushTick(lists: Lists, symbol: string, tick: Tick): Lists {
    var key := BufferKey(symbol);
    lists[key := Range(ListAt(lists, key) + [tick], -MAX_TICKS, -1)]
  }

  /** What a reader that asks for `count` ticks gets of a buffer. */
  function Requested<T>(buffer: seq<T>, count: int): seq<T> {
    Range(buffer, -(if count < MAX_TICKS then count else MAX_TICKS), -1)
  }

  function GetTicks(lists: Lists, symbol: string, count: int): seq<Tick> {
    Requested(ListAt(lists, BufferKey(symbol)), count)
  }

  datatype Push = Push(symbol: string, tick: Tick)

  function PushAll(lists: Lists, pushes: seq<Push>): Lists {
    if pushes == [] then lists
    else PushTick(PushAll(lists, pushes[..|pushes| - 1]), pushes[|pushes| - 1].symbol, pushes[|pushes| - 1].tick)
  }

  /** All ticks ever pushed for a symbol, oldest first. */
  function History(pushes: seq<Push>, symbol: string): seq<Tick> {
    if pushes == [] then []
    else History(pushes[..|pushes| - 1], symbol)
         + if pushes[|pushes| - 1].symbol == symbol then [pushes[|pushes| - 1].tick] else []
  }

  function LastOf<T>(s: seq<T>, n: nat): (t: seq<T>)
    ensures |t| == if n < |s| then n else |s|
    ensures forall i :: 0 <= i < |t| ==> t[i] == s[|s| - |t| + i]
  {
    if n < |s| then s[|s| - n..] else s
  }

  lemma KeysDiffer(a: string, b: string)
    requires a != b
    ensures BufferKey(a) != BufferKey(b)
  {
    assert BufferKey(a)[|KEY_PREFIX|..] == a && BufferKey(b)[|KEY_PREFIX|..] == b;
  }

  lemma TrimIsLast<T>(s: seq<T>, n: int)
    requires n > 0
    ensures Range(s, -n, -1) == LastOf(s, n)
  {
  }

  lemma LastOfAppend<T>(s: seq<T>, x: T, n: nat)
    requires n > 0
    ensures LastOf(LastOf(s, n) + [x], n) == LastOf(s + [x], n)
  {
  }

  /** After any interleaving of pushes, a symbol's buffer is the last 60 ticks of its history. */
  lemma {:induction false} BufferIsLast60(pushes: seq<Push>, symbol: string)
    ensures ListAt(PushAll(map[], pushes), BufferKey(symbol)) == LastOf(History(pushes, symbol), 60)
  {
    if pushes != [] {
      var before := pushes[..|pushes| - 1];
      var p := pushes[|pushes| - 1];
      BufferIsLast60(before, symbol);
      if p.symbol == symbol {
        TrimIsLast(ListAt(PushAll(map[], before), BufferKey(symbol)) + [p.tick], MAX_TICKS);
        LastOfAppend(History(before, symbol), p.tick, MAX_TICKS);
      } else {
        KeysDiffer(p.symbol, symbol);
        assert History(pushes, symbol) == History(before, symbol);
      }
    }
  }

  lemma LastOfLast<T>(s: seq<T>, n: nat, m: nat)
    requires m <= n
    ensures LastOf(LastOf(s, n), m) == LastOf(s, m)
  {
  }

  lemma RequestedIsLast<T>(all: seq<T>, buffer: seq<T>, count: int)
    requires buffer == LastOf(all, MAX_TICKS) && count >= 1
    ensures Requested(buffer, count) == LastOf(all, if count < MAX_TICKS then count else MAX_TICKS)
  {
    var n := if count < MAX_TICKS then count else MAX_TICKS;
    TrimIsLast(buffer, n);
    LastOfLast(all, MAX_TICKS, n);
  }

  lemma RequestedIsRest<T>(buffer: seq<T>, count: int)
    requires count <= 0 && |buffer| <= MAX_TICKS
    ensures Requested(buffer, count) == [] <==> |buffer| <= -count
  {
  }

  /**
   Reading `count` ticks returns the last min(count, 60) of the symbol's history, oldest first, if and
   only if the count is at least 1 or it drops the whole buffer: a count of 0 returns everything, and
   a negative one all but the first ticks.
   */
  lemma ReadIsLastTicks(pushes: seq<Push>, symbol: string, count: int)
    ensures var buffer := LastOf(History(pushes, symbol), 60);
      var wanted := LastOf(History(pushes, symbol),
                           if count < 0 then 0 else if count < 60 then count else 60);
      GetTicks(PushAll(map[], pushes), symbol, count) == wanted <==> count >= 1 || |buffer| <= -count
  {
    BufferIsLast60(pushes, symbol);
    var all := History(pushes, symbol);
    var buffer := LastOf(all, MAX_TICKS);
    if count >= 1 { RequestedIsLast(all, buffer, count); } else { RequestedIsRest(buffer, count); }
  }
}
