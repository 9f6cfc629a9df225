/** In-memory streams: appended messages and readers that pass on the last id they received. */
module Streams {
  import opened Buffers

  type Fields = map<string, string>

  /** The text "<milliseconds>-<index>". */
  datatype Id = Id(ms: int, index: nat)

  datatype Message = Message(id: Id, fields: Fields)

  /** "0" reads from the start, "$" only what is new, any other text after the message of that id. */
  datatype Cursor = FromStart | OnlyNew | After(id: Id)

  function Append(entries: seq<Message>, ms: int, fields: Fields): seq<Message> {
    entries + [Message(Id(ms, |entries|), fields)]
  }

  /** The position after the first message of the id, or the end if there is none. */
  function PositionAfter(entries: seq<Message>, id: Id): (p: nat)
    ensures p <= |entries|
    ensures forall j :: 0 <= j < p - 1 ==> entries[j].id != id
    ensures p < |entries| ==> 0 < p && entries[p - 1].id == id
  {
    if entries == [] then 0
    else if entries[0].id == id then 1
    else 1 + PositionAfter(entries[1..], id)
  }

  /** What one read returns.  A read after an id stops at `count` messages but never before one. */
  function ReadFrom(entries: seq<Message>, cursor: Cursor, count: int): seq<Message> {
    match cursor
    case OnlyNew => []
    case FromStart => PySlice(entries, 0, count)
    case After(id) => PySlice(entries[PositionAfter(entries, id)..], 0, if count < 1 then 1 else count)
  }

  type Store = map<string, seq<Message>>

  function EntriesOf(streams: Store, name: string): seq<Message> { if name in streams then streams[name] else [] }

  /** One read of several streams: those with something to return, in the order asked for. */
  function ReadEach(streams: Store, cursors: seq<(string, Cursor)>, count: int): seq<(string, seq<Message>)> {
    if cursors == [] then []
    else
      var (name, cursor) := cursors[|cursors| - 1];
      var got := ReadFrom(EntriesOf(streams, name), cursor, count);
      ReadEach(streams, cursors[..|cursors| - 1], count) + if got == [] then [] else [(name, got)]
  }

  // ----- one reader and any number of writers

  datatype Event = Write(ms: int, fields: Fields) | Read(count: int)

  /** The stream, the reader's cursor, and what the reader has received. */
  datatype Reader = Reader(entries: seq<Message>, cursor: Cursor, received: seq<Message>)

  function React(r: Reader, e: Event): Reader {
    match e
    case Write(ms, fields) => r.(entries := Append(r.entries, ms, fields))
    case Read(count) =>
      Received(r, ReadFrom(r.entries, r.cursor, count))
  }

  /** The reader with more messages received. */
  function Received(r: Reader, got: seq<Message>): Reader {
    if got == [] then r else Reader(r.entries, After(got[|got| - 1].id), r.received + got)
  }

  function RunEvents(r: Reader, es: seq<Event>): Reader {
    if es == [] then r else React(RunEvents(r, es[..|es| - 1]), es[|es| - 1])
  }

  const FRESH := Reader([], FromStart, [])

  /** Whatever the clock says, the index makes the ids of a stream unique. */
  ghost predicate Indexed(entries: seq<Message>) {
    forall i :: 0 <= i < |entries| ==> entries[i].id.index == i
  }

  ghost predicate InStep(r: Reader) { Indexed(r.entries) && Follows(r.entries, r.received, r.cursor) }

  /** The messages received are the first ones, and the cursor is the last of them. */
  ghost predicate Follows(entries: seq<Message>, received: seq<Message>, cursor: Cursor) {
    && |received| <= |entries| && received == entries[..|received|]
    && cursor == if received == [] then FromStart else After(received[|received| - 1].id)
  }

  lemma {:induction false} PositionOf(entries: seq<Message>, offset: nat, i: nat)
    requires i < |entries| && forall j :: 0 <= j < |entries| ==> entries[j].id.index == offset + j
    ensures PositionAfter(entries, entries[i].id) == i + 1
  {
    if i > 0 { PositionOf(entries[1..], offset + 1, i - 1); }
  }

  /** The next read starts where the received messages end. */
  lemma NextRead(r: Reader, count: int)
    requires InStep(r) && count >= 1
    ensures var unread := r.entries[|r.received|..];
      ReadFrom(r.entries, r.cursor, count) == unread[..if count < |unread| then count else |unread|]
  {
    if r.received != [] { PositionOf(r.entries, 0, |r.received| - 1); }
    else { assert r.entries[0..] == r.entries; }
  }

  lemma Joined<T>(s: seq<T>, n: nat, k: nat)
    requires n + k <= |s|
    ensures s[n..][..k] == s[n..n + k] && s[..n] + s[n..n + k] == s[..n + k]
  {
  }

  lemma PrefixGrows(entries: seq<Message>, received: seq<Message>, cursor: Cursor, k: nat)
    requires Follows(entries, received, cursor) && 0 < k && |received| + k <= |entries|
    ensures var got := entries[|received|..][..k]; Follows(entries, received + got, After(got[k - 1].id))
  {
    Joined(entries, |received|, k);
  }

  lemma ReceivedStays(r: Reader, got: seq<Message>, k: nat)
    requires InStep(r) && |r.received| + k <= |r.entries| && got == r.entries[|r.received|..][..k]
    ensures InStep(Received(r, got))
  {
    if k > 0 { PrefixGrows(r.entries, r.received, r.cursor, k); }
  }

  lemma ReadStays(r: Reader, count: int)
    requires InStep(r) && count >= 1
    ensures InStep(React(r, Read(count)))
  {
    var unread := |r.entries| - |r.received|;
    NextRead(r, count);
    ReceivedStays(r, ReadFrom(r.entries, r.cursor, count), if count < unread then count else unread);
  }

  lemma StaysInStep(r: Reader, e: Event)
    requires InStep(r) && (e.Read? ==> e.count >= 1)
    ensures InStep(React(r, e))
  {
    match e
    case Read(count) => ReadStays(r, count);
    case Write(ms, fields) => assert Append(r.entries, ms, fields)[..|r.received|] == r.received;
  }

  /**
   Exactly once and in order: a reader that starts at "0" and keeps passing the last id it received has,
   after any interleaving of writes and reads of at least one message, received exactly the first
   messages of the stream, each once and in append order; ids are unique.
   */
  lemma {:induction false} ReadsExactlyOnce(es: seq<Event>)
    requires forall i :: 0 <= i < |es| && es[i].Read? ==> es[i].count >= 1
    ensures InStep(RunEvents(FRESH, es))
  {
    if es != [] {
      ReadsExactlyOnce(es[..|es| - 1]);
      StaysInStep(RunEvents(FRESH, es[..|es| - 1]), es[|es| - 1]);
    }
  }

  /** The writes of a run, in order. */
  function Writes(es: seq<Event>): seq<Event> {
    if es == [] then []
    else Writes(es[..|es| - 1]) + if es[|es| - 1].Write? then [es[|es| - 1]] else []
  }

  /** A stream holds exactly what was written, in that order, each under the time of its writing and its position. */
  lemma {:induction false} EntriesAreWrites(es: seq<Event>)
    ensures var entries, writes := RunEvents(FRESH, es).entries, Writes(es);
      |entries| == |writes|
      && forall i :: 0 <= i < |entries| ==>
           writes[i].Write? && entries[i].fields == writes[i].fields
           && entries[i].id.ms == writes[i].ms && entries[i].id.index == i
  {
    if es != [] { EntriesAreWrites(es[..|es| - 1]); }
  }

  /** No message is held back: a read returns the next min(count, unread) messages. */
  lemma ReadMakesProgress(es: seq<Event>, count: int)
    requires count >= 1 && forall i :: 0 <= i < |es| && es[i].Read? ==> es[i].count >= 1
    ensures var r := RunEvents(FRESH, es); var unread := |r.entries| - |r.received|;
      |React(r, Read(count)).received| == |r.received| + if count < unread then count else unread
  {
    ReadsExactlyOnce(es);
    NextRead(RunEvents(FRESH, es), count);
  }
}
