/** The in-memory client with its dictionaries, lists and streams, and the operations used on it. */
module LocalState {
  import opened Prelude
  import KV = KeyValues
  import opened Buffers
  import opened Streams

  class LocalStateClient {
    var store: map<string, string>
    var expiries: map<string, real>
    var lists: Lists
    var streams: map<string, seq<Message>>

    ghost function Keys(): KV.Lazy
      reads this
    {
      KV.Lazy(store, expiries)
    }

    constructor ()
      ensures Keys() == KV.Lazy(map[], map[]) && lists == map[] && streams == map[]
    {
      store, expiries, lists, streams := map[], map[], map[], map[];
    }

    method EvictExpired(key: string, now: real)
      modifies this`store, this`expiries
      ensures Keys() == KV.Evict(old(Keys()), key, now)
    {
      if key in expiries && now > expiries[key] {
        store := store - {key};
        expiries := expiries - {key};
      }
    }

    method Get(key: string, now: real) returns (value: Option<string>)
      modifies this`store, this`expiries
      ensures (Keys(), value) == KV.LazyGet(old(Keys()), key, now)
    {
      EvictExpired(key, now);
      value := if key in store then Some(store[key]) else None;
    }

    method Set(key: string, value: string, px: Option<int>, nx: bool, now: real, later: real) returns (ok: bool)
      modifies this`store, this`expiries
      ensures (Keys(), ok) == KV.LazySet(old(Keys()), key, value, px, nx, now, later)
    {
      EvictExpired(key, now);
      if nx && key in store {
        return false;
      }
      store := store[key := value];
      if px.Some? && px.value != 0 {
        expiries := expiries[key := later + px.value as real / 1000.0];
      }
      return true;
    }

    method Delete(keys: seq<string>) returns (count: nat)
      modifies this`store, this`expiries
      ensures (Keys(), count) == KV.LazyDelete(old(Keys()), keys)
    {
      count := 0;
      for i := 0 to |keys|
        invariant KV.LazyDelete(old(Keys()), keys).0 == KV.LazyDelete(Keys(), keys[i..]).0
        invariant KV.LazyDelete(old(Keys()), keys).1 == count + KV.LazyDelete(Keys(), keys[i..]).1
      {
        assert keys[i..][0] == keys[i] && keys[i..][1..] == keys[i + 1..];
        if keys[i] in store {
          store := store - {keys[i]};
          expiries := expiries - {keys[i]};
          count := count + 1;
        }
      }
    }

    method Rpush(key: string, values: seq<Tick>) returns (length: nat)
      modifies this`lists
      ensures length == |ListAt(old(lists), key)| + |values|
      ensures ListAt(lists, key) == ListAt(old(lists), key) + values
      ensures forall k :: k != key ==> ListAt(lists, k) == ListAt(old(lists), k)
    {
      for i := 0 to |values|
        invariant ListAt(lists, key) == ListAt(old(lists), key) + values[..i]
        invariant forall k :: k != key ==> ListAt(lists, k) == ListAt(old(lists), k)
      {
        lists := lists[key := ListAt(lists, key) + [values[i]]];
      }
      length := |ListAt(lists, key)|;
    }

    method Ltrim(key: string, start: int, end: int)
      modifies this`lists
      ensures lists == old(lists)[key := RedisRange(ListAt(old(lists), key), start, end)]
    {
      var list := ListAt(lists, key);
      RangeIsRedisRange(list, start, end);
      lists := lists[key := if end == -1 then PySlice(list, start, |list|) else PySlice(list, start, end + 1)];
    }

    /** Reading a missing list creates it empty. */
    method Lrange(key: string, start: int, end: int) returns (values: seq<Tick>)
      modifies this`lists
      ensures values == RedisRange(ListAt(old(lists), key), start, end)
      ensures lists == old(lists)[key := ListAt(old(lists), key)]
    {
      var list := ListAt(lists, key);
      lists := lists[key := list];
      RangeIsRedisRange(list, start, end);
      if end == -1 {
        return PySlice(list, start, |list|);
      }
      return PySlice(list, start, end + 1);
    }

    method XAdd(stream: string, now: real, fields: Fields) returns (id: Id)
      modifies this`streams
      ensures var entries := EntriesOf(old(streams), stream);
        streams == old(streams)[stream := Append(entries, (now * 1000.0).Floor, fields)]
        && id == Id((now * 1000.0).Floor, |entries|)
    {
      var entries := EntriesOf(streams, stream);
      id := Id((now * 1000.0).Floor, |entries|);
      streams := streams[stream := entries + [Message(id, fields)]];
    }

    /** The messages of one stream after a cursor. */
    method XReadOne(stream: string, cursor: Cursor, count: int) returns (filtered: seq<Message>)
      ensures filtered == ReadFrom(EntriesOf(streams, stream), cursor, count)
    {
      var entries := EntriesOf(streams, stream);
      match cursor
      case OnlyNew => return [];
      case FromStart => return PySlice(entries, 0, count);
      case After(id) => filtered := ReadAfter(entries, id, count);
    }

    /** Scans for the id, then collects what follows it. */
    static method ReadAfter(entries: seq<Message>, id: Id, count: int) returns (filtered: seq<Message>)
      ensures filtered == ReadFrom(entries, After(id), count)
    {
      filtered := [];
      var found := false;
      ghost var from := PositionAfter(entries, id);
      ghost var most := if count < 1 then 1 else count;
      for i := 0 to |entries|
        invariant i < |entries| ==> (found <==> i >= from)
        invariant filtered == if i >= from then entries[from..i] else []
        invariant |filtered| < most
      {
        if found {
          filtered := filtered + [entries[i]];
          if |filtered| >= count {
            assert filtered == entries[from..][..most];
            return;
          }
        }
        if entries[i].id == id {
          found := true;
        }
      }
    }

    method XRead(cursors: seq<(string, Cursor)>, count: int) returns (result: seq<(string, seq<Message>)>)
      ensures result == ReadEach(streams, cursors, count)
    {
      result := [];
      for i := 0 to |cursors|
        invariant result == ReadEach(streams, cursors[..i], count)
      {
        var filtered := XReadOne(cursors[i].0, cursors[i].1, count);
        assert cursors[..i + 1][..i] == cursors[..i];
        if filtered != [] {
          result := result + [(cursors[i].0, filtered)];
        }
      }
      assert cursors[..|cursors|] == cursors;
    }
  }

  datatype Command = PushRight(key: string, values: seq<Tick>) | Trim(key: string, start: int, end: int)

  function Apply(lists: Lists, c: Command): Lists {
    match c
    case PushRight(key, values) => lists[key := ListAt(lists, key) + values]
    case Trim(key, start, end) => lists[key := Range(ListAt(lists, key), start, end)]
  }

  function ApplyAll(lists: Lists, cs: seq<Command>): Lists {
    if cs == [] then lists else Apply(ApplyAll(lists, cs[..|cs| - 1]), cs[|cs| - 1])
  }

  datatype Outcome = Length(length: nat) | Trimmed

  function OutcomeOf(lists: Lists, c: Command): Outcome {
    match c
    case PushRight(key, _) => Length(|ListAt(Apply(lists, c), key)|)
    case Trim(_, _, _) => Trimmed
  }

  /** Each command's outcome, on the lists as the commands before it leave them. */
  function OutcomesOf(lists: Lists, cs: seq<Command>): seq<Outcome> {
    if cs == [] then []
    else
      var before := cs[..|cs| - 1];
      OutcomesOf(lists, before) + [OutcomeOf(ApplyAll(lists, before), cs[|cs| - 1])]
  }

  lemma ApplyTwo(lists: Lists, first: Command, second: Command)
    ensures ApplyAll(lists, [first, second]) == Apply(Apply(lists, first), second)
  {
    assert [first, second][..1] == [first] && [first][..0] == [];
    assert ApplyAll(lists, [first]) == Apply(lists, first);
  }

  /** A batch of list commands, carried out at once. */
  class LocalPipeline {
    const client: LocalStateClient
    var commands: seq<Command>

    constructor (client: LocalStateClient)
      ensures this.client == client && commands == []
    {
      this.client := client;
      commands := [];
    }

    method Rpush(key: string, values: seq<Tick>)
      modifies this
      ensures commands == old(commands) + [PushRight(key, values)]
    {
      commands := commands + [PushRight(key, values)];
    }

    method Ltrim(key: string, start: int, end: int)
      modifies this
      ensures commands == old(commands) + [Trim(key, start, end)]
    {
      commands := commands + [Trim(key, start, end)];
    }

    /** Carries the batch out in order, and returns what each command gives: the new length, or that it trimmed. */
    method Execute() returns (results: seq<Outcome>)
      modifies this, client`lists
      ensures client.lists == ApplyAll(old(client.lists), old(commands)) && commands == []
      ensures results == OutcomesOf(old(client.lists), old(commands))
    {
      results := [];
      for i := 0 to |commands|
        invariant commands == old(commands) && client.lists == ApplyAll(old(client.lists), commands[..i])
        invariant results == OutcomesOf(old(client.lists), commands[..i])
      {
        assert commands[..i + 1][..i] == commands[..i];
        var outcome := CarryOut(commands[i]);
        results := results + [outcome];
      }
      assert commands[..|commands|] == commands;
      commands := [];
    }

    method CarryOut(c: Command) returns (outcome: Outcome)
      modifies client`lists
      ensures client.lists == Apply(old(client.lists), c) && outcome == OutcomeOf(old(client.lists), c)
    {
      match c
      case PushRight(key, values) =>
        ghost var before := client.lists;
        client.lists := client.lists[key := ListAt(client.lists, key)];
        assert ListAt(before, key) + values[..0] == ListAt(before, key);
        for j := 0 to |values|
          invariant client.lists == before[key := ListAt(before, key) + values[..j]]
        {
          client.lists := client.lists[key := client.lists[key] + [values[j]]];
          assert ListAt(before, key) + values[..j + 1] == ListAt(before, key) + values[..j] + [values[j]];
        }
        assert values[..|values|] == values;
        outcome := Length(|client.lists[key]|);
      case Trim(key, start, end) =>
        client.lists := client.lists[key := Range(ListAt(client.lists, key), start, end)];
        outcome := Trimmed;
    }
  }

  /** `set_ohlcv_rolling`: one tick into the rolling buffer. */
  method SetOhlcvRolling(client: LocalStateClient, symbol: string, tick: Tick)
    modifies client`lists
    ensures client.lists == PushTick(old(client.lists), symbol, tick)
  {
    var key := BufferKey(symbol);
    var pipe := new LocalPipeline(client);
    pipe.Rpush(key, [tick]);
    pipe.Ltrim(key, -MAX_TICKS, -1);
    ApplyTwo(client.lists, PushRight(key, [tick]), Trim(key, -MAX_TICKS, -1));
    assert pipe.commands == [PushRight(key, [tick]), Trim(key, -MAX_TICKS, -1)];
    ghost var pushed := ListAt(client.lists, key) + [tick];
    var _ := pipe.Execute();
    assert client.lists == PushTick(old(client.lists), symbol, tick) by {
      assert old(client.lists)[key := pushed][key := Range(pushed, -MAX_TICKS, -1)]
          == old(client.lists)[key := Range(pushed, -MAX_TICKS, -1)];
    }
  }

  /** `get_ohlcv_rolling`: the last ticks of the rolling buffer. */
  method GetOhlcvRolling(client: LocalStateClient, symbol: string, count: int) returns (ticks: seq<Tick>)
    modifies client`lists
    ensures ticks == GetTicks(old(client.lists), symbol, count)
    ensures forall k :: ListAt(client.lists, k) == ListAt(old(client.lists), k)
  {
    var actual := if count < MAX_TICKS then count else MAX_TICKS;
    RangeIsRedisRange(ListAt(client.lists, BufferKey(symbol)), -actual, -1);
    ticks := client.Lrange(BufferKey(symbol), -actual, -1);
  }

  /** `acquire_lock`: set if absent, with a time to live. */
  method AcquireLock(client: LocalStateClient, key: string, ttlMs: int, now: real, later: real) returns (ok: bool)
    modifies client`store, client`expiries
    ensures (client.Keys(), ok) == KV.LazySet(old(client.Keys()), key, "1", Some(ttlMs), true, now, later)
  {
    ok := client.Set(key, "1", Some(ttlMs), true, now, later);
  }

  /** `release_lock`: delete the key, whoever owns it. */
  method ReleaseLock(client: LocalStateClient, key: string)
    modifies client`store, client`expiries
    ensures client.Keys() == KV.LazyDelete(old(client.Keys()), [key]).0
  {
    var _ := client.Delete([key]);
  }
}
