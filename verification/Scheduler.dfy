/** The refresh scheduler: round robin over the normal symbols, oldest work first for the high-priority ones. */
module Scheduler {
  import opened Prelude
  import opened SymbolNames

  type Symbol = string

  /** The symbols that are not in the high-priority set, in their order. */
  function Normal(symbols: seq<Symbol>, high: set<Symbol>): seq<Symbol> {
    if symbols == [] then []
    else Normal(symbols[..|symbols| - 1], high)
         + if symbols[|symbols| - 1] in high then [] else [symbols[|symbols| - 1]]
  }

  ghost predicate NoRepeats(xs: seq<Symbol>) { forall i, j :: 0 <= i < j < |xs| ==> xs[i] != xs[j] }

  lemma {:induction false} NormalIs(symbols: seq<Symbol>, high: set<Symbol>)
    ensures forall x :: x in Normal(symbols, high) <==> x in symbols && x !in high
    ensures NoRepeats(symbols) ==> NoRepeats(Normal(symbols, high))
  {
    if symbols != [] {
      var before := symbols[..|symbols| - 1];
      NormalIs(before, high);
      assert symbols == before + [symbols[|symbols| - 1]];
      if NoRepeats(symbols) { assert symbols[|symbols| - 1] !in before; }
    }
  }

  /** One pick: the symbol, if there is one, and the rotation index afterwards. */
  function Pick(normal: seq<Symbol>, index: nat): (Option<Symbol>, nat) {
    if normal == [] then (None, index)
    else (Some(normal[index % |normal|]), index % |normal| + 1)
  }

  /** `n` picks in a row from a list that does not change. */
  function Picks(normal: seq<Symbol>, index: nat, n: nat): seq<Symbol>
    requires normal != []
    decreases n
  {
    if n == 0 then [] else [Pick(normal, index).0.value] + Picks(normal, Pick(normal, index).1, n - 1)
  }

  /** The rotation index after `n` picks. */
  function IndexAfter(normal: seq<Symbol>, index: nat, n: nat): nat
    decreases n
  {
    if n == 0 then index else IndexAfter(normal, Pick(normal, index).1, n - 1)
  }

  lemma {:induction false} PicksSplit(normal: seq<Symbol>, index: nat, n: nat, m: nat)
    requires normal != []
    ensures Picks(normal, index, n + m) == Picks(normal, index, n) + Picks(normal, IndexAfter(normal, index, n), m)
    decreases n
  {
    if n > 0 { PicksSplit(normal, Pick(normal, index).1, n - 1, m); }
  }

  lemma SmallMod(i: nat, n: nat)
    requires i < n
    ensures i % n == i
  {
  }

  /** Up to the end of the list the picks are the list itself. */
  lemma {:induction false} PicksRunUp(normal: seq<Symbol>, i: nat, n: nat)
    requires normal != [] && i + n <= |normal|
    ensures Picks(normal, i, n) == normal[i..i + n] && IndexAfter(normal, i, n) == i + n
    decreases n
  {
    if n > 0 {
      SmallMod(i, |normal|);
      assert Pick(normal, i) == (Some(normal[i]), i + 1);
      PicksRunUp(normal, i + 1, n - 1);
      assert normal[i..i + n] == [normal[i]] + normal[i + 1..i + n];
    }
  }

  /** Only the remainder of the index matters. */
  lemma PicksWrap(normal: seq<Symbol>, index: nat, n: nat)
    requires normal != []
    ensures Picks(normal, index, n) == Picks(normal, index % |normal|, n)
  {
    SmallMod(index % |normal|, |normal|);
    assert Pick(normal, index) == Pick(normal, index % |normal|);
  }

  /** As many picks as there are symbols are the list, rotated. */
  lemma RoundIsRotation(normal: seq<Symbol>, index: nat)
    requires normal != []
    ensures var a := index % |normal|; Picks(normal, index, |normal|) == normal[a..] + normal[..a]
  {
    var n := |normal|;
    var a := index % n;
    PicksWrap(normal, index, n);
    PicksSplit(normal, a, n - a, a);
    PicksRunUp(normal, a, n - a);
    PicksWrap(normal, n, a);
    assert n % n == 0;
    PicksRunUp(normal, 0, a);
  }

  /**
   Fairness: with a duplicate-free universe and a fixed priority set, any run of as many picks as there are
   normal symbols visits each normal symbol exactly once, and never a high-priority one.
   */
  lemma RoundIsFair(symbols: seq<Symbol>, high: set<Symbol>, index: nat)
    requires NoRepeats(symbols) && Normal(symbols, high) != []
    ensures var normal := Normal(symbols, high); var picks := Picks(normal, index, |normal|);
      |picks| == |normal| && NoRepeats(picks) && forall x :: x in picks <==> x in symbols && x !in high
  {
    var normal := Normal(symbols, high);
    var a := index % |normal|;
    NormalIs(symbols, high);
    RoundIsRotation(normal, index);
    assert normal == normal[..a] + normal[a..];
  }

  /** Whatever the symbols and the priority set have become, a pick is a normal symbol and the index stays in range. */
  lemma PickInRange(symbols: seq<Symbol>, high: set<Symbol>, index: nat)
    ensures var normal := Normal(symbols, high); var p := Pick(normal, index);
      (p.0.None? <==> forall x :: x in symbols ==> x in high)
      && (p.0.Some? ==> p.0.value in symbols && p.0.value !in high && 1 <= p.1 <= |normal|)
  {
    NormalIs(symbols, high);
    var normal := Normal(symbols, high);
    if normal != [] { assert normal[0] in normal && normal[index % |normal|] in normal; }
    else { forall x | x in symbols ensures x in high { assert x !in normal; } }
  }

  // ----- high-priority refreshes

  /** Reports by symbol with their time. */
  type Reports = map<Symbol, real>

  predicate Stale(reports: Reports, sym: Symbol, cutoff: real) { sym !in reports || reports[sym] < cutoff }

  ghost function StaleSet(reports: Reports, high: set<Symbol>, cutoff: real): set<Symbol> {
    set sym | sym in high && Stale(reports, sym, cutoff)
  }

  /** `order` lists a set, in any order. */
  ghost predicate Lists(order: seq<Symbol>, s: set<Symbol>) {
    NoRepeats(order) && forall x :: x in order <==> x in s
  }

  /** The outcome of each refresh: the time of the new report, or `None` when it failed. */
  type Outcomes = seq<Option<real>>

  /** One refresh; a failed one leaves the reports as they are. */
  function Filed(reports: Reports, sym: Symbol, outcome: Option<real>): Reports {
    if outcome.Some? then reports[sym := outcome.value] else reports
  }

  function Refreshed(reports: Reports, symbols: seq<Symbol>, outcomes: Outcomes): Reports
    requires |outcomes| == |symbols|
    decreases |symbols|
  {
    if symbols == [] then reports
    else Refreshed(Filed(reports, symbols[0], outcomes[0]), symbols[1..], outcomes[1..])
  }

  /** The symbols whose refresh succeeded. */
  function Succeeded(symbols: seq<Symbol>, outcomes: Outcomes): seq<Symbol>
    requires |outcomes| == |symbols|
  {
    if symbols == [] then []
    else (if outcomes[0].Some? then [symbols[0]] else []) + Succeeded(symbols[1..], outcomes[1..])
  }

  function Successes(outcomes: Outcomes): nat {
    if outcomes == [] then 0 else (if outcomes[0].Some? then 1 else 0) + Successes(outcomes[1..])
  }

  ghost predicate NoneFailed(outcomes: Outcomes) { forall i :: 0 <= i < |outcomes| ==> outcomes[i].Some? }

  /** Every new report is at least as young as the tick's cutoff. */
  ghost predicate AllFresh(outcomes: Outcomes, cutoff: real) {
    forall i :: 0 <= i < |outcomes| && outcomes[i].Some? ==> outcomes[i].value >= cutoff
  }

  function FirstThree(order: seq<Symbol>): seq<Symbol> { if |order| <= 3 then order else order[..3] }

  lemma {:induction false} NoneFailedCounts(outcomes: Outcomes)
    requires NoneFailed(outcomes)
    ensures Successes(outcomes) == |outcomes|
  {
    if outcomes != [] { NoneFailedCounts(outcomes[1..]); }
  }

  lemma {:induction false} SucceededIs(symbols: seq<Symbol>, outcomes: Outcomes)
    requires |outcomes| == |symbols|
    ensures |Succeeded(symbols, outcomes)| == Successes(outcomes)
    ensures forall x :: x in Succeeded(symbols, outcomes) ==> x in symbols
    ensures NoRepeats(symbols) ==> NoRepeats(Succeeded(symbols, outcomes))
  {
    if symbols != [] {
      SucceededIs(symbols[1..], outcomes[1..]);
      assert symbols == [symbols[0]] + symbols[1..];
      if NoRepeats(symbols) { assert symbols[0] !in symbols[1..]; }
    }
  }

  /** A symbol is as fresh as before, or fresh because its refresh succeeded. */
  ghost predicate FiledRight(reports: Reports, after: Reports, x: Symbol, succeeded: seq<Symbol>, cutoff: real) {
    Stale(after, x, cutoff) <==> Stale(reports, x, cutoff) && x !in succeeded
  }

  lemma {:induction false} RefreshedIs(reports: Reports, symbols: seq<Symbol>, outcomes: Outcomes, cutoff: real,
                                       x: Symbol)
    requires |outcomes| == |symbols| && AllFresh(outcomes, cutoff)
    ensures FiledRight(reports, Refreshed(reports, symbols, outcomes), x, Succeeded(symbols, outcomes), cutoff)
    decreases |symbols|
  {
    if symbols != [] {
      RefreshedIs(Filed(reports, symbols[0], outcomes[0]), symbols[1..], outcomes[1..], cutoff, x);
    }
  }

  /** Each successful refresh of distinct symbols leaves the report of its time; all other reports stay. */
  lemma {:induction false} ReportsAre(reports: Reports, symbols: seq<Symbol>, outcomes: Outcomes, x: Symbol)
    requires |outcomes| == |symbols| && NoRepeats(symbols)
    ensures var after := Refreshed(reports, symbols, outcomes);
      && (x !in symbols ==> (x in after <==> x in reports) && (x in reports ==> after[x] == reports[x]))
      && forall i :: 0 <= i < |symbols| && symbols[i] == x ==>
           if outcomes[i].Some? then x in after && after[x] == outcomes[i].value
           else (x in after <==> x in reports) && (x in reports ==> after[x] == reports[x])
    decreases |symbols|
  {
    if symbols != [] {
      var rest := symbols[1..];
      assert symbols == [symbols[0]] + rest && symbols[0] !in rest;
      ReportsAre(Filed(reports, symbols[0], outcomes[0]), rest, outcomes[1..], x);
      forall i | 0 <= i < |symbols| && symbols[i] == x
        ensures var after := Refreshed(reports, symbols, outcomes);
          if outcomes[i].Some? then x in after && after[x] == outcomes[i].value
          else (x in after <==> x in reports) && (x in reports ==> after[x] == reports[x])
      {
        if i > 0 { assert rest[i - 1] == x && outcomes[1..][i - 1] == outcomes[i]; }
      }
    }
  }

  /** The set of the elements of a duplicate-free list is as large as the list. */
  lemma {:induction false} SizeOf(order: seq<Symbol>, s: set<Symbol>)
    requires Lists(order, s)
    ensures |order| == |s|
  {
    if order != [] {
      var last := order[|order| - 1];
      var before := order[..|order| - 1];
      assert order == before + [last];
      SizeOf(before, s - {last});
    }
  }

  /** Refreshing a duplicate-free list of stale symbols takes exactly the successful ones out of the stale set. */
  lemma RefreshClears(reports: Reports, high: set<Symbol>, cutoff: real, outcomes: Outcomes, done: seq<Symbol>)
    requires |outcomes| == |done| && AllFresh(outcomes, cutoff)
    requires NoRepeats(done) && forall x :: x in done ==> x in StaleSet(reports, high, cutoff)
    ensures var before := StaleSet(reports, high, cutoff);
      var after := StaleSet(Refreshed(reports, done, outcomes), high, cutoff);
      after <= before && |after| == |before| - Successes(outcomes)
  {
    var before, after := StaleSet(reports, high, cutoff), StaleSet(Refreshed(reports, done, outcomes), high, cutoff);
    var succeeded := Succeeded(done, outcomes);
    SucceededIs(done, outcomes);
    forall x ensures FiledRight(reports, Refreshed(reports, done, outcomes), x, succeeded, cutoff) {
      RefreshedIs(reports, done, outcomes, cutoff, x);
    }
    var cleared := set x | x in succeeded;
    SizeOf(succeeded, cleared);
    forall x ensures x in after <==> x in before - cleared {
      assert FiledRight(reports, Refreshed(reports, done, outcomes), x, succeeded, cutoff);
    }
    assert after == before - cleared;
  }

  // ----- ticks

  /**
   The high-priority half of one tick: the reports it finds, the cutoff it computes, the stale symbols in
   the order in which the set happens to be listed, the outcomes of the first three, and what is left.
   */
  datatype Turn = Turn(before: Reports, cutoff: real, order: seq<Symbol>, outcomes: Outcomes, after: Reports)

  ghost predicate Tick(t: Turn, high: set<Symbol>) {
    && Lists(t.order, StaleSet(t.before, high, t.cutoff))
    && |t.outcomes| == |FirstThree(t.order)| && t.after == Refreshed(t.before, FirstThree(t.order), t.outcomes)
  }

  /** A tick takes as many symbols out of the stale set as refreshes succeed. */
  lemma TickClears(t: Turn, high: set<Symbol>)
    requires Tick(t, high) && AllFresh(t.outcomes, t.cutoff)
    ensures var before, after := StaleSet(t.before, high, t.cutoff), StaleSet(t.after, high, t.cutoff);
      && after <= before && |after| == |before| - Successes(t.outcomes)
      && (NoneFailed(t.outcomes) ==> |after| == if |before| <= 3 then 0 else |before| - 3)
  {
    var before := StaleSet(t.before, high, t.cutoff);
    SizeOf(t.order, before);
    var done := FirstThree(t.order);
    forall x | x in done ensures x in before { assert x in t.order; }
    RefreshClears(t.before, high, t.cutoff, t.outcomes, done);
    if NoneFailed(t.outcomes) { NoneFailedCounts(t.outcomes); }
  }

  /** Between two ticks only other symbols get reports, the cutoff does not fall, and nothing fresh expires. */
  ghost predicate Linked(t: Turn, u: Turn, high: set<Symbol>) {
    && t.cutoff <= u.cutoff
    && (forall x :: x in high ==> (x in t.after <==> x in u.before) && (x in t.after ==> t.after[x] == u.before[x]))
    && forall x :: x in high && !Stale(t.after, x, t.cutoff) ==> !Stale(u.before, x, u.cutoff)
  }

  ghost predicate TickRun(turns: seq<Turn>, high: set<Symbol>) {
    && (forall i :: 0 <= i < |turns| ==> Tick(turns[i], high) && AllFresh(turns[i].outcomes, turns[i].cutoff))
    && forall i :: 0 < i < |turns| ==> Linked(turns[i - 1], turns[i], high)
  }

  /** The symbols that are stale after `n` ticks. */
  ghost function Left(turns: seq<Turn>, high: set<Symbol>, n: nat): set<Symbol>
    requires turns != [] && n <= |turns|
  {
    if n == 0 then StaleSet(turns[0].before, high, turns[0].cutoff)
    else StaleSet(turns[n - 1].after, high, turns[n - 1].cutoff)
  }

  /** The successful refreshes of all ticks. */
  function TotalSuccesses(turns: seq<Turn>): nat {
    if turns == [] then 0 else TotalSuccesses(turns[..|turns| - 1]) + Successes(turns[|turns| - 1].outcomes)
  }

  /** The next tick finds exactly what the last one left. */
  lemma LeftIsFound(turns: seq<Turn>, high: set<Symbol>, n: nat)
    requires n < |turns| && TickRun(turns, high)
    ensures Left(turns, high, n) == StaleSet(turns[n].before, high, turns[n].cutoff)
  {
    if n > 0 { assert Linked(turns[n - 1], turns[n], high); }
  }

  /** While nothing expires, every successful refresh takes one symbol off the stale ones, and a failed one none. */
  lemma {:induction false} SuccessesCount(turns: seq<Turn>, high: set<Symbol>, n: nat)
    requires turns != [] && n <= |turns| && TickRun(turns, high)
    ensures Left(turns, high, n) <= Left(turns, high, 0)
    ensures |Left(turns, high, n)| == |Left(turns, high, 0)| - TotalSuccesses(turns[..n])
    decreases n
  {
    if n > 0 {
      SuccessesCount(turns, high, n - 1);
      LeftIsFound(turns, high, n - 1);
      TickClears(turns[n - 1], high);
      assert turns[..n][..n - 1] == turns[..n - 1];
    }
  }

  /**
   Ticks at any times: if refreshes succeed and nothing fresh expires meanwhile, after `n` ticks
   max(0, s - 3n) of `s` stale symbols are left, whatever the order in which the set is listed: all are
   refreshed within ceil(s / 3) ticks.
   */
  lemma {:induction false} AllRefreshedInTime(turns: seq<Turn>, high: set<Symbol>, n: nat)
    requires turns != [] && n <= |turns| && TickRun(turns, high)
    requires forall i :: 0 <= i < |turns| ==> NoneFailed(turns[i].outcomes)
    ensures var s := |Left(turns, high, 0)|;
      |Left(turns, high, n)| == (if s <= 3 * n then 0 else s - 3 * n)
      && (3 * n >= s ==> Left(turns, high, n) == {})
    decreases n
  {
    if n > 0 {
      AllRefreshedInTime(turns, high, n - 1);
      LeftIsFound(turns, high, n - 1);
      TickClears(turns[n - 1], high);
    }
  }

  // ----- the registry

  predicate FirstAt(symbols: seq<Symbol>, sym: Symbol, i: int) {
    0 <= i < |symbols| && symbols[i] == sym && sym !in symbols[..i]
  }

  /** The list without the first occurrence of the symbol. */
  ghost predicate FirstRemoved(before: seq<Symbol>, after: seq<Symbol>, sym: Symbol) {
    if sym in before then exists i :: FirstAt(before, sym, i) && after == before[..i] + before[i + 1..]
    else after == before
  }

  lemma RemovedOnce(symbols: seq<Symbol>, sym: Symbol, i: nat)
    requires i < |symbols| && symbols[i] == sym && sym !in symbols[..i]
    ensures FirstRemoved(symbols, symbols[..i] + symbols[i + 1..], sym)
    ensures NoRepeats(symbols) ==>
      NoRepeats(symbols[..i] + symbols[i + 1..]) && sym !in symbols[..i] + symbols[i + 1..]
  {
    assert FirstAt(symbols, sym, i);
  }

  /** The symbols that texts mean; an empty text means none, a blank one the empty symbol. */
  function Cleaned(texts: seq<string>): seq<Symbol> {
    if texts == [] then []
    else Cleaned(texts[..|texts| - 1]) + if texts[|texts| - 1] == "" then [] else [Clean(texts[|texts| - 1])]
  }

  predicate Raised(texts: seq<string>, sym: Symbol) { sym in Cleaned(texts) }

  /** A symbol is raised exactly by a text that is not empty and means it in some spelling. */
  lemma {:induction false} RaisedBy(texts: seq<string>, sym: Symbol)
    ensures Raised(texts, sym) <==> exists text :: text in texts && text != "" && Clean(text) == sym
  {
    if texts != [] {
      var before, last := texts[..|texts| - 1], texts[|texts| - 1];
      RaisedBy(before, sym);
      assert texts == before + [last];
      if last != "" && Clean(last) == sym { assert last in texts; }
    }
  }

  /** Every symbol of the universe is spelled the clean way. */
  ghost predicate AllClean(symbols: seq<Symbol>) { forall x :: x in symbols ==> IsClean(x) }

  lemma {:induction false} CleanedIsClean(texts: seq<string>)
    ensures AllClean(Cleaned(texts))
  {
    if texts != [] {
      CleanedIsClean(texts[..|texts| - 1]);
      CleanIsClean(texts[|texts| - 1]);
    }
  }

  lemma RaisedSplits(symbols: seq<Symbol>, reports: Reports, high: set<Symbol>, raised: seq<Symbol>)
    requires forall x :: x in high <==> x in raised
    ensures forall x :: x in Normal(symbols, high) <==> x in symbols && x !in raised
    ensures forall x, cutoff :: x in StaleSet(reports, high, cutoff) <==> x in raised && Stale(reports, x, cutoff)
  {
    NormalIs(symbols, high);
  }

  /**
   What an update of the priorities decides: from any rotation index a full round visits each symbol that
   no text means exactly once and the raised ones never, and in any order of the set the next ticks take
   up exactly the raised symbols without a fresh report.
   */
  lemma PriorityDecides(symbols: seq<Symbol>, texts: seq<string>, high: set<Symbol>, index: nat, turns: seq<Turn>)
    requires NoRepeats(symbols) && Normal(symbols, high) != [] && forall x :: x in high <==> Raised(texts, x)
    requires turns != [] && TickRun(turns, high) && forall i :: 0 <= i < |turns| ==> NoneFailed(turns[i].outcomes)
    ensures var picks := Picks(Normal(symbols, high), index, |Normal(symbols, high)|);
      NoRepeats(picks) && forall x :: x in picks <==> x in symbols && !Raised(texts, x)
    ensures forall x :: x in turns[0].order <==> Raised(texts, x) && Stale(turns[0].before, x, turns[0].cutoff)
    ensures 3 * |turns| >= |turns[0].order| ==>
      forall x :: Raised(texts, x) ==> !Stale(turns[|turns| - 1].after, x, turns[|turns| - 1].cutoff)
  {
    RoundIsFair(symbols, high, index);
    assert Tick(turns[0], high);
    SizeOf(turns[0].order, Left(turns, high, 0));
    AllRefreshedInTime(turns, high, |turns|);
    if 3 * |turns| >= |turns[0].order| {
      forall x | Raised(texts, x) ensures !Stale(turns[|turns| - 1].after, x, turns[|turns| - 1].cutoff) {
        assert x in high && x !in Left(turns, high, |turns|);
      }
    }
  }

  class StockSpecialistRegistry {
    var symbols: seq<Symbol>
    var highPriority: set<Symbol>
    var reports: Reports
    var agents: set<Symbol>
    var rotationIndex: nat

    /** Cleans the watch list; unlike `AddSymbol` it keeps repetitions, and blank texts as the empty symbol. */
    constructor (watchList: seq<string>)
      ensures highPriority == {} && reports == map[] && agents == {} && rotationIndex == 0
      ensures symbols == Cleaned(watchList) && AllClean(symbols)
    {
      var universe: seq<Symbol> := [];
      for i := 0 to |watchList|
        invariant universe == Cleaned(watchList[..i])
      {
        assert watchList[..i + 1][..i] == watchList[..i];
        if watchList[i] != "" {
          universe := universe + [Clean(watchList[i])];
        }
      }
      assert watchList[..|watchList|] == watchList;
      CleanedIsClean(watchList);
      symbols, highPriority, reports, agents, rotationIndex := universe, {}, map[], {}, 0;
    }

    method AddSymbol(text: string)
      modifies this`symbols
      ensures var sym := Clean(text);
        symbols == if sym == "" || sym in old(symbols) then old(symbols) else old(symbols) + [sym]
      ensures NoRepeats(old(symbols)) ==> NoRepeats(symbols)
      ensures AllClean(old(symbols)) ==> AllClean(symbols)
    {
      var sym := Clean(text);
      CleanIsClean(text);
      if sym != "" && sym !in symbols {
        symbols := symbols + [sym];
      }
    }

    /** Removes the first occurrence, the agent and the report. */
    method RemoveSymbol(text: string)
      modifies this`symbols, this`reports, this`agents
      ensures FirstRemoved(old(symbols), symbols, Clean(text))
      ensures reports == old(reports) - {Clean(text)} && agents == old(agents) - {Clean(text)}
      ensures NoRepeats(old(symbols)) ==> NoRepeats(symbols) && Clean(text) !in symbols
    {
      Forget(Clean(text));
    }

    method Forget(sym: Symbol)
      modifies this`symbols, this`reports, this`agents
      ensures FirstRemoved(old(symbols), symbols, sym)
      ensures reports == old(reports) - {sym} && agents == old(agents) - {sym}
      ensures NoRepeats(old(symbols)) ==> NoRepeats(symbols) && sym !in symbols
    {
      agents := agents - {sym};
      reports := reports - {sym};
      for i := 0 to |symbols|
        invariant symbols == old(symbols) && sym !in symbols[..i]
      {
        if symbols[i] == sym {
          RemovedOnce(symbols, sym, i);
          symbols := symbols[..i] + symbols[i + 1..];
          return;
        }
      }
      assert symbols[..|symbols|] == symbols;
    }

    /** From here on a pick is a symbol that no text means, and the stale symbols are raised ones. */
    method UpdatePriority(texts: seq<string>)
      modifies this`highPriority
      ensures forall x :: x in highPriority <==> Raised(texts, x)
      ensures forall x :: x in Normal(symbols, highPriority) <==> x in symbols && !Raised(texts, x)
      ensures forall x, cutoff ::
        x in StaleSet(reports, highPriority, cutoff) <==> Raised(texts, x) && Stale(reports, x, cutoff)
    {
      highPriority := CollectRaised(texts);
      RaisedSplits(symbols, reports, highPriority, Cleaned(texts));
    }

    static method CollectRaised(texts: seq<string>) returns (raised: set<Symbol>)
      ensures forall x :: x in raised <==> Raised(texts, x)
    {
      raised := {};
      for i := 0 to |texts|
        invariant forall x :: x in raised <==> x in Cleaned(texts[..i])
      {
        assert texts[..i + 1][..i] == texts[..i];
        if texts[i] != "" {
          raised := raised + {Clean(texts[i])};
        }
      }
      assert texts[..|texts|] == texts;
    }

    method NextNormalSymbol() returns (sym: Option<Symbol>)
      modifies this`rotationIndex
      ensures (sym, rotationIndex) == Pick(Normal(symbols, highPriority), old(rotationIndex))
    {
      var normal := [];
      for i := 0 to |symbols|
        invariant rotationIndex == old(rotationIndex) && normal == Normal(symbols[..i], highPriority)
      {
        assert symbols[..i + 1][..i] == symbols[..i];
        if symbols[i] !in highPriority {
          normal := normal + [symbols[i]];
        }
      }
      assert symbols[..|symbols|] == symbols;
      if normal == [] {
        return None;
      }
      rotationIndex := rotationIndex % |normal|;
      sym := Some(normal[rotationIndex]);
      rotationIndex := rotationIndex + 1;
    }

    /** The stale symbols in the order in which the set happens to be iterated. */
    method GetStaleHighPriority(cutoff: real) returns (stale: seq<Symbol>)
      ensures Lists(stale, StaleSet(reports, highPriority, cutoff))
    {
      stale := [];
      var left := highPriority;
      while left != {}
        invariant left <= highPriority
        invariant Lists(stale, StaleSet(reports, highPriority - left, cutoff))
        decreases |left|
      {
        var sym :| sym in left;
        left := left - {sym};
        assert sym !in stale;
        if sym !in reports || reports[sym] < cutoff {
          stale := stale + [sym];
        }
      }
    }

    /** The high-priority half of one scheduler tick; each refresh brings a report of its own time, or fails. */
    method RefreshHighPriority(cutoff: real, outcomes: Outcomes) returns (ghost order: seq<Symbol>)
      requires |outcomes| == 3
      modifies this`reports, this`agents
      ensures Tick(Turn(old(reports), cutoff, order, outcomes[..|FirstThree(order)|], reports), highPriority)
      ensures agents == old(agents) + set x | x in FirstThree(order)
    {
      var stale := GetStaleHighPriority(cutoff);
      order := stale;
      var batch := if |stale| <= 3 then stale else stale[..3];
      ghost var all := outcomes[..|batch|];
      for i := 0 to |batch|
        invariant highPriority == old(highPriority) && agents == old(agents) + set x | x in batch[..i]
        invariant Refreshed(reports, batch[i..], all[i..]) == Refreshed(old(reports), batch, all)
      {
        assert batch[i..][0] == batch[i] && batch[i..][1..] == batch[i + 1..];
        assert all[i..][0] == outcomes[i] && all[i..][1..] == all[i + 1..];
        assert batch[..i + 1] == batch[..i] + [batch[i]];
        agents := agents + {batch[i]};
        if outcomes[i].Some? {
          reports := reports[batch[i] := outcomes[i].value];
        }
      }
      assert batch[..|batch|] == batch;
    }
  }
}
