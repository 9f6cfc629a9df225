/**
 No look-ahead: what the backtest does up to the fills of a day depends on nothing that the market
 shows later than that day's opening.
 */
module NoLookAhead {
  import opened Prelude
  import opened Market
  import opened Backtest

  /** The worlds agree on the bars before `day`. */
  ghost predicate SamePast(w1: World, w2: World, day: Date) {
    && w1.dates == w2.dates && w1.costs == w2.costs && w1.frames.Keys == w2.frames.Keys
    && forall sym :: sym in w1.frames ==> Before(w1.frames[sym], day) == Before(w2.frames[sym], day)
  }

  /** They also agree on which symbols trade on `day`, and on the opening prices. */
  ghost predicate SameOpens(w1: World, w2: World, day: Date) {
    forall sym {:trigger BarOf(w1, sym, day)} ::
      match (BarOf(w1, sym, day), BarOf(w2, sym, day))
      case (None, None) => true
      case (Some(b1), Some(b2)) => b1.open == b2.open
      case _ => false
  }

  /** The client without its prognosis log. */
  function Core(s: Sim): Sim { s.(prognosisLog := []) }

  ghost predicate SameCore(s1: Sim, s2: Sim) { Core(s1) == Core(s2) }

  lemma BarsAgree(w1: World, w2: World, sym: Symbol, date: Date, day: Date)
    requires SamePast(w1, w2, day) && date < day
    ensures BarOf(w1, sym, date) == BarOf(w2, sym, date)
    ensures sym in w1.frames ==> UpTo(w1.frames[sym], date) == UpTo(w2.frames[sym], date)
  {
    if sym in w1.frames {
      BarFromBefore(w1.frames[sym], date, day);
      BarFromBefore(w2.frames[sym], date, day);
      UpToFromBefore(w1.frames[sym], date, day);
      UpToFromBefore(w2.frames[sym], date, day);
    }
  }

  lemma PastGivesOpens(w1: World, w2: World, date: Date, day: Date)
    requires SamePast(w1, w2, day) && date < day
    ensures SameOpens(w1, w2, date)
  {
    forall sym ensures BarOf(w1, sym, date) == BarOf(w2, sym, date) { BarsAgree(w1, w2, sym, date, day); }
  }

  /** The prognosis log does not flow back into the account. */
  lemma LogStaysOut(w: World, s: Sim, log: seq<LogEntry>, day: Date, order: PendingOrder)
    ensures SameCore(ProcessOrder(w, s, day, order), ProcessOrder(w, s.(prognosisLog := log), day, order))
  {
  }

  /** From one state, worlds that differ behind the open differ only in the log. */
  lemma OnlyTheOpen(w1: World, w2: World, s: Sim, day: Date, order: PendingOrder)
    requires SameOpens(w1, w2, day) && w1.costs == w2.costs
    ensures SameCore(ProcessOrder(w1, s, day, order), ProcessOrder(w2, s, day, order))
  {
    var b := BarOf(w1, order.symbol, day);
  }

  lemma OrderAgrees(w1: World, w2: World, s1: Sim, s2: Sim, day: Date, order: PendingOrder)
    requires SameCore(s1, s2) && SameOpens(w1, w2, day) && w1.costs == w2.costs
    ensures SameCore(ProcessOrder(w1, s1, day, order), ProcessOrder(w2, s2, day, order))
  {
    assert s2 == s1.(prognosisLog := s2.prognosisLog);
    LogStaysOut(w1, s1, s2.prognosisLog, day, order);
    OnlyTheOpen(w1, w2, s2, day, order);
  }

  lemma {:induction false} FillsAgree(w1: World, w2: World, s1: Sim, s2: Sim, day: Date, orders: seq<PendingOrder>)
    requires SameCore(s1, s2) && SameOpens(w1, w2, day) && w1.costs == w2.costs
    ensures SameCore(ProcessAll(w1, s1, day, orders), ProcessAll(w2, s2, day, orders))
    decreases |orders|
  {
    if orders != [] {
      OrderAgrees(w1, w2, s1, s2, day, orders[0]);
      FillsAgree(w1, w2, ProcessOrder(w1, s1, day, orders[0]), ProcessOrder(w2, s2, day, orders[0]), day, orders[1..]);
    }
  }

  lemma CloseAgrees(w1: World, w2: World, s1: Sim, s2: Sim, date: Date, day: Date)
    requires SameCore(s1, s2) && SamePast(w1, w2, day) && date < day
    ensures SameCore(CloseDay(w1, s1, date), CloseDay(w2, s2, date))
  {
    forall sym ensures BarOf(w1, sym, date) == BarOf(w2, sym, date) { BarsAgree(w1, w2, sym, date, day); }
    assert Closes(w1, s1.positions, date) == Closes(w2, s2.positions, date);
    assert s2 == s1.(prognosisLog := s2.prognosisLog);
  }

  lemma {:induction false} CloseEachAgrees(s1: Sim, s2: Sim, symbols: seq<Symbol>)
    requires SameCore(s1, s2)
    ensures SameCore(CloseEach(s1, symbols), CloseEach(s2, symbols))
    decreases |symbols|
  {
    assert s2 == s1.(prognosisLog := s2.prognosisLog);
    if symbols != [] {
      if symbols[0] !in s1.positions {
        CloseEachAgrees(s1, s2, symbols[1..]);
      } else {
        var qty := s1.positions[symbols[0]].qty;
        var side := if qty > 0.0 then Sell else Buy;
        CloseEachAgrees(Submit(s1, symbols[0], Abs(qty), side, None),
                        Submit(s2, symbols[0], Abs(qty), side, None), symbols[1..]);
      }
    }
  }

  lemma {:induction false} ListAgrees(s1: Sim, s2: Sim, held: seq<Symbol>)
    requires SameCore(s1, s2)
    ensures ListPositions(s1, held) == ListPositions(s2, held)
  {
    assert s2 == s1.(prognosisLog := s2.prognosisLog);
    if held != [] { ListAgrees(s1, s2, held[1..]); }
  }

  lemma CallAgrees(w1: World, w2: World, s1: Sim, s2: Sim, c: Command, date: Date, day: Date)
    requires SameCore(s1, s2) && SamePast(w1, w2, day) && s1.date == Some(date) && date < day
    ensures SameCore(Obey(w1, s1, c), Obey(w2, s2, c))
    ensures Answer(w1, s1, c) == Answer(w2, s2, c)
  {
    assert s2 == s1.(prognosisLog := s2.prognosisLog);
    match c
    case AskBars(symbol, limit) => BarsAgree(w1, w2, symbol, date, day);
    case AskSnapshots(symbols) =>
      forall sym ensures BarOf(w1, sym, date) == BarOf(w2, sym, date) { BarsAgree(w1, w2, sym, date, day); }
      assert GetSnapshots(w1, s1, symbols) == GetSnapshots(w2, s2, symbols);
    case AskPositions => ListAgrees(s1, s2, s1.held);
    case CloseAll(cancelOrders) =>
      var t1 := if cancelOrders then CancelAll(s1) else s1;
      var t2 := if cancelOrders then CancelAll(s2) else s2;
      CloseEachAgrees(t1, t2, t1.held);
    case _ =>
  }

  ghost predicate SameRun(r1: Run, r2: Run) {
    SameCore(r1.sim, r2.sim) && r1.seen == r2.seen && r1.daily == r2.daily
  }

  lemma {:induction false} CallbackAgrees(w1: World, w2: World, strategy: Strategy, calls: nat, r1: Run, r2: Run,
                                          date: Date, day: Date)
    requires SameRun(r1, r2) && SamePast(w1, w2, day) && r1.sim.date == Some(date) && date < day
    ensures SameRun(Callback(w1, strategy, calls, r1, date), Callback(w2, strategy, calls, r2, date))
    decreases calls
  {
    var c := strategy(r1.seen);
    assert r2.sim == r1.sim.(prognosisLog := r2.sim.prognosisLog);
    if !c.Raise? && calls > 0 && !c.Return? {
      CallAgrees(w1, w2, r1.sim, r2.sim, c, date, day);
      ObeyOnlyQueues(w1, r1.sim, c);
      CallbackAgrees(w1, w2, strategy, calls - 1,
        r1.(sim := Obey(w1, r1.sim, c), seen := r1.seen + [Answer(w1, r1.sim, c)]),
        r2.(sim := Obey(w2, r2.sim, c), seen := r2.seen + [Answer(w2, r2.sim, c)]), date, day);
    }
  }

  lemma {:induction false} DateAfterFills(w: World, s: Sim, day: Date, orders: seq<PendingOrder>)
    ensures ProcessAll(w, s, day, orders).date == s.date
    decreases |orders|
  {
    if orders != [] { DateAfterFills(w, ProcessOrder(w, s, day, orders[0]), day, orders[1..]); }
  }

  lemma RunDate(w: World, strategy: Strategy, calls: nat, s: Sim, k: nat)
    requires k < |w.dates|
    ensures AfterFills(w, strategy, calls, s, k).sim.date == Some(w.dates[k])
  {
    if k > 0 {
      var sim := AfterCallback(w, strategy, calls, s, k - 1).sim;
      DateAfterFills(w, sim.(index := k, date := Some(w.dates[k]), pending := []), w.dates[k], sim.pending);
    }
  }

  /** From equal fills to equal fills one day later. */
  lemma NextFillsAgree(w1: World, w2: World, strategy: Strategy, calls: nat, s: Sim, k: nat)
    requires k + 1 < |w1.dates| && w1.dates[k] < w1.dates[k + 1]
    requires SamePast(w1, w2, w1.dates[k + 1]) && SameOpens(w1, w2, w1.dates[k + 1])
    requires SameRun(AfterFills(w1, strategy, calls, s, k), AfterFills(w2, strategy, calls, s, k))
    ensures SameRun(AfterFills(w1, strategy, calls, s, k + 1), AfterFills(w2, strategy, calls, s, k + 1))
  {
    var date, day := w1.dates[k], w1.dates[k + 1];
    CallbacksAgree(w1, w2, strategy, calls, s, k, day);
    var c1 := AfterCallback(w1, strategy, calls, s, k);
    var c2 := AfterCallback(w2, strategy, calls, s, k);
    FillsAgree(w1, w2, c1.sim.(index := k + 1, date := Some(day), pending := []),
               c2.sim.(index := k + 1, date := Some(day), pending := []), day, c1.sim.pending);
  }

  lemma CallbacksAgree(w1: World, w2: World, strategy: Strategy, calls: nat, s: Sim, k: nat, day: Date)
    requires k < |w1.dates| && w1.dates[k] < day && SamePast(w1, w2, day)
    requires SameRun(AfterFills(w1, strategy, calls, s, k), AfterFills(w2, strategy, calls, s, k))
    ensures SameRun(AfterCallback(w1, strategy, calls, s, k), AfterCallback(w2, strategy, calls, s, k))
  {
    var date := w1.dates[k];
    var r1 := AfterFills(w1, strategy, calls, s, k);
    var r2 := AfterFills(w2, strategy, calls, s, k);
    RunDate(w1, strategy, calls, s, k);
    CloseAgrees(w1, w2, r1.sim, r2.sim, date, day);
    CallbackAgrees(w1, w2, strategy, calls, BeforeCallback(w1, strategy, calls, s, k).(seen := r1.seen + [Today(date)]),
                   BeforeCallback(w2, strategy, calls, s, k).(seen := r2.seen + [Today(date)]), date, day);
  }

  lemma EarlierSame(w1: World, w2: World, date: Date, day: Date)
    requires SamePast(w1, w2, day) && date < day
    ensures SamePast(w1, w2, date) && SameOpens(w1, w2, date)
  {
    SamePastEarlier(w1, w2, date, day);
    PastGivesOpens(w1, w2, date, day);
  }

  /**
   Two runs of one strategy in two markets that agree before day `k` and on day `k`'s opens have, right
   after day `k`'s fills, the same cash, positions, trades, queue, history and equity curve, and the
   strategy has seen the same.  Only the prognosis log may differ.
   */
  lemma {:induction false} NoLookAhead(w1: World, w2: World, strategy: Strategy, calls: nat, s: Sim, k: nat)
    requires k < |w1.dates| && Increasing(w1.dates)
    requires SamePast(w1, w2, w1.dates[k]) && SameOpens(w1, w2, w1.dates[k])
    ensures SameRun(AfterFills(w1, strategy, calls, s, k), AfterFills(w2, strategy, calls, s, k))
    decreases k
  {
    if k > 0 {
      var j := k - 1;
      EarlierSame(w1, w2, w1.dates[j], w1.dates[k]);
      NoLookAhead(w1, w2, strategy, calls, s, j);
      NextFillsAgree(w1, w2, strategy, calls, s, j);
    }
  }

  lemma {:induction false} BeforeBefore(rows: seq<Row>, date: Date, day: Date)
    requires date <= day
    ensures Before(rows, date) == Before(Before(rows, day), date)
  {
    if rows != [] {
      BeforeBefore(rows[1..], date, day);
      if rows[0].date < day {
        assert Before(rows, day)[1..] == Before(rows[1..], day);
      }
    }
  }

  lemma SamePastEarlier(w1: World, w2: World, date: Date, day: Date)
    requires SamePast(w1, w2, day) && date <= day
    ensures SamePast(w1, w2, date)
  {
    forall sym | sym in w1.frames ensures Before(w1.frames[sym], date) == Before(w2.frames[sym], date) {
      BeforeBefore(w1.frames[sym], date, day);
      BeforeBefore(w2.frames[sym], date, day);
    }
  }

  /** What the strategy does on day `k` depends on nothing after day `k`: the orders it queues are the same. */
  lemma DecisionsAgree(w1: World, w2: World, strategy: Strategy, calls: nat, s: Sim, k: nat, day: Date)
    requires k < |w1.dates| && Increasing(w1.dates) && w1.dates[k] < day
    requires SamePast(w1, w2, day)
    ensures SameRun(AfterCallback(w1, strategy, calls, s, k), AfterCallback(w2, strategy, calls, s, k))
  {
    EarlierSame(w1, w2, w1.dates[k], day);
    NoLookAhead(w1, w2, strategy, calls, s, k);
    CallbacksAgree(w1, w2, strategy, calls, s, k, day);
  }

  /** A market of one symbol that trades on days 1 and 6, and closes at `last` on day 6. */
  function Peek(last: real): World {
    var bar := Bar(Some(1.0), 1.0, 1.0, 1.0, 0.0);
    World(map["A" := [Row(1, bar), Row(6, bar.(close := last))]], [1, 2, 3, 4, 5, 6], Costs(0.0, 0.0))
  }

  lemma PeekBars(last: real)
    ensures Before(Peek(last).frames["A"], 1) == []
    ensures BarOf(Peek(last), "A", 1) == Some(Bar(Some(1.0), 1.0, 1.0, 1.0, 0.0))
    ensures BarOf(Peek(last), "A", 6) == Some(Bar(Some(1.0), 1.0, 1.0, last, 0.0))
  {
    var rows := Peek(last).frames["A"];
    assert rows[1..][1..] == [];
    assert Before(rows[1..], 1) == [];
    assert BarOn(rows[1..], 6) == Some(rows[1].bar);
  }

  lemma PeekLog(last: real)
    ensures var order := PendingOrder(0, "A", 1.0, Buy, 0, Some(Prognosis(0.5, 0.1)));
      ProcessOrder(Peek(last), Fresh(10.0).(index := 0), 1, order).prognosisLog
        == [LogEntry(1, "A", Buy, 0.5, 10.0, Some(6), Some((last - 1.0) * 100.0))]
  {
    PeekBars(last);
    assert FillPrice(Buy, 1.0, 0.0) == 1.0 && Value(1.0, 1.0) + 0.0 <= 10.0;
    assert Peek(last).dates[5] == 6;
    assert (last - 1.0) / 1.0 * 100.0 == (last - 1.0) * 100.0;
  }

  /** The prognosis log does read ahead: an order filled on day 1 logs the close of day 6. */
  lemma PrognosisLogLooksAhead()
    ensures SamePast(Peek(2.0), Peek(3.0), 1) && SameOpens(Peek(2.0), Peek(3.0), 1)
    ensures var s := Fresh(10.0).(index := 0);
            var order := PendingOrder(0, "A", 1.0, Buy, 0, Some(Prognosis(0.5, 0.1)));
            ProcessOrder(Peek(2.0), s, 1, order).prognosisLog != ProcessOrder(Peek(3.0), s, 1, order).prognosisLog
  {
    PeekBars(2.0);
    PeekBars(3.0);
    PeekLog(2.0);
    PeekLog(3.0);
  }
}
