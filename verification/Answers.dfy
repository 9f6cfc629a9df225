/** What the client shows a strategy, in terms of the market and of the account. */
module Answers {
  import opened Prelude
  import opened Market
  import opened Backtest

  /** The rows of a frame, one a day, oldest first. */
  ghost predicate Chronological(rows: seq<Row>) {
    forall i, j :: 0 <= i < j < |rows| ==> rows[i].date < rows[j].date
  }

  lemma {:induction false} NothingUpTo(rows: seq<Row>, date: Date)
    requires forall i :: 0 <= i < |rows| ==> rows[i].date > date
    ensures UpTo(rows, date) == []
  {
    if rows != [] { NothingUpTo(rows[1..], date); }
  }

  /** The visible rows are the frame up to its last row that is not later, in the frame's order. */
  lemma {:induction false} UpToIsPrefix(rows: seq<Row>, date: Date, k: nat)
    requires Chronological(rows) && k <= |rows|
    requires (forall i :: 0 <= i < k ==> rows[i].date <= date) && (k < |rows| ==> rows[k].date > date)
    ensures UpTo(rows, date) == rows[..k]
  {
    if rows != [] {
      if k == 0 {
        NothingUpTo(rows, date);
      } else {
        UpToIsPrefix(rows[1..], date, k - 1);
        assert rows[..k] == [rows[0]] + rows[1..][..k - 1];
      }
    }
  }

  /** A day's bar is the one of the frame's row of that date. */
  lemma {:induction false} BarOnIs(rows: seq<Row>, date: Date, bar: Bar)
    requires Chronological(rows)
    ensures BarOn(rows, date) == Some(bar) <==> Row(date, bar) in rows
  {
    if rows != [] {
      BarOnIs(rows[1..], date, bar);
      assert rows == [rows[0]] + rows[1..];
      if rows[0].date == date { forall r | r in rows[1..] ensures r.date != date { } }
    }
  }

  /** Asked for `limit` bars, the client shows the `limit` latest of the frame, today's last, or all there are. */
  lemma BarsAreLatest(w: World, s: Sim, sym: Symbol, limit: nat, today: Date, k: nat)
    requires s.date == Some(today) && sym in w.frames && Chronological(w.frames[sym]) && k <= |w.frames[sym]|
    requires forall i :: 0 <= i < k ==> w.frames[sym][i].date <= today
    requires k < |w.frames[sym]| ==> w.frames[sym][k].date > today
    ensures GetBars(w, s, sym, limit) == w.frames[sym][if limit <= k then k - limit else 0..k]
  {
    UpToIsPrefix(w.frames[sym], today, k);
  }

  /** A snapshot is shown of exactly the asked symbols that have a row today, and is that row's bar. */
  lemma SnapshotsAreToday(w: World, s: Sim, symbols: seq<Symbol>, today: Date, sym: Symbol, bar: Bar)
    requires s.date == Some(today) && (sym in w.frames ==> Chronological(w.frames[sym]))
    ensures (sym in GetSnapshots(w, s, symbols) && GetSnapshots(w, s, symbols)[sym] == bar)
      <==> sym in symbols && sym in w.frames && Row(today, bar) in w.frames[sym]
  {
    if sym in w.frames { BarOnIs(w.frames[sym], today, bar); }
  }

  /** The list of positions shows every held symbol once, in key order, with the figures of its position. */
  lemma {:induction false} PositionsAreListed(s: Sim, held: seq<Symbol>)
    requires forall sym :: sym in held ==> sym in s.positions
    ensures var list := ListPositions(s, held);
      |list| == |held|
      && forall i :: 0 <= i < |list| ==>
           && list[i].symbol == held[i]
           && Position(list[i].qty, list[i].avgEntryPrice, list[i].marketValue) == s.positions[held[i]]
           && (list[i].long <==> s.positions[held[i]].qty > 0.0)
  {
    if held != [] {
      assert held[0] in held && forall sym :: sym in held[1..] ==> sym in held;
      PositionsAreListed(s, held[1..]);
    }
  }

  // ----- valuation

  /** The held quantities at the closes of the day, symbols without a bar at nothing. */
  function AtCloses(w: World, held: seq<Symbol>, positions: map<Symbol, Position>, day: Date): real {
    if held == [] then 0.0
    else
      AtCloses(w, held[..|held| - 1], positions, day)
      + var sym, bar := held[|held| - 1], BarOf(w, held[|held| - 1], day);
        if sym in positions && bar.Some? then positions[sym].qty * bar.value.close else 0.0
  }

  lemma {:induction false} PricedAtCloses(w: World, held: seq<Symbol>, positions: map<Symbol, Position>, day: Date)
    ensures PricedValue(held, positions, Closes(w, positions, day)) == AtCloses(w, held, positions, day)
  {
    if held != [] { PricedAtCloses(w, held[..|held| - 1], positions, day); }
  }

  /**
   After a close the portfolio value is the held quantities at the day's closes, equity is cash plus that, every
   position with a bar is valued at its close and the others keep their value; nothing else has changed.
   */
  lemma CloseValues(w: World, s: Sim, day: Date)
    requires HeldAgrees(s.held, s.positions)
    ensures var t := CloseDay(w, s, day);
      && t.portfolioValue == AtCloses(w, s.held, s.positions, day) && t.equity == s.cash + t.portfolioValue
      && t == s.(positions := t.positions, portfolioValue := t.portfolioValue, equity := t.equity)
      && t.positions.Keys == s.positions.Keys
      && forall sym :: sym in s.positions ==>
           var bar := BarOf(w, sym, day);
           t.positions[sym] == if bar.None? then s.positions[sym]
                               else s.positions[sym].(marketValue := s.positions[sym].qty * bar.value.close)
  {
    PricedAtCloses(w, s.held, s.positions, day);
    assert forall sym :: sym in s.positions <==> sym in s.held;
  }

  /** The account that a strategy sees after a close adds up, and is that of the client. */
  lemma AccountIsShown(w: World, s: Sim, day: Date)
    ensures var t := CloseDay(w, s, day); var a := Answer(w, t, AskAccount);
      && a.AccountOf? && a.cash == t.cash && a.trades == t.trades && a.equity == a.cash + a.portfolioValue
      && a.portfolioValue == PricedValue(s.held, s.positions, Closes(w, s.positions, day))
  {
  }

  // ----- orders and the log

  /** An accepted order carries what was asked for, today's date and the next number, at the end of the queue. */
  lemma PlacedAsAsked(w: World, s: Sim, sym: Symbol, qty: real, side: Side, context: Option<Prognosis>, today: Date)
    requires s.date == Some(today)
    ensures var c := PlaceOrder(sym, qty, side, context); var t := Obey(w, s, c);
      && Answer(w, s, c) == Accepted(Some(s.nextId))
      && |t.pending| == |s.pending| + 1 && t.pending[..|s.pending|] == s.pending && t.nextId == s.nextId + 1
      && var o := t.pending[|s.pending|];
         o.symbol == sym && o.qty == qty && o.side == side && o.context == context && o.created == today
         && o.id == s.nextId
  {
  }

  /** Before the first day nothing is accepted, shown or queued. */
  lemma NothingBeforeTheFirstDay(w: World, s: Sim, c: Command)
    requires s.date.None?
    ensures c.PlaceOrder? ==> Obey(w, s, c) == s && Answer(w, s, c) == Accepted(None)
    ensures c.AskBars? ==> Answer(w, s, c) == Bars([])
    ensures c.AskSnapshots? ==> Answer(w, s, c) == Snapshots(map[])
  {
  }

  /**
   The log entry of a fill with a prognosis: the prognosis itself, the return in percent, and the move in percent
   from the close of the day of the fill to the close five trading days later, where there are both.
   */
  lemma PrognosisIsLogged(w: World, index: nat, day: Date, order: PendingOrder, close: real)
    requires order.context.Some?
    ensures var log := PrognosisRows(w, index, day, order, close);
      && |log| == 1 && log[0].date == day && log[0].symbol == order.symbol && log[0].side == order.side
      && log[0].scaled == order.context.value.scaled && log[0].unscaledPct == 100.0 * order.context.value.unscaled
      && log[0].targetDate == (if index + 5 < |w.dates| then Some(w.dates[index + 5]) else None)
      && (log[0].actualPct.Some? <==>
            close != 0.0 && index + 5 < |w.dates| && BarOf(w, order.symbol, w.dates[index + 5]).Some?)
      && (log[0].actualPct.Some? ==>
            log[0].actualPct.value * close
            == 100.0 * (BarOf(w, order.symbol, w.dates[index + 5]).value.close - close))
  {
    if close != 0.0 && index + 5 < |w.dates| && BarOf(w, order.symbol, w.dates[index + 5]).Some? {
      PercentOf(BarOf(w, order.symbol, w.dates[index + 5]).value.close - close, close);
    }
  }

  lemma PercentOf(part: real, whole: real)
    requires whole != 0.0
    ensures part / whole * 100.0 * whole == 100.0 * part
  {
    var share := part / whole;
    assert share * whole == part;
    assert share * 100.0 * whole == 100.0 * (share * whole);
  }

  // ----- the equity curve

  /** A callback adds the day and the account's equity to the curve exactly if the strategy does not raise. */
  lemma {:induction false} CurveIsEquity(w: World, strategy: Strategy, calls: nat, r: Run, day: Date)
    ensures var t := Callback(w, strategy, calls, r, day);
      t.sim.equity == r.sim.equity && t.sim.cash == r.sim.cash && t.sim.positions == r.sim.positions
      && t.daily == r.daily + (if strategy(t.seen).Raise? then [] else [(day, r.sim.equity)])
    decreases calls
  {
    var c := strategy(r.seen);
    if !c.Raise? && calls > 0 && !c.Return? {
      var next := r.(sim := Obey(w, r.sim, c), seen := r.seen + [Answer(w, r.sim, c)]);
      ObeyOnlyQueues(w, r.sim, c);
      CurveIsEquity(w, strategy, calls - 1, next, day);
    }
  }

  /** A curve over the first days of a calendar: each entry is a day with its equity, in order, none twice. */
  ghost predicate CurveOfDays(daily: seq<(Date, real)>, dates: seq<Date>, equities: seq<real>) {
    && |daily| <= |equities| <= |dates|
    && (forall i :: 0 <= i < |daily| ==> exists d :: 0 <= d < |equities| && daily[i] == (dates[d], equities[d]))
    && forall i, j :: 0 <= i < j < |daily| ==> daily[i].0 < daily[j].0
  }

  /** The equities that the strategy finds on the first `k` days. */
  ghost function Equities(w: World, strategy: Strategy, calls: nat, s: Sim, k: nat): seq<real>
    requires k <= |w.dates|
  {
    if k == 0 then []
    else Equities(w, strategy, calls, s, k - 1) + [BeforeCallback(w, strategy, calls, s, k - 1).sim.equity]
  }

  lemma {:induction false} EquitiesLength(w: World, strategy: Strategy, calls: nat, s: Sim, k: nat)
    requires k <= |w.dates|
    ensures |Equities(w, strategy, calls, s, k)| == k
  {
    if k > 0 { EquitiesLength(w, strategy, calls, s, k - 1); }
  }

  lemma DailyBefore(w: World, strategy: Strategy, calls: nat, s: Sim, k: nat)
    requires k < |w.dates|
    ensures BeforeCallback(w, strategy, calls, s, k).daily
         == if k == 0 then [] else AfterCallback(w, strategy, calls, s, k - 1).daily
  {
    if k > 0 { NextDay(w, strategy, calls, s, k - 1); }
  }

  /** The equity curve of every run: days of the calendar in order, each with the equity the strategy found on it. */
  lemma {:induction false} CurveIsOfDays(w: World, strategy: Strategy, calls: nat, s: Sim, k: nat)
    requires k < |w.dates| && Increasing(w.dates)
    ensures CurveOfDays(AfterCallback(w, strategy, calls, s, k).daily, w.dates, Equities(w, strategy, calls, s, k + 1))
    decreases k
  {
    var r := BeforeCallback(w, strategy, calls, s, k);
    var equities := Equities(w, strategy, calls, s, k);
    EquitiesLength(w, strategy, calls, s, k);
    DailyBefore(w, strategy, calls, s, k);
    if k > 0 { CurveIsOfDays(w, strategy, calls, s, k - 1); }
    CurveExtends(r.daily, w.dates, equities, r.sim.equity);
    CurveIsEquity(w, strategy, calls, r.(seen := r.seen + [Today(w.dates[k])]), w.dates[k]);
  }

  lemma CurveExtends(daily: seq<(Date, real)>, dates: seq<Date>, equities: seq<real>, equity: real)
    requires CurveOfDays(daily, dates, equities) && |equities| < |dates| && Increasing(dates)
    ensures CurveOfDays(daily, dates, equities + [equity])
    ensures CurveOfDays(daily + [(dates[|equities|], equity)], dates, equities + [equity])
  {
    var k := |equities|;
    var more, after := daily + [(dates[k], equity)], equities + [equity];
    forall i | 0 <= i < |more| ensures exists d :: 0 <= d < |after| && more[i] == (dates[d], after[d]) {
      if i < |daily| {
        var d :| 0 <= d < k && daily[i] == (dates[d], equities[d]);
        assert more[i] == (dates[d], after[d]);
      } else {
        assert more[i] == (dates[k], after[k]);
      }
    }
    forall i | 0 <= i < |daily| ensures exists d :: 0 <= d < |after| && daily[i] == (dates[d], after[d]) {
      assert more[i] == daily[i];
    }
    forall i, j | 0 <= i < j < |more| ensures more[i].0 < more[j].0 {
      if j == |daily| { var d :| 0 <= d < k && daily[i] == (dates[d], equities[d]); }
    }
  }
}
