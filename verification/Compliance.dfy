/** The pre-trade compliance check with its trimmed buffer of recent approvals. */
module Compliance {
  import opened Prelude

  /** A quantity or price as `float` reads it: a number, an infinity, NaN, or text that it refuses. */
  datatype Amount = Number(value: real) | Infinite(positive: bool) | NaN | Unreadable

  datatype Order = Order(symbol: Option<string>, side: Option<string>,
                         quantity: Option<Amount>, price: Option<Amount>,
                         strategyId: Option<string>, timestamp: Option<real>, user: Option<string>)

  function Positive(a: Amount): bool
    requires a.Number? || a.Infinite?
  {
    if a.Number? then a.value > 0.0 else a.positive
  }

  /** The product of two amounts, as floating-point numbers multiply. */
  function Times(a: Amount, b: Amount): Amount {
    if a.Unreadable? || b.Unreadable? then Unreadable
    else if a.NaN? || b.NaN? then NaN
    else if a.Number? && b.Number? then Number(a.value * b.value)
    else if a == Number(0.0) || b == Number(0.0) then NaN
    else Infinite(Positive(a) == Positive(b))
  }

  /** No comparison with NaN holds. */
  predicate Exceeds(a: Amount, limit: real) {
    match a
    case Number(value) => value > limit
    case Infinite(positive) => positive
    case NaN => false
    case Unreadable => false
  }

  /** One approved order, with the time of its approval. */
  datatype Approval = Approval(symbol: string, side: string, time: real, user: Option<string>)

  /** The clock readings of one check: for the wash-trade test, for the record, and for the clean-up. */
  datatype Clock = Clock(test: real, record: real, clean: real)

  const WINDOW := 60.0
  const MAX_ORDER_VALUE := 10000.0
  const RESTRICTED := ["SCAM_TOKEN", "EVIL_CORP"]

  function Opposite(side: string): string { if side == "buy" then "sell" else "buy" }

  /** An approval that makes an order a wash trade at `now`. */
  predicate Clashes(a: Approval, symbol: string, side: string, user: Option<string>, now: real) {
    a.symbol == symbol && a.side == Opposite(side) && a.user == user && now - a.time < WINDOW
  }

  predicate WashTrade(approvals: seq<Approval>, symbol: string, side: string, user: Option<string>, now: real) {
    exists i :: 0 <= i < |approvals| && Clashes(approvals[i], symbol, side, user, now)
  }

  predicate Complete(o: Order) {
    o.symbol.Some? && o.side.Some? && o.quantity.Some? && o.price.Some? && o.strategyId.Some? && o.timestamp.Some?
  }

  predicate WithinLimits(o: Order)
    requires Complete(o)
  {
    var value := Times(o.quantity.value, o.price.value);
    !value.Unreadable? && !Exceeds(value, MAX_ORDER_VALUE)
  }

  /** The rules that do not look at earlier approvals. */
  predicate Plain(o: Order) {
    Complete(o) && o.symbol.value !in RESTRICTED && WithinLimits(o)
  }

  /**
   The value check passes exactly the readable orders of at most the limit, and besides them those whose value
   is minus infinity or not a number: a NaN, or an infinity times zero.
   */
  lemma ValueCheckPassesIff(o: Order)
    requires Complete(o)
    ensures var q, p := o.quantity.value, o.price.value;
      WithinLimits(o) <==>
        || (q.Number? && p.Number? && q.value * p.value <= 10000.0)
        || (!q.Unreadable? && !p.Unreadable?
            && (q.NaN? || p.NaN? || (q.Infinite? && p == Number(0.0)) || (p.Infinite? && q == Number(0.0))))
        || ((q.Infinite? || p.Infinite?) && Times(q, p) == Infinite(false))
  {
  }

  function ApprovalOf(o: Order, c: Clock): Approval
    requires Complete(o)
  {
    Approval(o.symbol.value, o.side.value, c.record, o.user)
  }

  /** Approved: plain, and no clash with an approval in the buffer. */
  predicate Approved(approvals: seq<Approval>, o: Order, c: Clock) {
    Plain(o) && !WashTrade(approvals, o.symbol.value, o.side.value, o.user, c.test)
  }

  function Recent(approvals: seq<Approval>, now: real): seq<Approval> {
    if approvals == [] then []
    else Recent(approvals[..|approvals| - 1], now)
         + if now - approvals[|approvals| - 1].time < WINDOW then [approvals[|approvals| - 1]] else []
  }

  /** The buffer after a check. */
  function Trimmed(buffer: seq<Approval>, o: Order, c: Clock): seq<Approval> {
    if Approved(buffer, o, c) then Recent(buffer + [ApprovalOf(o, c)], c.clean) else buffer
  }

  /** The same without the clean-up: the full history of approvals. */
  function Kept(history: seq<Approval>, o: Order, c: Clock): seq<Approval> {
    if Approved(history, o, c) then history + [ApprovalOf(o, c)] else history
  }

  class ComplianceGuardian {
    var recentTrades: seq<Approval>

    constructor ()
      ensures recentTrades == []
    {
      recentTrades := [];
    }

    method DetectWashTrade(symbol: string, side: string, user: Option<string>, now: real) returns (found: bool)
      ensures found <==> WashTrade(recentTrades, symbol, side, user, now)
    {
      var opposite := if side == "buy" then "sell" else "buy";
      for i := 0 to |recentTrades|
        invariant forall j :: 0 <= j < i ==> !Clashes(recentTrades[j], symbol, side, user, now)
      {
        var trade := recentTrades[i];
        if trade.symbol == symbol && trade.side == opposite && trade.user == user {
          if now - trade.time < WINDOW {
            return true;
          }
        }
      }
      return false;
    }

    method CleanupRecentTrades(now: real)
      modifies this
      ensures recentTrades == Recent(old(recentTrades), now)
    {
      var kept := [];
      for i := 0 to |recentTrades|
        invariant recentTrades == old(recentTrades) && kept == Recent(recentTrades[..i], now)
      {
        assert recentTrades[..i + 1][..i] == recentTrades[..i];
        if now - recentTrades[i].time < WINDOW {
          kept := kept + [recentTrades[i]];
        }
      }
      assert recentTrades[..|recentTrades|] == recentTrades;
      recentTrades := kept;
    }

    method CheckOrder(o: Order, c: Clock) returns (approved: bool)
      modifies this
      ensures approved <==> Approved(old(recentTrades), o, c)
      ensures recentTrades == Trimmed(old(recentTrades), o, c)
    {
      if o.symbol.Some? && o.symbol.value in RESTRICTED {
        return false;
      }
      if !Complete(o) {
        return false;
      }
      var wash := DetectWashTrade(o.symbol.value, o.side.value, o.user, c.test);
      if wash {
        return false;
      }
      if !WithinLimits(o) {
        return false;
      }
      recentTrades := recentTrades + [Approval(o.symbol.value, o.side.value, c.record, o.user)];
      CleanupRecentTrades(c.clean);
      return true;
    }
  }

  // ----- whole runs

  datatype Call = Call(order: Order, clock: Clock)

  predicate ClockRuns(calls: seq<Call>, now: real)
    decreases |calls|
  {
    calls == []
    || (now <= calls[0].clock.test <= calls[0].clock.record <= calls[0].clock.clean
        && ClockRuns(calls[1..], calls[0].clock.clean))
  }

  function TrimmedVerdicts(buffer: seq<Approval>, calls: seq<Call>): seq<bool>
    decreases |calls|
  {
    if calls == [] then []
    else [Approved(buffer, calls[0].order, calls[0].clock)]
         + TrimmedVerdicts(Trimmed(buffer, calls[0].order, calls[0].clock), calls[1..])
  }

  function KeptVerdicts(history: seq<Approval>, calls: seq<Call>): seq<bool>
    decreases |calls|
  {
    if calls == [] then []
    else [Approved(history, calls[0].order, calls[0].clock)]
         + KeptVerdicts(Kept(history, calls[0].order, calls[0].clock), calls[1..])
  }

  function FinalHistory(history: seq<Approval>, calls: seq<Call>): seq<Approval>
    decreases |calls|
  {
    if calls == [] then history else FinalHistory(Kept(history, calls[0].order, calls[0].clock), calls[1..])
  }

  /** The buffer holds nothing but approvals, and all those of the last window. */
  ghost predicate Covers(buffer: seq<Approval>, history: seq<Approval>, now: real) {
    && (forall a :: a in buffer ==> a in history)
    && (forall a :: a in history && now - a.time < WINDOW ==> a in buffer)
  }

  lemma {:induction false} RecentIs(approvals: seq<Approval>, now: real)
    ensures forall a :: a in Recent(approvals, now) <==> a in approvals && now - a.time < WINDOW
  {
    if approvals != [] {
      RecentIs(approvals[..|approvals| - 1], now);
      assert approvals == approvals[..|approvals| - 1] + [approvals[|approvals| - 1]];
    }
  }

  /** A clash needs an approval of the last window, so the buffer shows the same clashes as the history. */
  lemma SameClashes(buffer: seq<Approval>, history: seq<Approval>, now: real, symbol: string, side: string,
                    user: Option<string>, later: real)
    requires Covers(buffer, history, now) && now <= later
    ensures WashTrade(buffer, symbol, side, user, later) <==> WashTrade(history, symbol, side, user, later)
  {
    if WashTrade(buffer, symbol, side, user, later) {
      var i :| 0 <= i < |buffer| && Clashes(buffer[i], symbol, side, user, later);
      assert buffer[i] in history;
      var j :| 0 <= j < |history| && history[j] == buffer[i];
      assert Clashes(history[j], symbol, side, user, later);
    }
    if WashTrade(history, symbol, side, user, later) {
      var i :| 0 <= i < |history| && Clashes(history[i], symbol, side, user, later);
      assert history[i] in buffer;
      var j :| 0 <= j < |buffer| && buffer[j] == history[i];
      assert Clashes(buffer[j], symbol, side, user, later);
    }
  }

  lemma SameVerdict(buffer: seq<Approval>, history: seq<Approval>, now: real, o: Order, c: Clock)
    requires Covers(buffer, history, now) && now <= c.test <= c.record <= c.clean
    ensures Approved(buffer, o, c) == Approved(history, o, c)
    ensures Covers(Trimmed(buffer, o, c), Kept(history, o, c), c.clean)
  {
    if Plain(o) { SameClashes(buffer, history, now, o.symbol.value, o.side.value, o.user, c.test); }
    if Approved(buffer, o, c) { RecentIs(buffer + [ApprovalOf(o, c)], c.clean); }
  }

  /** Trimming the buffer never changes a verdict compared with keeping the full history of approvals. */
  lemma {:induction false} TrimmingIsInvisible(buffer: seq<Approval>, history: seq<Approval>, calls: seq<Call>,
                                               now: real)
    requires Covers(buffer, history, now) && ClockRuns(calls, now)
    ensures TrimmedVerdicts(buffer, calls) == KeptVerdicts(history, calls)
    decreases |calls|
  {
    if calls != [] {
      var o, c := calls[0].order, calls[0].clock;
      SameVerdict(buffer, history, now, o, c);
      TrimmingIsInvisible(Trimmed(buffer, o, c), Kept(history, o, c), calls[1..], c.clean);
    }
  }

  predicate OppositeSides(a: Approval, b: Approval) {
    (a.side == "buy" && b.side == "sell") || (a.side == "sell" && b.side == "buy")
  }

  /** One symbol, one user, opposite sides. */
  predicate Opposed(a: Approval, b: Approval) { a.symbol == b.symbol && a.user == b.user && OppositeSides(a, b) }

  /** Opposed approvals are at least a window apart. */
  ghost predicate FarApart(history: seq<Approval>) {
    forall i, j :: 0 <= i < j < |history| && Opposed(history[i], history[j]) ==>
      history[j].time - history[i].time >= 60.0
  }

  ghost predicate NoWash(history: seq<Approval>, now: real) {
    (forall a :: a in history ==> a.time <= now) && FarApart(history)
  }

  lemma NoWashKept(history: seq<Approval>, now: real, o: Order, c: Clock)
    requires NoWash(history, now) && now <= c.test <= c.record <= c.clean
    ensures NoWash(Kept(history, o, c), c.clean)
  {
    if Approved(history, o, c) {
      var b := ApprovalOf(o, c);
      forall i | 0 <= i < |history| && Opposed(history[i], b)
        ensures b.time - history[i].time >= WINDOW
      {
        assert !Clashes(history[i], b.symbol, b.side, b.user, c.test);
      }
    }
  }

  /**
   Over any run with a clock that does not run backwards, no two approved orders of the same symbol and
   user on opposite sides are less than 60 seconds apart.
   */
  lemma {:induction false} NoWashTrades(history: seq<Approval>, calls: seq<Call>, now: real)
    requires NoWash(history, now) && ClockRuns(calls, now)
    ensures FarApart(FinalHistory(history, calls))
    decreases |calls|
  {
    if calls != [] {
      NoWashKept(history, now, calls[0].order, calls[0].clock);
      NoWashTrades(Kept(history, calls[0].order, calls[0].clock), calls[1..], calls[0].clock.clean);
    }
  }

  /** The start of every run. */
  lemma EmptyStart(now: real)
    ensures Covers([], [], now) && NoWash([], now)
  {
  }

  /** Over every run of a new guardian its verdicts are those of the full history, which holds no wash trade. */
  lemma FreshGuardian(calls: seq<Call>, now: real)
    requires ClockRuns(calls, now)
    ensures TrimmedVerdicts([], calls) == KeptVerdicts([], calls) && FarApart(FinalHistory([], calls))
  {
    EmptyStart(now);
    TrimmingIsInvisible([], [], calls, now);
    NoWashTrades([], calls, now);
  }
}
