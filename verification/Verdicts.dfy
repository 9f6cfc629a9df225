/** The compliance verdict of every order of a run, from the orders and the clock alone. */
module Verdicts {
  import opened Prelude
  import opened Compliance

  /** The value of an order passes the limit of 10000, as floating-point numbers compare. */
  predicate ValuePasses(q: Amount, p: Amount) {
    || (q.Number? && p.Number? && q.value * p.value <= 10000.0)
    || (!q.Unreadable? && !p.Unreadable?
        && (q.NaN? || p.NaN? || (q.Infinite? && p == Number(0.0)) || (p.Infinite? && q == Number(0.0))))
    || ((q.Infinite? || p.Infinite?) && ((Above(q) && Below(p)) || (Below(q) && Above(p))))
  }

  predicate Above(a: Amount) { (a.Number? && a.value > 0.0) || a == Infinite(true) }

  predicate Below(a: Amount) { (a.Number? && a.value < 0.0) || a == Infinite(false) }

  /** Nothing in the order itself speaks against it: no blocked symbol, no missing field, no value above the limit. */
  predicate Unobjectionable(o: Order) {
    && o.symbol.Some? && o.symbol.value != "SCAM_TOKEN" && o.symbol.value != "EVIL_CORP"
    && o.side.Some? && o.strategyId.Some? && o.timestamp.Some?
    && o.quantity.Some? && o.price.Some? && ValuePasses(o.quantity.value, o.price.value)
  }

  /** An earlier order of the same symbol and user on the other side, less than a minute before. */
  predicate Opposes(earlier: Call, later: Call) {
    && earlier.order.symbol.Some? && earlier.order.symbol == later.order.symbol
    && earlier.order.user == later.order.user && earlier.order.side.Some? && later.order.side.Some?
    && earlier.order.side.value == (if later.order.side.value == "buy" then "sell" else "buy")
    && later.clock.test - earlier.clock.record < 60.0
  }

  lemma PlainIff(o: Order)
    ensures Plain(o) <==> Unobjectionable(o)
  {
    if Complete(o) { ValueCheckPassesIff(o); }
  }

  /** The verdicts of a guardian that has just been created. */
  function Verdicts(calls: seq<Call>): seq<bool> { TrimmedVerdicts([], calls) }

  // ----- the history of approvals

  lemma {:induction false} VerdictsLength(history: seq<Approval>, calls: seq<Call>)
    ensures |KeptVerdicts(history, calls)| == |calls|
    decreases |calls|
  {
    if calls != [] { VerdictsLength(Kept(history, calls[0].order, calls[0].clock), calls[1..]); }
  }

  /** Each verdict is taken on the approvals before it. */
  lemma {:induction false} VerdictAt(history: seq<Approval>, calls: seq<Call>, i: nat)
    requires i < |calls|
    ensures |KeptVerdicts(history, calls)| == |calls|
    ensures KeptVerdicts(history, calls)[i]
      <==> Approved(FinalHistory(history, calls[..i]), calls[i].order, calls[i].clock)
    decreases |calls|
  {
    VerdictsLength(history, calls);
    if i > 0 {
      VerdictAt(Kept(history, calls[0].order, calls[0].clock), calls[1..], i - 1);
      assert calls[..i][1..] == calls[1..][..i - 1];
    }
  }

  lemma {:induction false} HistoryGrows(history: seq<Approval>, calls: seq<Call>, c: Call)
    ensures FinalHistory(history, calls + [c]) == Kept(FinalHistory(history, calls), c.order, c.clock)
    decreases |calls|
  {
    if calls == [] {
      assert [c][1..] == [];
      assert FinalHistory(Kept(history, c.order, c.clock), []) == Kept(history, c.order, c.clock);
      assert calls + [c] == [c];
    } else {
      HistoryGrows(Kept(history, calls[0].order, calls[0].clock), calls[1..], c);
      assert (calls + [c])[1..] == calls[1..] + [c];
    }
  }

  /** The approval that an approved call leaves. */
  predicate Left(c: Call, a: Approval) {
    && c.order.symbol == Some(a.symbol) && c.order.side == Some(a.side) && c.order.user == a.user
    && c.clock.record == a.time
  }

  /** Call number `j` was approved, and left the approval. */
  ghost predicate LeftBy(calls: seq<Call>, verdicts: seq<bool>, j: int, a: Approval) {
    0 <= j < |calls| && j < |verdicts| && verdicts[j] && Left(calls[j], a)
  }

  /** The history of approvals holds exactly what the approved calls left. */
  lemma {:induction false} HistoryIs(calls: seq<Call>, n: nat, a: Approval)
    requires n <= |calls|
    ensures |KeptVerdicts([], calls)| == |calls|
    ensures a in FinalHistory([], calls[..n]) <==> exists j :: j < n && LeftBy(calls, KeptVerdicts([], calls), j, a)
    decreases n
  {
    var verdicts := KeptVerdicts([], calls);
    VerdictsLength([], calls);
    if n > 0 {
      var c := calls[n - 1];
      var before := FinalHistory([], calls[..n - 1]);
      HistoryIs(calls, n - 1, a);
      HistoryGrows([], calls[..n - 1], c);
      assert calls[..n] == calls[..n - 1] + [c];
      VerdictAt([], calls, n - 1);
      KeptHolds(before, c, a);
      assert a in FinalHistory([], calls[..n]) <==> a in before || LeftBy(calls, verdicts, n - 1, a);
    }
  }

  lemma KeptHolds(history: seq<Approval>, c: Call, a: Approval)
    ensures a in Kept(history, c.order, c.clock)
      <==> a in history || (Approved(history, c.order, c.clock) && Left(c, a))
  {
  }

  lemma ClashIs(a: Approval, earlier: Call, later: Call)
    requires Left(earlier, a) && later.order.symbol.Some? && later.order.side.Some?
    ensures Clashes(a, later.order.symbol.value, later.order.side.value, later.order.user, later.clock.test)
      <==> Opposes(earlier, later)
  {
  }

  // ----- the verdict

  /** An earlier call that was approved opposes call number `i`. */
  ghost predicate OpposedBefore(calls: seq<Call>, verdicts: seq<bool>, i: nat)
    requires i < |calls| == |verdicts|
  {
    exists j :: 0 <= j < i && verdicts[j] && Opposes(calls[j], calls[i])
  }

  lemma WashTradeIff(calls: seq<Call>, i: nat)
    requires i < |calls| == |KeptVerdicts([], calls)|
    requires calls[i].order.symbol.Some? && calls[i].order.side.Some?
    ensures var o := calls[i].order;
      (WashTrade(FinalHistory([], calls[..i]), o.symbol.value, o.side.value, o.user, calls[i].clock.test)
       <==> exists j :: 0 <= j < i && KeptVerdicts([], calls)[j]
              && Plain(calls[j].order) && Opposes(calls[j], calls[i]))
  {
    var o, verdicts, history := calls[i].order, KeptVerdicts([], calls), FinalHistory([], calls[..i]);
    if WashTrade(history, o.symbol.value, o.side.value, o.user, calls[i].clock.test) {
      var k :| 0 <= k < |history| && Clashes(history[k], o.symbol.value, o.side.value, o.user, calls[i].clock.test);
      HistoryIs(calls, i, history[k]);
      var j :| j < i && LeftBy(calls, verdicts, j, history[k]);
      ClashIs(history[k], calls[j], calls[i]);
      VerdictAt([], calls, j);
    }
    if exists j :: 0 <= j < i && verdicts[j] && Plain(calls[j].order) && Opposes(calls[j], calls[i]) {
      var j :| 0 <= j < i && verdicts[j] && Plain(calls[j].order) && Opposes(calls[j], calls[i]);
      var a := ApprovalOf(calls[j].order, calls[j].clock);
      HistoryIs(calls, i, a);
      assert LeftBy(calls, verdicts, j, a);
      ClashIs(a, calls[j], calls[i]);
      var k :| 0 <= k < |history| && history[k] == a;
      assert Clashes(history[k], o.symbol.value, o.side.value, o.user, calls[i].clock.test);
    }
  }

  /**
   Over every run of a new guardian with a clock that does not run backwards: an order is approved if and only if
   nothing in it speaks against it, and no approved order before it opposes it.
   */
  lemma ApprovedIff(calls: seq<Call>, now: real, i: nat)
    requires ClockRuns(calls, now) && i < |calls|
    ensures |Verdicts(calls)| == |calls|
    ensures Verdicts(calls)[i] <==> Unobjectionable(calls[i].order) && !OpposedBefore(calls, Verdicts(calls), i)
  {
    FreshGuardian(calls, now);
    VerdictsLength([], calls);
    VerdictAt([], calls, i);
    PlainIff(calls[i].order);
    if Plain(calls[i].order) {
      WashTradeIff(calls, i);
      forall j | 0 <= j < i && Verdicts(calls)[j] ensures Plain(calls[j].order) { VerdictAt([], calls, j); }
    }
  }

  /** No blocked symbol is ever approved, and none is in the history of approvals of any run. */
  lemma BlockedIsNeverApproved(calls: seq<Call>, now: real, a: Approval)
    requires ClockRuns(calls, now) && a in FinalHistory([], calls)
    ensures a.symbol != "SCAM_TOKEN" && a.symbol != "EVIL_CORP"
  {
    assert calls[..|calls|] == calls;
    HistoryIs(calls, |calls|, a);
    var j :| j < |calls| && LeftBy(calls, KeptVerdicts([], calls), j, a);
    FreshGuardian(calls, now);
    ApprovedIff(calls, now, j);
  }
}
