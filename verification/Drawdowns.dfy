/** One-pass maximum drawdown and its duration, against their definitions over all pairs of days. */
module Drawdowns {
  import opened Prelude

  /** Percentage lost from day `i` to day `j`. */
  function Loss(e: seq<real>, i: int, j: int): real
    requires 0 <= i < |e| && 0 <= j < |e| && e[i] != 0.0
  {
    (e[i] - e[j]) / e[i] * 100.0
  }

  /** The largest loss over all pairs of days i <= j with a positive start, and 0 if none is positive. */
  ghost predicate IsMaxLoss(e: seq<real>, dd: real) {
    && 0.0 <= dd
    && (forall i, j :: 0 <= i <= j < |e| && e[i] > 0.0 ==> Loss(e, i, j) <= dd)
    && (dd == 0.0 || exists i, j :: 0 <= i <= j < |e| && e[i] > 0.0 && Loss(e, i, j) == dd)
  }

  /** The first day of the running peak of day `i`. */
  ghost predicate IsPeakDay(e: seq<real>, i: int, p: int) {
    && 0 <= p <= i < |e|
    && (forall j :: 0 <= j <= i ==> e[j] <= e[p])
    && (forall j :: 0 <= j < p ==> e[j] < e[p])
  }

  lemma PeakDayUnique(e: seq<real>, i: int, p: int, q: int)
    requires IsPeakDay(e, i, p) && IsPeakDay(e, i, q)
    ensures p == q
  {
    assert e[p] <= e[q] <= e[p];
  }

  /** The largest distance from a day back to the first day of its running peak, over days with a positive peak. */
  ghost predicate IsMaxDuration(e: seq<real>, d: int) {
    && 0 <= d
    && (forall i, p :: IsPeakDay(e, i, p) && e[p] > 0.0 ==> i - p <= d)
    && (d == 0 || exists i, p :: IsPeakDay(e, i, p) && e[p] > 0.0 && i - p == d)
  }

  lemma LossShare(start: real, end: real)
    requires start > 0.0
    ensures (start - end) / start == 1.0 - end / start
  {
    var share := end / start;
    assert start - end == (1.0 - share) * start;
    QuotientIs(start - end, start, 1.0 - share);
  }

  lemma LossSign(e: seq<real>, i: int, j: int)
    requires 0 <= i <= j < |e| && e[i] > 0.0
    ensures Loss(e, i, j) > 0.0 <==> e[j] < e[i]
  {
    if e[j] < e[i] { assert (e[i] - e[j]) / e[i] > 0.0; } else { DivideUp(e[i], e[i] - e[j], 0.0); }
  }

  /** From a higher start the loss to the same day is larger, as long as that day is not negative. */
  lemma HigherStartLosesMore(low: real, high: real, end: real)
    requires 0.0 < low <= high && 0.0 <= end
    ensures (low - end) / low * 100.0 <= (high - end) / high * 100.0
  {
    LossShare(low, end);
    LossShare(high, end);
    assert end / high <= end / low by {
      assert end / low * high >= end by { ScaleUp(end / low, low, high); assert end / low * low == end; }
      DivideUp(high, end, end / low * high);
      assert end / low * high / high == end / low;
    }
  }

  /** The largest loss of a day against its running peak, over days with a positive peak. */
  ghost predicate IsMaxPeakLoss(e: seq<real>, dd: real) {
    && 0.0 <= dd
    && (forall i, p :: IsPeakDay(e, i, p) && e[p] > 0.0 ==> Loss(e, p, i) <= dd)
    && (dd == 0.0 || exists i, p :: IsPeakDay(e, i, p) && e[p] > 0.0 && Loss(e, p, i) == dd)
  }

  lemma {:induction false} PeakDayExists(e: seq<real>, i: int) returns (p: int)
    requires 0 <= i < |e|
    ensures IsPeakDay(e, i, p)
    decreases i
  {
    p := 0;
    if i > 0 {
      p := PeakDayExists(e, i - 1);
      if e[i] > e[p] { p := i; }
    }
  }

  ghost predicate NonNegative(e: seq<real>) { forall i :: 0 <= i < |e| ==> 0.0 <= e[i] }

  lemma PeakLosesMost(e: seq<real>, i: int, p: int, j: int)
    requires NonNegative(e) && IsPeakDay(e, i, p) && 0 <= j <= i && e[j] > 0.0
    ensures Loss(e, j, i) <= Loss(e, p, i)
  {
    HigherStartLosesMore(e[j], e[p], e[i]);
  }

  /** Without negative equities the running peak is always the worst day to have started from. */
  lemma PeakLossIsMaxLoss(e: seq<real>, dd: real)
    requires NonNegative(e) && IsMaxPeakLoss(e, dd)
    ensures IsMaxLoss(e, dd)
  {
    forall i, j | 0 <= i <= j < |e| && e[i] > 0.0 ensures Loss(e, i, j) <= dd {
      var p := PeakDayExists(e, j);
      PeakLosesMost(e, j, p, i);
    }
  }

  /** The loop of `compute_performance_metrics`: maximum drawdown before rounding, and its duration in days. */
  method DrawdownAndDuration(equities: seq<real>) returns (maxDd: real, duration: int)
    ensures IsMaxPeakLoss(equities, maxDd)
    ensures NonNegative(equities) ==> IsMaxLoss(equities, maxDd)
    ensures IsMaxDuration(equities, duration)
  {
    maxDd, duration := 0.0, 0;
    if equities == [] {
      return;
    }
    var peak := equities[0];
    var start := 0;
    for i := 0 to |equities|
      invariant 0 <= start < |equities| && peak == equities[start] && (i == 0 ==> start == 0)
      invariant i > 0 ==> IsPeakDay(equities, i - 1, start)
      invariant 0.0 <= maxDd && 0 <= duration
      invariant forall k, p :: k < i && IsPeakDay(equities, k, p) && equities[p] > 0.0 ==> Loss(equities, p, k) <= maxDd
      invariant maxDd == 0.0
        || exists k, p :: k < i && IsPeakDay(equities, k, p) && equities[p] > 0.0 && Loss(equities, p, k) == maxDd
      invariant forall k, p :: k < i && IsPeakDay(equities, k, p) && equities[p] > 0.0 ==> k - p <= duration
      invariant duration == 0
        || exists k, p :: k < i && IsPeakDay(equities, k, p) && equities[p] > 0.0 && k - p == duration
    {
      var eq := equities[i];
      if eq > peak {
        peak := eq;
        start := i;
      }
      assert IsPeakDay(equities, i, start);
      forall p | IsPeakDay(equities, i, p) ensures p == start { PeakDayUnique(equities, i, p, start); }
      if peak > 0.0 {
        var ddPct := (peak - eq) / peak * 100.0;
        assert ddPct == Loss(equities, start, i);
        if ddPct > maxDd {
          maxDd := ddPct;
        }
        duration := if i - start > duration then i - start else duration;
      }
    }
    if NonNegative(equities) { PeakLossIsMaxLoss(equities, maxDd); }
  }

  lemma Opposite(peak: real, eq: real)
    requires peak > 0.0
    ensures (eq - peak) / peak * 100.0 == -((peak - eq) / peak * 100.0)
  {
    assert eq - peak == -(peak - eq);
  }

  /** A day's loss is measured against its running peak by both loops. */
  lemma PeakStep(e: seq<real>, i: int, start: int, ddPct: real)
    requires IsPeakDay(e, i, start) && e[start] != 0.0 && ddPct == (e[i] - e[start]) / e[start] * 100.0
    ensures e[start] > 0.0 ==> ddPct == -Loss(e, start, i)
    ensures e[start] < 0.0 ==> ddPct >= 0.0
  {
    if e[start] > 0.0 {
      Opposite(e[start], e[i]);
    } else {
      var share := (e[start] - e[i]) / -e[start];
      assert share * -e[start] == e[start] - e[i];
      DivideUp(-e[start], 0.0, e[start] - e[i]);
      QuotientIs(e[i] - e[start], e[start], share);
    }
  }

  /** Some day's running peak is exactly zero. */
  ghost predicate PeaksAtZero(e: seq<real>) { exists i, p :: IsPeakDay(e, i, p) && e[p] == 0.0 }

  /**
   The loop of the A/B test, with the opposite sign.  It divides by every running peak, and so raises
   (`None`) exactly when one of them is zero.
   */
  method MaxDrawdown(equities: seq<real>) returns (maxDd: Option<real>)
    ensures maxDd.None? <==> PeaksAtZero(equities)
    ensures maxDd.Some? ==> IsMaxPeakLoss(equities, -maxDd.value)
    ensures maxDd.Some? && NonNegative(equities) ==> IsMaxLoss(equities, -maxDd.value)
  {
    var lowest := 0.0;
    if equities == [] {
      return Some(lowest);
    }
    var peak := equities[0];
    ghost var start := 0;
    for i := 0 to |equities|
      invariant 0 <= start < |equities| && peak == equities[start] && (i == 0 ==> start == 0)
      invariant i > 0 ==> IsPeakDay(equities, i - 1, start)
      invariant lowest <= 0.0
      invariant forall k, p :: k < i && IsPeakDay(equities, k, p) ==> equities[p] != 0.0
      invariant forall k, p :: k < i && IsPeakDay(equities, k, p) && equities[p] > 0.0 ==>
        Loss(equities, p, k) <= -lowest
      invariant lowest == 0.0
        || exists k, p :: k < i && IsPeakDay(equities, k, p) && equities[p] > 0.0 && Loss(equities, p, k) == -lowest
    {
      var eq := equities[i];
      if eq > peak {
        peak := eq;
        start := i;
      }
      assert IsPeakDay(equities, i, start);
      forall p | IsPeakDay(equities, i, p) ensures p == start { PeakDayUnique(equities, i, p, start); }
      if peak == 0.0 {
        return None;
      }
      var ddPct := (eq - peak) / peak * 100.0;
      PeakStep(equities, i, start, ddPct);
      if ddPct < lowest {
        lowest := ddPct;
      }
    }
    if NonNegative(equities) { PeakLossIsMaxLoss(equities, -lowest); }
    return Some(lowest);
  }

  /** The value of either loop is unique, so they agree up to the sign on every curve without a zero peak. */
  lemma MaxPeakLossUnique(e: seq<real>, a: real, b: real)
    requires IsMaxPeakLoss(e, a) && IsMaxPeakLoss(e, b)
    ensures a == b
  {
  }

  lemma MaxLossUnique(e: seq<real>, a: real, b: real)
    requires IsMaxLoss(e, a) && IsMaxLoss(e, b)
    ensures a == b
  {
  }

  lemma MaxDurationUnique(e: seq<real>, a: int, b: int)
    requires IsMaxDuration(e, a) && IsMaxDuration(e, b)
    ensures a == b
  {
  }

  /** Some pair of days loses something if and only if the maximum drawdown is positive. */
  lemma DrawdownPositiveIff(e: seq<real>, dd: real)
    requires IsMaxLoss(e, dd)
    ensures dd > 0.0 <==> exists i, j :: 0 <= i <= j < |e| && e[i] > 0.0 && e[j] < e[i]
  {
    if exists i, j :: 0 <= i <= j < |e| && e[i] > 0.0 && e[j] < e[i] {
      var i, j :| 0 <= i <= j < |e| && e[i] > 0.0 && e[j] < e[i];
      LossSign(e, i, j);
    }
    if dd != 0.0 {
      var i, j :| 0 <= i <= j < |e| && e[i] > 0.0 && Loss(e, i, j) == dd;
      LossSign(e, i, j);
    }
  }

  // ----- the duration

  /** Every day is above the day before. */
  ghost predicate AlwaysHigher(e: seq<real>) { forall i :: 0 < i < |e| ==> e[i - 1] < e[i] }

  /** No day is below an earlier one. */
  ghost predicate NeverLower(e: seq<real>) { forall i, j :: 0 <= i <= j < |e| ==> e[i] <= e[j] }

  lemma PeakIsPositive(e: seq<real>, i: int, p: int)
    requires IsPeakDay(e, i, p) && e[0] > 0.0
    ensures e[p] > 0.0
  {
  }

  /** From a positive start the duration is 0 if and only if every day sets a new peak. */
  lemma DurationZeroIff(e: seq<real>, d: int)
    requires e != [] && e[0] > 0.0 && IsMaxDuration(e, d)
    ensures d == 0 <==> AlwaysHigher(e)
  {
    if d == 0 {
      forall i | 0 < i < |e| ensures e[i - 1] < e[i] {
        var p := PeakDayExists(e, i);
        PeakIsPositive(e, i, p);
        assert i - p <= d;
      }
    }
    if d != 0 {
      var i, p :| IsPeakDay(e, i, p) && e[p] > 0.0 && i - p == d;
      assert !(e[p + 1 - 1] < e[p + 1]);
    }
  }

  lemma {:induction false} StepsGiveOrder(e: seq<real>, i: int, j: int)
    requires (forall k :: 0 < k < |e| ==> e[k - 1] <= e[k]) && 0 <= i <= j < |e|
    ensures e[i] <= e[j]
    decreases j - i
  {
    if i < j { StepsGiveOrder(e, i, j - 1); }
  }

  /** The duration is not the time under water: a curve has one without any drawdown exactly when it stands still. */
  lemma DurationWithoutDrawdownIff(e: seq<real>, dd: real, d: int)
    requires e != [] && e[0] > 0.0 && IsMaxLoss(e, dd) && IsMaxDuration(e, d)
    ensures dd == 0.0 && d > 0 <==> NeverLower(e) && exists i :: 0 < i < |e| && e[i] == e[i - 1]
  {
    DurationZeroIff(e, d);
    DrawdownPositiveIff(e, dd);
    if NeverLower(e) && d > 0 {
      var i :| 0 < i < |e| && !(e[i - 1] < e[i]);
      assert e[i - 1] <= e[i];
    }
    if dd == 0.0 { NoLossNeverLower(e); }
  }

  lemma NoLossNeverLower(e: seq<real>)
    requires e != [] && e[0] > 0.0
    requires !exists i, j :: 0 <= i <= j < |e| && e[i] > 0.0 && e[j] < e[i]
    ensures NeverLower(e)
  {
    forall i | 0 <= i < |e| ensures e[i] > 0.0 { assert !(e[i] < e[0]); }
  }

  /** A flat curve has no drawdown, but the duration counts its days: it measures time since the peak was set. */
  lemma FlatCurveHasDuration(e: seq<real>)
    requires |e| > 1 && e[0] > 0.0 && forall i :: 0 <= i < |e| ==> e[i] == e[0]
    ensures IsMaxLoss(e, 0.0) && IsMaxDuration(e, |e| - 1)
  {
    assert IsPeakDay(e, |e| - 1, 0);
    forall i, j | 0 <= i <= j < |e| ensures Loss(e, i, j) == 0.0 { assert (e[0] - e[0]) / e[0] == 0.0; }
  }

  // ----- negative equities

  ghost predicate BoundedBelow(e: seq<real>, x: real) { forall i :: 0 <= i < |e| ==> x <= e[i] }

  /** The one-pass drawdown of the curve is its largest loss. */
  ghost predicate OnePassIsMax(e: seq<real>) { forall dd :: IsMaxPeakLoss(e, dd) ==> IsMaxLoss(e, dd) }

  /** From a peak the loss to `-a` is 150%, from half the peak it is 200%. */
  function Plunge(a: real): seq<real> { [a, 2.0 * a, -a] }

  lemma PlungeBreaksOnePass(a: real)
    requires a > 0.0
    ensures IsMaxPeakLoss(Plunge(a), 150.0) && Loss(Plunge(a), 0, 2) == 200.0 && !OnePassIsMax(Plunge(a))
  {
    var e := Plunge(a);
    assert IsPeakDay(e, 0, 0) && IsPeakDay(e, 1, 1) && IsPeakDay(e, 2, 1);
    forall i, p | IsPeakDay(e, i, p) ensures p == if i == 0 then 0 else 1 {
      PeakDayUnique(e, i, p, if i == 0 then 0 else 1);
    }
    QuotientIs(e[0] - e[0], e[0], 0.0);
    QuotientIs(e[1] - e[1], e[1], 0.0);
    QuotientIs(e[1] - e[2], e[1], 1.5);
    QuotientIs(e[0] - e[2], e[0], 2.0);
    assert Loss(e, 0, 0) == 0.0 && Loss(e, 1, 1) == 0.0 && Loss(e, 1, 2) == 150.0;
    assert IsMaxPeakLoss(e, 150.0);
    assert Loss(e, 0, 2) == 200.0 && !IsMaxLoss(e, 150.0);
  }

  /**
   The one-pass drawdown is the largest loss of every curve that stays at or above a bound if and only if
   the bound is not negative.
   */
  lemma OnePassIsMaxIff(x: real)
    ensures (forall e :: BoundedBelow(e, x) ==> OnePassIsMax(e)) <==> x >= 0.0
  {
    if x >= 0.0 {
      forall e, dd | BoundedBelow(e, x) && IsMaxPeakLoss(e, dd) ensures IsMaxLoss(e, dd) { PeakLossIsMaxLoss(e, dd); }
    } else {
      PlungeBreaksOnePass(-x);
      assert BoundedBelow(Plunge(-x), x);
    }
  }
}
