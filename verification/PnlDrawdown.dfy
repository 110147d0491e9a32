/** Drawdown figures of a performance summary: in money, and relative to net asset value when a principal is known. */
module PnlDrawdown {
  import opened Prelude
  import opened PnlSweep
  import opened PnlSampling

  /** Net asset value at point `i`: the principal is what the account holds at the last point. */
  ghost function Nav(points: seq<PnlPoint>, principal: real, i: int): real
    requires 0 <= i < |points|
  {
    principal + points[i].totalPnl - points[|points| - 1].totalPnl
  }

  /** The decline from `i` to `j`, relative to net asset value at `i`. */
  ghost function RelativeDecline(points: seq<PnlPoint>, principal: real, i: int, j: int): real
    requires 0 <= i <= j < |points| && Nav(points, principal, i) > 0.0
  {
    Decline(points, i, j) / Nav(points, principal, i)
  }

  /** No point up to `j` is above `i`. */
  ghost predicate PeakAt(points: seq<PnlPoint>, i: int, j: int) {
    0 <= i <= j < |points| && forall k :: 0 <= k <= j ==> points[k].totalPnl <= points[i].totalPnl
  }

  /** The largest relative decline from a running peak, where the peak had value; zero when there is none. */
  ghost predicate IsRatio(points: seq<PnlPoint>, principal: real, m: real) {
    && m >= 0.0
    && (forall i, j :: PeakAt(points, i, j) && Nav(points, principal, i) > 0.0 ==>
          RelativeDecline(points, principal, i, j) <= m)
    && (m == 0.0 || exists i, j :: PeakAt(points, i, j) && Nav(points, principal, i) > 0.0
                                  && RelativeDecline(points, principal, i, j) == m)
  }

  lemma QuotientOrder(a: real, x: real, b: real, y: real)
    requires x > 0.0 && y > 0.0 && a * y <= b * x
    ensures a / x <= b / y
  {
    var p, q := a / x, b / y;
    assert p * x == a && q * y == b;
    assert a * y == p * (x * y) && b * x == q * (x * y);
    ProductOrder(x * y, p, q);
  }

  lemma ProductOrder(z: real, p: real, q: real)
    requires z > 0.0 && p * z <= q * z
    ensures p <= q
  {
    assert (p - q) * z == p * z - q * z;
    if p > q {
      Larger(z, p - q);
      assert false;
    }
  }

  lemma Larger(z: real, d: real)
    requires z > 0.0 && d > 0.0
    ensures d * z > 0.0
  {}

  /** A higher start makes the relative decline to a point of non-negative value larger. */
  lemma HigherIsWorse(low: real, high: real, later: real, base: real)
    requires low <= high && low + base > 0.0 && later + base >= 0.0
    ensures (low - later) / (low + base) <= (high - later) / (high + base)
  {
    ProductSign(high - low, later + base);
    assert (high - later) * (low + base) - (low - later) * (high + base) == (high - low) * (later + base);
    QuotientOrder(low - later, low + base, high - later, high + base);
  }

  lemma {:induction false} PeakExists(points: seq<PnlPoint>, j: nat) returns (i: nat)
    requires j < |points|
    ensures PeakAt(points, i, j)
    decreases j
  {
    i := j;
    if j > 0 {
      var k := PeakExists(points, j - 1);
      i := if points[k].totalPnl >= points[j].totalPnl then k else j;
    }
  }

  /**
   The ratio bounds the relative decline between any two points, whether or not the earlier one is a peak, as long as
   the later one still has a net asset value that is not negative.
   */
  lemma RatioBoundsPairs(points: seq<PnlPoint>, principal: real, m: real, i: nat, j: nat)
    requires IsRatio(points, principal, m) && i <= j < |points|
    requires Nav(points, principal, i) > 0.0 && Nav(points, principal, j) >= 0.0
    ensures RelativeDecline(points, principal, i, j) <= m
  {
    var p := PeakExists(points, j);
    var base := principal - points[|points| - 1].totalPnl;
    HigherIsWorse(points[i].totalPnl, points[p].totalPnl, points[j].totalPnl, base);
    assert Nav(points, principal, p) > 0.0;
    assert RelativeDecline(points, principal, p, j) <= m;
  }

  /** One pass with a running peak. */
  method MaxRatio(points: seq<PnlPoint>, principal: real) returns (maximum: real)
    ensures IsRatio(points, principal, maximum)
  {
    maximum := 0.0;
    if points == [] {
      return;
    }
    var end := points[|points| - 1].totalPnl;
    var peak := points[0].totalPnl;
    ghost var top, from, to := 0, 0, 0;
    var k := 0;
    while k < |points|
      invariant k <= |points| && 0 <= top && (if k == 0 then top == 0 else PeakAt(points, top, k - 1))
      invariant peak == points[top].totalPnl && maximum >= 0.0
      invariant forall i, j :: PeakAt(points, i, j) && j < k && Nav(points, principal, i) > 0.0 ==>
                  RelativeDecline(points, principal, i, j) <= maximum
      invariant maximum == 0.0 || (PeakAt(points, from, to) && Nav(points, principal, from) > 0.0
                                   && RelativeDecline(points, principal, from, to) == maximum)
    {
      if points[k].totalPnl >= peak {
        peak, top := points[k].totalPnl, k;
      }
      assert PeakAt(points, top, k);
      var nav := principal + peak - end;
      if nav > 0.0 {
        var ratio := (peak - points[k].totalPnl) / nav;
        assert ratio == RelativeDecline(points, principal, top, k);
        if ratio > maximum {
          maximum, from, to := ratio, top, k;
        }
      }
      SamePeaks(points, principal, top, k, maximum);
      k := k + 1;
    }
  }

  /** Every peak up to `k` declines alike. */
  lemma SamePeaks(points: seq<PnlPoint>, principal: real, top: nat, k: nat, m: real)
    requires PeakAt(points, top, k)
    requires Nav(points, principal, top) > 0.0 ==> RelativeDecline(points, principal, top, k) <= m
    ensures forall i :: PeakAt(points, i, k) && Nav(points, principal, i) > 0.0 ==>
              RelativeDecline(points, principal, i, k) <= m
  {
    forall i | PeakAt(points, i, k) && Nav(points, principal, i) > 0.0
      ensures RelativeDecline(points, principal, i, k) <= m
    {
      assert points[i].totalPnl == points[top].totalPnl;
    }
  }

  datatype Figures = Figures(maxUsdt: real, maxRatio: Option<real>, currentUsdt: real, currentRatio: Option<real>)

  /** The largest decline over all pairs, and the largest to the last point. */
  ghost predicate IsDrawdown(points: seq<PnlPoint>, maximum: real, current: real) {
    if points == [] then maximum == 0.0 && current == 0.0 else
      && (forall i, j :: 0 <= i <= j < |points| ==> Decline(points, i, j) <= maximum)
      && (exists i, j :: 0 <= i <= j < |points| && Decline(points, i, j) == maximum)
      && (forall i, j :: 0 <= i <= j == |points| - 1 ==> Decline(points, i, j) <= current)
      && (exists i, j :: 0 <= i <= j == |points| - 1 && Decline(points, i, j) == current)
  }

  /** The principal counts only when it is positive. */
  function Usable(principal: Option<real>): Option<real> {
    if principal.Some? && principal.value > 0.0 then principal else None
  }

  /** The drawdown figures of a performance summary, cleaned. */
  method DrawdownFigures(points: seq<PnlPoint>, principal: Option<real>) returns (f: Figures)
    ensures exists maximum, current {:trigger IsDrawdown(points, maximum, current)} ::
              IsDrawdown(points, maximum, current)
              && f.maxUsdt == CleanZero(maximum) && f.currentUsdt == CleanZero(current)
    ensures Usable(principal).None? ==> f.maxRatio.None? && f.currentRatio.None?
    ensures Usable(principal).Some? ==>
              exists m :: IsRatio(points, principal.value, m) && f.maxRatio == Some(CleanZero(m))
    ensures points == [] ==> f.currentRatio.None?
    ensures Usable(principal).Some? ==>
              forall i :: PeakAt(points, i, |points| - 1) ==>
                f.currentRatio == if Nav(points, principal.value, i) <= 0.0 then None
                                  else Some(CleanZero(RelativeDecline(points, principal.value, i, |points| - 1)))
  {
    var maximum, current := Drawdown(points);
    assert IsDrawdown(points, maximum, current);
    var maxRatio: Option<real>, currentRatio: Option<real> := None, None;
    if Usable(principal).Some? {
      var m := MaxRatio(points, principal.value);
      maxRatio := Some(CleanZero(m));
      if points != [] {
        var nav := principal.value + current;
        CurrentIsPeak(points, principal.value, maximum, current);
        if nav > 0.0 {
          currentRatio := Some(CleanZero(current / nav));
        }
      }
    }
    f := Figures(CleanZero(maximum), maxRatio, CleanZero(current), currentRatio);
  }

  /** The current decline is the one from the highest point, whose net asset value is the principal plus it. */
  lemma CurrentIsPeak(points: seq<PnlPoint>, principal: real, maximum: real, current: real)
    requires points != [] && IsDrawdown(points, maximum, current)
    ensures forall i :: PeakAt(points, i, |points| - 1) ==>
              Decline(points, i, |points| - 1) == current && Nav(points, principal, i) == principal + current
  {
    var last := |points| - 1;
    var k, j :| 0 <= k <= j == last && Decline(points, k, j) == current;
    forall i | PeakAt(points, i, last)
      ensures Decline(points, i, last) == current && Nav(points, principal, i) == principal + current
    {
      assert points[k].totalPnl <= points[i].totalPnl;
      assert Decline(points, i, last) <= current;
    }
  }
}
