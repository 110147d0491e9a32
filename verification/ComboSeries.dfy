/** The finished series of an analysis: every field of a point, and the point appended at the end of the window. */
module ComboSeries {
  import opened Prelude
  import opened MapSum
  import opened ComboFifo
  import opened ComboAccounting

  /** The fields of a series point. */
  datatype Field =
    | RealizedPnl | FundingPnl | InterestCost | GrossPnl
    | TradingFee | FeeAfterPnl | ReferenceTradingFee | ReferenceFeeAfterPnl
    | MarketPnl | ExecutionPnl
    | DirectionGross(direction: ArbDirection)
    | DirectionFeeAfter(direction: ArbDirection)
    | DirectionReferenceFeeAfter(direction: ArbDirection)
    | MatchedNotional | ClosedMatches | DecomposedMatches

  function Value(x: Option<real>, other: Option<real>): real {
    if x.Some? && other.Some? then x.value else 0.0
  }

  function GrossOf(m: Match): real { m.pnl + m.funding - m.interest }

  /** What one closed match adds to a field. */
  function Added(f: Field): Measure {
    (m: Match) =>
      match f
      case RealizedPnl => m.pnl
      case FundingPnl => m.funding
      case InterestCost => m.interest
      case GrossPnl => GrossOf(m)
      case TradingFee => m.tradingFee
      case FeeAfterPnl => GrossOf(m) - m.tradingFee
      case ReferenceTradingFee => m.referenceFee
      case ReferenceFeeAfterPnl => GrossOf(m) - m.referenceFee
      case MarketPnl => Value(m.marketPnl, m.executionPnl)
      case ExecutionPnl => Value(m.executionPnl, m.marketPnl)
      case DirectionGross(d) => if m.openDirection == d then GrossOf(m) else 0.0
      case DirectionFeeAfter(d) => if m.openDirection == d then GrossOf(m) - m.tradingFee else 0.0
      case DirectionReferenceFeeAfter(d) => if m.openDirection == d then GrossOf(m) - m.referenceFee else 0.0
      case MatchedNotional => m.notional
      case ClosedMatches => 1.0
      case DecomposedMatches => if m.marketPnl.Some? && m.executionPnl.Some? then 1.0 else 0.0
  }

  /** Repeats the last point at the end of the window unless it stands there already. */
  function EnsureFinal(points: seq<Point>, endMs: int): seq<Point> {
    if points != [] && points[|points| - 1].ts == endMs then points
    else points + [Point(endMs, if points == [] then 0.0 else points[|points| - 1].value)]
  }

  /** Repeating the last value changes no value. */
  lemma FinalKeepsValue(points: seq<Point>, now: int, value: real, endMs: int, t: int)
    requires EndsBy(points, now, value) && now <= endMs
    ensures ValueAt(EnsureFinal(points, endMs), t) == ValueAt(points, t)
  {
    var r := EnsureFinal(points, endMs);
    assert r == points || r[..|r| - 1] == points;
  }

  function Finished(x: Series, endMs: int): Series {
    x.(points := EnsureFinal(x.points, endMs),
       symbolPoints := map s | s in x.symbolPoints :: EnsureFinal(x.symbolPoints[s], endMs))
  }

  /** The final points leave portfolio and symbols in agreement at every instant. */
  lemma FinishedAgrees(x: Series, startMs: int, now: int, endMs: int, t: int)
    requires Agree(x, startMs, now) && now <= endMs && t >= startMs
    ensures AgreeAt(Finished(x, endMs), t)
  {
    var r := Finished(x, endMs);
    assert AgreeAt(x, t);
    FinalKeepsValue(x.points, now, CleanZero(x.total), endMs, t);
    forall s | s in x.symbolPoints ensures ValueAt(r.symbolPoints[s], t) == ValueAt(x.symbolPoints[s], t) {
      FinalKeepsValue(x.symbolPoints[s], now, x.totals[s], endMs, t);
    }
    SameSum(x.symbolPoints, r.symbolPoints, t);
    hide ValueAt, CleanZero, SumOver, EnsureFinal;
  }

  lemma SameSum(x: map<string, seq<Point>>, y: map<string, seq<Point>>, t: int)
    requires y.Keys == x.Keys && forall s :: s in x ==> ValueAt(y[s], t) == ValueAt(x[s], t)
    ensures SumOver(y, SymbolValueAt(t)) == SumOver(x, SymbolValueAt(t))
  {
    SumAgree(y, x, x.Keys, SymbolValueAt(t));
  }

  ghost predicate ClosedUntil(matches: seq<Match>, endMs: int) {
    forall i :: 0 <= i < |matches| ==> matches[i].closedAtMs <= endMs
  }

  /**
   For every field of a point, at every instant of the window: the finished portfolio series is the cleaned sum of
   the finished symbol series.
   */
  lemma EveryFieldAgrees(startMs: int, endMs: int, selected: set<string>, matches: seq<Match>, f: Field, t: int)
    requires ClosedInOrder(startMs, matches) && ClosedUntil(matches, endMs) && startMs <= t && startMs <= endMs
    ensures AgreeAt(Finished(PushAll(startMs, selected, matches, Added(f)), endMs), t)
  {
    var now := if matches == [] then startMs else matches[|matches| - 1].closedAtMs;
    SeriesAgree(startMs, selected, matches, Added(f));
    hide Agree, AgreeAt, PushAll;
    FinishedAgrees(PushAll(startMs, selected, matches, Added(f)), startMs, now, endMs, t);
  }
}
