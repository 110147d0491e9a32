/** What the finished series and the captured notionals show, in the figures of the closed matches. */
module ComboFigures {
  import opened Prelude
  import opened ComboFifo
  import opened ComboAccounting
  import opened ComboSeries

  // ---- Series

  /** What a closed match counts for in each field. */
  function FigureOf(f: Field, m: Match): real {
    match f
    case RealizedPnl => m.pnl
    case FundingPnl => m.funding
    case InterestCost => m.interest
    case GrossPnl => m.pnl + m.funding - m.interest
    case TradingFee => m.tradingFee
    case FeeAfterPnl => m.pnl + m.funding - m.interest - m.tradingFee
    case ReferenceTradingFee => m.referenceFee
    case ReferenceFeeAfterPnl => m.pnl + m.funding - m.interest - m.referenceFee
    case MarketPnl => if m.marketPnl.Some? && m.executionPnl.Some? then m.marketPnl.value else 0.0
    case ExecutionPnl => if m.marketPnl.Some? && m.executionPnl.Some? then m.executionPnl.value else 0.0
    case DirectionGross(d) => if m.openDirection == d then m.pnl + m.funding - m.interest else 0.0
    case DirectionFeeAfter(d) => if m.openDirection == d then m.pnl + m.funding - m.interest - m.tradingFee else 0.0
    case DirectionReferenceFeeAfter(d) =>
      if m.openDirection == d then m.pnl + m.funding - m.interest - m.referenceFee else 0.0
    case MatchedNotional => m.notional
    case ClosedMatches => 1.0
    case DecomposedMatches => if m.marketPnl.Some? && m.executionPnl.Some? then 1.0 else 0.0
  }

  /** The figures of these symbols' matches closed at or before `t`. */
  function SumUpTo(f: Field, matches: seq<Match>, symbols: set<string>, t: int): real
    decreases |matches|
  {
    if matches == [] then 0.0 else
      var m := matches[|matches| - 1];
      SumUpTo(f, matches[..|matches| - 1], symbols, t)
      + (if m.symbol in symbols && m.closedAtMs <= t then FigureOf(f, m) else 0.0)
  }

  lemma AddedIsFigure(f: Field, m: Match)
    ensures Added(f)(m) == FigureOf(f, m)
  {}

  /** Every series shows, at `t`, what was closed by then. */
  ghost predicate Shows(x: Series, f: Field, matches: seq<Match>, selected: set<string>, t: int) {
    && x.symbolPoints.Keys == x.totals.Keys == selected
    && ValueAt(x.points, t) == CleanZero(SumUpTo(f, matches, selected, t))
    && forall s :: s in selected ==> ValueAt(x.symbolPoints[s], t) == SumUpTo(f, matches, {s}, t)
  }

  /** The running totals are those of all matches, which were closed by `now`. */
  ghost predicate Totals(x: Series, f: Field, matches: seq<Match>, selected: set<string>, now: int) {
    && x.symbolPoints.Keys == x.totals.Keys == selected
    && x.total == SumUpTo(f, matches, selected, now)
    && forall s :: s in selected ==> x.totals[s] == SumUpTo(f, matches, {s}, now)
  }

  lemma {:induction false} AllClosed(f: Field, matches: seq<Match>, symbols: set<string>, s: int, t: int)
    requires s <= t && forall i :: 0 <= i < |matches| ==> matches[i].closedAtMs <= s
    ensures SumUpTo(f, matches, symbols, s) == SumUpTo(f, matches, symbols, t)
    decreases |matches|
  {
    if matches != [] {
      AllClosed(f, matches[..|matches| - 1], symbols, s, t);
    }
  }

  lemma SumAppend(f: Field, matches: seq<Match>, m: Match, symbols: set<string>, t: int)
    ensures SumUpTo(f, matches + [m], symbols, t)
            == SumUpTo(f, matches, symbols, t)
               + (if m.symbol in symbols && m.closedAtMs <= t then FigureOf(f, m) else 0.0)
  {
    assert (matches + [m])[..|matches|] == matches;
  }

  lemma PushTotals(x: Series, f: Field, matches: seq<Match>, m: Match, selected: set<string>, now: int)
    requires Totals(x, f, matches, selected, now) && now <= m.closedAtMs
    requires forall i :: 0 <= i < |matches| ==> matches[i].closedAtMs <= now
    ensures Totals(PushMatch(x, m, Added(f)), f, matches + [m], selected, m.closedAtMs)
  {
    var r := PushMatch(x, m, Added(f));
    AddedIsFigure(f, m);
    AllClosed(f, matches, selected, now, m.closedAtMs);
    SumAppend(f, matches, m, selected, m.closedAtMs);
    forall s | s in selected ensures r.totals[s] == SumUpTo(f, matches + [m], {s}, m.closedAtMs) {
      AllClosed(f, matches, {s}, now, m.closedAtMs);
      SumAppend(f, matches, m, {s}, m.closedAtMs);
    }
    hide SumUpTo, FigureOf, PushOrReplace, CleanZero;
  }

  /** One series, pushed or not, against the sum of its figures. */
  lemma SumMoves(
    f: Field, matches: seq<Match>, m: Match, symbols: set<string>, t: int, before: real, total: real, after: real)
    requires forall i :: 0 <= i < |matches| ==> matches[i].closedAtMs <= m.closedAtMs
    requires before == SumUpTo(f, matches, symbols, t) && total == SumUpTo(f, matches + [m], symbols, m.closedAtMs)
    requires m.symbol in symbols && after == if t >= m.closedAtMs then total else before
    ensures after == SumUpTo(f, matches + [m], symbols, t)
  {
    SumAppend(f, matches, m, symbols, t);
    if t >= m.closedAtMs {
      AllClosed(f, matches + [m], symbols, m.closedAtMs, t);
    }
    hide SumUpTo, FigureOf;
  }

  /** What a push shows of the portfolio and of its own symbol. */
  lemma PushedValues(x: Series, m: Match, f: Measure, t: int)
    requires m.symbol in x.totals && m.symbol in x.symbolPoints
    ensures var r := PushMatch(x, m, f);
            && ValueAt(r.points, t) == (if t >= m.closedAtMs then CleanZero(r.total) else ValueAt(x.points, t))
            && ValueAt(r.symbolPoints[m.symbol], t)
               == (if t >= m.closedAtMs then r.totals[m.symbol] else ValueAt(x.symbolPoints[m.symbol], t))
            && (forall s :: s in x.symbolPoints && s != m.symbol ==> r.symbolPoints[s] == x.symbolPoints[s])
            && r.symbolPoints.Keys == x.symbolPoints.Keys && r.totals.Keys == x.totals.Keys
  {
    var r := PushMatch(x, m, f);
    PushedValueAt(x.points, Point(m.closedAtMs, CleanZero(r.total)), t);
    PushedValueAt(x.symbolPoints[m.symbol], Point(m.closedAtMs, r.totals[m.symbol]), t);
    hide PushOrReplace, CleanZero, ValueAt;
  }

  /** A push shows its figure from its own time on. */
  lemma PushShows(x: Series, f: Field, matches: seq<Match>, m: Match, selected: set<string>, t: int)
    requires Shows(x, f, matches, selected, t)
    requires Totals(PushMatch(x, m, Added(f)), f, matches + [m], selected, m.closedAtMs)
    requires forall i :: 0 <= i < |matches| ==> matches[i].closedAtMs <= m.closedAtMs
    ensures Shows(PushMatch(x, m, Added(f)), f, matches + [m], selected, t)
  {
    var r, all := PushMatch(x, m, Added(f)), matches + [m];
    if m.symbol in selected {
      PushedValues(x, m, Added(f), t);
      var before := SumUpTo(f, matches, selected, t);
      SumMoves(f, matches, m, selected, t, before, r.total, if t >= m.closedAtMs then r.total else before);
    } else {
      PushIgnores(x, m, Added(f));
      SumAppend(f, matches, m, selected, t);
    }
    hide PushMatch, SumUpTo, FigureOf, CleanZero, ValueAt, Added;
    forall s | s in selected ensures ValueAt(r.symbolPoints[s], t) == SumUpTo(f, all, {s}, t) {
      var before := SumUpTo(f, matches, {s}, t);
      if s == m.symbol {
        SumMoves(f, matches, m, {s}, t, before, r.totals[s], ValueAt(r.symbolPoints[s], t));
      } else {
        SumAppend(f, matches, m, {s}, t);
      }
    }
  }

  lemma NothingShown(startMs: int, selected: set<string>, f: Field, t: int)
    requires startMs <= t
    ensures Shows(StartSeries(startMs, selected), f, [], selected, t)
    ensures Totals(StartSeries(startMs, selected), f, [], selected, startMs)
  {}

  function LastClosed(startMs: int, matches: seq<Match>): int {
    if matches == [] then startMs else matches[|matches| - 1].closedAtMs
  }

  lemma EarlierInOrder(startMs: int, matches: seq<Match>, m: Match)
    requires ClosedInOrder(startMs, matches + [m])
    ensures ClosedInOrder(startMs, matches) && LastClosed(startMs, matches) <= m.closedAtMs
    ensures forall i :: 0 <= i < |matches| ==> matches[i].closedAtMs <= LastClosed(startMs, matches) <= m.closedAtMs
  {
    var all := matches + [m];
    assert all[|matches|] == m && forall i :: 0 <= i < |matches| ==> all[i] == matches[i];
  }

  lemma PushAllAppend(startMs: int, selected: set<string>, matches: seq<Match>, m: Match, f: Measure)
    ensures PushAll(startMs, selected, matches + [m], f) == PushMatch(PushAll(startMs, selected, matches, f), m, f)
  {
    assert (matches + [m])[..|matches|] == matches;
    hide PushMatch;
  }

  lemma {:induction false} SeriesShow(startMs: int, selected: set<string>, matches: seq<Match>, f: Field, t: int)
    requires ClosedInOrder(startMs, matches) && startMs <= t
    ensures var x := PushAll(startMs, selected, matches, Added(f));
            Shows(x, f, matches, selected, t) && Totals(x, f, matches, selected, LastClosed(startMs, matches))
    decreases |matches|
  {
    if matches == [] {
      NothingShown(startMs, selected, f, t);
    } else {
      var init, m := matches[..|matches| - 1], matches[|matches| - 1];
      assert LastClosed(startMs, matches) == m.closedAtMs;
      InitAndLast(matches);
      hide *;
      EarlierInOrder(startMs, init, m);
      SeriesShow(startMs, selected, init, f, t);
      var x := PushAll(startMs, selected, init, Added(f));
      PushTotals(x, f, init, m, selected, LastClosed(startMs, init));
      PushShows(x, f, init, m, selected, t);
      PushAllAppend(startMs, selected, init, m, Added(f));
    }
  }

  /**
   At every instant of the window and for every field, the finished portfolio series shows the cleaned sum of what the
   selected symbols' matches closed by then count for, and each symbol's series shows the sum of its own.
   */
  lemma FinishedShow(startMs: int, endMs: int, selected: set<string>, matches: seq<Match>, f: Field, t: int)
    requires ClosedInOrder(startMs, matches) && ClosedUntil(matches, endMs) && startMs <= t && startMs <= endMs
    ensures Shows(Finished(PushAll(startMs, selected, matches, Added(f)), endMs), f, matches, selected, t)
  {
    var x := PushAll(startMs, selected, matches, Added(f));
    var now := LastClosed(startMs, matches);
    SeriesShow(startMs, selected, matches, f, t);
    SeriesAgree(startMs, selected, matches, Added(f));
    assert now <= endMs;
    hide PushAll, Added, SumUpTo, ClosedInOrder, ClosedUntil, AgreeAt;
    FinalKeepsValue(x.points, now, CleanZero(x.total), endMs, t);
    forall s | s in selected
      ensures ValueAt(Finished(x, endMs).symbolPoints[s], t) == ValueAt(x.symbolPoints[s], t)
    {
      FinalKeepsValue(x.symbolPoints[s], now, x.totals[s], endMs, t);
    }
    hide ValueAt, CleanZero, EnsureFinal;
  }

  // ---- Captured notionals

  datatype Bucket = Matched | Above | Below | Uncaptured | AboveReference | BelowReference

  /** Which matches belong in a bucket: by what is left after fees, and failing that by what there was before. */
  predicate Belongs(b: Bucket, m: Match) {
    var gross := m.pnl + m.funding - m.interest;
    match b
    case Matched => true
    case Above => gross - m.tradingFee > CLEAN_LIMIT
    case Below => gross - m.tradingFee <= CLEAN_LIMIT < gross
    case Uncaptured => gross - m.tradingFee <= CLEAN_LIMIT && gross <= CLEAN_LIMIT
    case AboveReference => gross - m.referenceFee > CLEAN_LIMIT
    case BelowReference => gross - m.referenceFee <= CLEAN_LIMIT < gross
  }

  function HeldIn(b: Bucket, c: Captured): real {
    match b
    case Matched => c.notional
    case Above => c.above
    case Below => c.below
    case Uncaptured => c.uncaptured
    case AboveReference => c.aboveReference
    case BelowReference => c.belowReference
  }

  function NotionalIn(b: Bucket, matches: seq<Match>): real
    decreases |matches|
  {
    if matches == [] then 0.0 else
      var m := matches[|matches| - 1];
      NotionalIn(b, matches[..|matches| - 1]) + (if Belongs(b, m) then m.notional else 0.0)
  }

  lemma RecordHolds(b: Bucket, c: Captured, m: Match)
    ensures HeldIn(b, Record(c, m)) == HeldIn(b, c) + (if Belongs(b, m) then m.notional else 0.0)
  {}

  /** Each bucket holds the notional of the matches that belong in it. */
  lemma {:induction false} BucketsHold(b: Bucket, matches: seq<Match>)
    ensures HeldIn(b, RecordAll(matches)) == NotionalIn(b, matches)
    decreases |matches|
  {
    if matches != [] {
      BucketsHold(b, matches[..|matches| - 1]);
      RecordHolds(b, RecordAll(matches[..|matches| - 1]), matches[|matches| - 1]);
      hide Record, Belongs, HeldIn;
    }
  }
}
