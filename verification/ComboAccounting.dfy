/** What the closed matches add up to: PnL decomposition, captured notionals, and the sampled series. */
module ComboAccounting {
  import opened Prelude
  import opened MapSum
  import opened ComboFifo

  // ---- Market and execution PnL

  /** Every lot stands in the queue of its own direction. */
  ghost predicate Sided(lots: seq<OpenLot>, d: ArbDirection) {
    forall i :: 0 <= i < |lots| ==> lots[i].direction == d
  }

  ghost predicate StateSided(s: Lots) { Sided(s.positive, Positive) && Sided(s.reverse, Reverse) }

  ghost predicate StatesSided(states: States) { forall k :: k in states ==> StateSided(states[k]) }

  /** Market plus execution PnL is realized PnL whenever both are known, and they are known together. */
  ghost predicate Decomposed(m: Match) {
    && (m.marketPnl.Some? <==> m.executionPnl.Some?)
    && (m.marketPnl.Some? ==> m.marketPnl.value + m.executionPnl.value == m.pnl)
  }

  ghost predicate AllDecomposed(matches: seq<Match>) { forall i :: 0 <= i < |matches| ==> Decomposed(matches[i]) }

  lemma Telescope(x: real, y: real, entryBasis: real, exitBasis: real, entryMarket: real, exitMarket: real)
    requires y == -x
    ensures x * (entryMarket - exitMarket) + (x * (entryBasis - entryMarket) + y * (exitBasis - exitMarket))
            == x * (entryBasis - exitBasis)
  {
    assert y * (exitBasis - exitMarket) == -(x * (exitBasis - exitMarket));
  }

  lemma MatchDecomposed(open: OpenLot, order: Order, quantity: real, rates: Rates)
    requires quantity + QUANTITY_EPSILON < open.remaining ==> open.remaining != 0.0
    requires open.direction != order.direction
    ensures Decomposed(MatchOf(open, order, quantity, rates))
  {
    var entry, exit := MarketBasis(open.spotPrice, open.premium), MarketBasis(order.spotPrice, order.premium);
    if entry.Some? && exit.Some? {
      var x, y := quantity * open.direction.Sign(), quantity * order.direction.Sign();
      assert y == -x;
      Telescope(x, y, Basis(open.spotPrice, open.futuresPrice), Basis(order.spotPrice, order.futuresPrice),
                entry.value, exit.value);
    }
  }

  lemma {:induction false} CloseLoopDecomposes(k: Closing, order: Order, rates: Rates, d: ArbDirection)
    requires Sided(k.lots, d) && order.direction != d && AllDecomposed(k.matches)
    ensures Sided(CloseLoop(k, order, rates).lots, d) && AllDecomposed(CloseLoop(k, order, rates).matches)
    decreases |k.lots|, k.remaining > QUANTITY_EPSILON
  {
    if k.remaining > QUANTITY_EPSILON && k.lots != [] {
      MatchDecomposed(k.lots[0], order, Min(k.remaining, k.lots[0].remaining), rates);
      var n := CloseStep(k, order, rates);
      assert Sided(n.lots, d) && AllDecomposed(n.matches);
      CloseLoopDecomposes(n, order, rates, d);
    }
  }

  lemma {:induction false} AllocationKeepsSides(lots: seq<OpenLot>, share: real -> real, d: ArbDirection)
    requires Sided(lots, d)
    ensures Sided(AddFunding(lots, share), d) && Sided(AddInterest(lots, share), d)
    decreases |lots|
  {
    if lots != [] {
      AllocationKeepsSides(lots[1..], share, d);
    }
  }

  lemma StepKeepsSides(a: Analysis, ev: CarryEvent, rates: Rates)
    requires StatesSided(a.states) && AllDecomposed(a.matches)
    ensures StatesSided(Step(a, ev, rates).states) && AllDecomposed(Step(a, ev, rates).matches)
  {
    match ev
    case OrderEvent(o) =>
      if o.symbol in a.states {
        var s := a.states[o.symbol];
        var d := if o.direction == Positive then Reverse else Positive;
        CloseLoopDecomposes(Closing(if o.direction == Positive then s.reverse else s.positive, o.quantity, []),
                            o, rates, d);
      }
    case FundingEvent(symbol, amount) =>
      if TakesFunding(a.states, symbol) {
        var share := Share(amount, OpenFutures(a.states[symbol]));
        AllocationKeepsSides(a.states[symbol].positive, share, Positive);
        AllocationKeepsSides(a.states[symbol].reverse, share, Reverse);
      }
    case InterestEvent(scope, cost) =>
      if TakesInterest(a.states, scope, cost) {
        var share := Share(cost.value, InterestBase(a.states, scope));
        forall k | k in a.states
          ensures Sided(AddInterest(a.states[k].positive, share), Positive)
          ensures Sided(AddInterest(a.states[k].reverse, share), Reverse)
        {
          AllocationKeepsSides(a.states[k].positive, share, Positive);
          AllocationKeepsSides(a.states[k].reverse, share, Reverse);
        }
      }
  }

  /** Over any run from an empty book every closed match decomposes exactly. */
  lemma {:induction false} RunDecomposes(a: Analysis, events: seq<CarryEvent>, rates: Rates)
    requires StatesSided(a.states) && AllDecomposed(a.matches)
    ensures StatesSided(Run(a, events, rates).states) && AllDecomposed(Run(a, events, rates).matches)
    decreases |events|
  {
    if events != [] {
      RunDecomposes(a, events[..|events| - 1], rates);
      StepKeepsSides(Run(a, events[..|events| - 1], rates), events[|events| - 1], rates);
    }
  }

  // ---- Captured notionals

  /** The cleaned figures of a match that the accumulator looks at. */
  function Gross(m: Match): real { CleanZero(m.pnl + m.funding - m.interest) }

  function FeeAfter(m: Match): real { CleanZero(m.pnl + m.funding - m.interest - m.tradingFee) }

  function ReferenceFeeAfter(m: Match): real { CleanZero(m.pnl + m.funding - m.interest - m.referenceFee) }

  datatype Captured = Captured(
    notional: real, above: real, below: real, uncaptured: real, aboveReference: real, belowReference: real)

  const NOTHING_CAPTURED := Captured(0.0, 0.0, 0.0, 0.0, 0.0, 0.0)

  function Record(c: Captured, m: Match): Captured {
    var c1 := c.(notional := c.notional + m.notional);
    var c2 := if FeeAfter(m) > 0.0 then c1.(above := c1.above + m.notional)
              else if Gross(m) > 0.0 then c1.(below := c1.below + m.notional)
              else c1.(uncaptured := c1.uncaptured + m.notional);
    if ReferenceFeeAfter(m) > 0.0 then c2.(aboveReference := c2.aboveReference + m.notional)
    else if Gross(m) > 0.0 then c2.(belowReference := c2.belowReference + m.notional)
    else c2
  }

  function RecordAll(matches: seq<Match>): Captured
    decreases |matches|
  {
    if matches == [] then NOTHING_CAPTURED
    else Record(RecordAll(matches[..|matches| - 1]), matches[|matches| - 1])
  }

  /** Above-fee, below-fee and uncaptured notionals are the matched notional. */
  lemma {:induction false} CapturedAddsUp(matches: seq<Match>)
    ensures var c := RecordAll(matches); c.above + c.below + c.uncaptured == c.notional
    decreases |matches|
  {
    if matches != [] {
      CapturedAddsUp(matches[..|matches| - 1]);
    }
  }

  /** A match without gross profit that the two fee schedules judge differently. */
  predicate Disagrees(m: Match) {
    Gross(m) <= 0.0 && (FeeAfter(m) > 0.0 <==> ReferenceFeeAfter(m) <= 0.0)
  }

  /** By how much one match makes the reference split miss its notional. */
  function ReferenceGap(m: Match): real {
    if !Disagrees(m) then 0.0 else if ReferenceFeeAfter(m) > 0.0 then m.notional else -m.notional
  }

  function ReferenceGaps(matches: seq<Match>): real
    decreases |matches|
  {
    if matches == [] then 0.0 else ReferenceGaps(matches[..|matches| - 1]) + ReferenceGap(matches[|matches| - 1])
  }

  /**
   The reference-fee split shares the uncaptured bucket of the actual-fee split, so it adds up exactly when
   the loss-making matches on which the two schedules disagree cancel out.
   */
  lemma {:induction false} ReferenceSplitAddsUpIff(matches: seq<Match>)
    ensures var c := RecordAll(matches);
            c.aboveReference + c.belowReference + c.uncaptured == c.notional + ReferenceGaps(matches)
    ensures var c := RecordAll(matches);
            c.aboveReference + c.belowReference + c.uncaptured == c.notional <==> ReferenceGaps(matches) == 0.0
    decreases |matches|
  {
    if matches != [] {
      ReferenceSplitAddsUpIff(matches[..|matches| - 1]);
    }
  }

  // ---- Portfolio and symbol series

  /** A series point, projected to one additive measure. */
  datatype Point = Point(ts: int, value: real)

  type Measure = Match -> real

  function PushOrReplace(points: seq<Point>, p: Point): seq<Point> {
    if points != [] && points[|points| - 1].ts == p.ts then points[..|points| - 1] + [p] else points + [p]
  }

  /** Running totals and the series they are written to. */
  datatype Series = Series(
    total: real, points: seq<Point>, totals: map<string, real>, symbolPoints: map<string, seq<Point>>)

  function StartSeries(startMs: int, selected: set<string>): Series {
    Series(0.0, [Point(startMs, 0.0)], map s | s in selected :: 0.0, map s | s in selected :: [Point(startMs, 0.0)])
  }

  /** The portfolio point is cleaned, the symbol point is the running total itself. */
  function PushMatch(x: Series, m: Match, f: Measure): Series {
    if m.symbol !in x.totals || m.symbol !in x.symbolPoints then x else
      var total := x.total + f(m);
      var own := x.totals[m.symbol] + f(m);
      Series(total, PushOrReplace(x.points, Point(m.closedAtMs, CleanZero(total))),
             x.totals[m.symbol := own],
             x.symbolPoints[m.symbol := PushOrReplace(x.symbolPoints[m.symbol], Point(m.closedAtMs, own))])
  }

  function PushAll(startMs: int, selected: set<string>, matches: seq<Match>, f: Measure): Series
    decreases |matches|
  {
    if matches == [] then StartSeries(startMs, selected)
    else PushMatch(PushAll(startMs, selected, matches[..|matches| - 1], f), matches[|matches| - 1], f)
  }

  /** The value of a series at `t`: its last point at or before `t`. */
  function ValueAt(points: seq<Point>, t: int): real
    decreases |points|
  {
    if points == [] then 0.0
    else if points[|points| - 1].ts <= t then points[|points| - 1].value
    else ValueAt(points[..|points| - 1], t)
  }

  function SymbolValueAt(t: int): seq<Point> -> real { (points: seq<Point>) => ValueAt(points, t) }

  function Same(): real -> real { (x: real) => x }

  lemma PushedValueAt(points: seq<Point>, p: Point, t: int)
    ensures t >= p.ts ==> ValueAt(PushOrReplace(points, p), t) == p.value
    ensures t < p.ts ==> ValueAt(PushOrReplace(points, p), t) == ValueAt(points, t)
  {
    var r := PushOrReplace(points, p);
    assert r[|r| - 1] == p;
    assert r[..|r| - 1] == points || (points != [] && r[..|r| - 1] == points[..|points| - 1]);
  }

  ghost predicate EndsBy(points: seq<Point>, now: int, value: real) {
    points != [] && points[|points| - 1] == Point(points[|points| - 1].ts, value) && points[|points| - 1].ts <= now
  }

  /** Both series agree at every instant up to now, and end on the current totals. */
  ghost predicate Agree(x: Series, startMs: int, now: int) {
    && x.totals.Keys == x.symbolPoints.Keys
    && x.total == SumOver(x.totals, Same())
    && EndsBy(x.points, now, CleanZero(x.total))
    && (forall s :: s in x.totals ==> EndsBy(x.symbolPoints[s], now, x.totals[s]))
    && (forall t :: t >= startMs ==> AgreeAt(x, t))
  }

  ghost predicate AgreeAt(x: Series, t: int) {
    ValueAt(x.points, t) == CleanZero(SumOver(x.symbolPoints, SymbolValueAt(t)))
  }

  /** At or after the last point every series shows its running total. */
  lemma ShowsTotals(x: Series, now: int, t: int)
    requires x.totals.Keys == x.symbolPoints.Keys && x.total == SumOver(x.totals, Same()) && t >= now
    requires forall s :: s in x.totals ==> EndsBy(x.symbolPoints[s], now, x.totals[s])
    ensures SumOver(x.symbolPoints, SymbolValueAt(t)) == x.total
  {
    SumSame(x.symbolPoints, x.totals, x.totals.Keys, t);
  }

  lemma {:induction false} SumSame(
    series: map<string, seq<Point>>, totals: map<string, real>, keys: set<string>, t: int)
    requires keys <= series.Keys && keys <= totals.Keys
    requires forall s :: s in keys ==> ValueAt(series[s], t) == totals[s]
    ensures SumKeys(series, keys, SymbolValueAt(t)) == SumKeys(totals, keys, Same())
    decreases |keys|
  {
    if keys != {} {
      var k :| k in keys;
      SumSplit(series, keys, SymbolValueAt(t), k);
      SumSplit(totals, keys, Same(), k);
      SumSame(series, totals, keys - {k}, t);
    }
  }

  lemma StartAgrees(startMs: int, selected: set<string>)
    ensures Agree(StartSeries(startMs, selected), startMs, startMs)
  {
    var x := StartSeries(startMs, selected);
    SumZero(x.totals, x.totals.Keys);
    forall t | t >= startMs ensures AgreeAt(x, t) {
      ShowsTotals(x, startMs, t);
    }
  }

  lemma {:induction false} SumZero(totals: map<string, real>, keys: set<string>)
    requires keys <= totals.Keys && forall s :: s in keys ==> totals[s] == 0.0
    ensures SumKeys(totals, keys, Same()) == 0.0
    decreases |keys|
  {
    if keys != {} {
      var k :| k in keys;
      SumSplit(totals, keys, Same(), k);
      SumZero(totals, keys - {k});
    }
  }

  /** A push moves nothing before its own time. */
  lemma PushKeepsPast(x: Series, m: Match, f: Measure, t: int)
    requires m.symbol in x.totals && m.symbol in x.symbolPoints && AgreeAt(x, t) && t < m.closedAtMs
    ensures AgreeAt(PushMatch(x, m, f), t)
  {
    var p := Point(m.closedAtMs, x.totals[m.symbol] + f(m));
    PushedValueAt(x.points, Point(m.closedAtMs, CleanZero(x.total + f(m))), t);
    PushedValueAt(x.symbolPoints[m.symbol], p, t);
    SumUpdate(x.symbolPoints, m.symbol, PushOrReplace(x.symbolPoints[m.symbol], p), SymbolValueAt(t));
    hide ValueAt, PushOrReplace, CleanZero, SumOver;
  }

  lemma PushedEndsBy(points: seq<Point>, p: Point)
    ensures EndsBy(PushOrReplace(points, p), p.ts, p.value)
  {}

  /** After a push the totals still add up and every series ends on its total. */
  lemma PushKeepsTotals(x: Series, startMs: int, now: int, m: Match, f: Measure)
    requires Agree(x, startMs, now) && now <= m.closedAtMs && m.symbol in x.totals
    ensures var r := PushMatch(x, m, f);
            && r.totals.Keys == r.symbolPoints.Keys && r.total == SumOver(r.totals, Same())
            && EndsBy(r.points, m.closedAtMs, CleanZero(r.total))
            && (forall s :: s in r.totals ==> EndsBy(r.symbolPoints[s], m.closedAtMs, r.totals[s]))
  {
    var own := x.totals[m.symbol] + f(m);
    SumUpdate(x.totals, m.symbol, own, Same());
    PushedEndsBy(x.points, Point(m.closedAtMs, CleanZero(x.total + f(m))));
    PushedEndsBy(x.symbolPoints[m.symbol], Point(m.closedAtMs, own));
    hide PushOrReplace, CleanZero, SumOver, AgreeAt;
  }

  lemma PushAgrees(x: Series, startMs: int, now: int, m: Match, f: Measure)
    requires Agree(x, startMs, now) && now <= m.closedAtMs
    ensures Agree(PushMatch(x, m, f), startMs, m.closedAtMs)
  {
    hide PushMatch, SumOver, CleanZero;
    if m.symbol in x.totals {
      var r := PushMatch(x, m, f);
      PushKeepsTotals(x, startMs, now, m, f);
      forall t | t >= startMs ensures AgreeAt(r, t) {
        if t >= m.closedAtMs {
          ShowsTotals(r, m.closedAtMs, t);
          LastValue(r.points, m.closedAtMs, CleanZero(r.total), t);
        } else {
          assert AgreeAt(x, t);
          PushKeepsPast(x, m, f, t);
        }
      }
    } else {
      PushIgnores(x, m, f);
    }
  }

  lemma LastValue(points: seq<Point>, now: int, value: real, t: int)
    requires EndsBy(points, now, value) && now <= t
    ensures ValueAt(points, t) == value
  {}

  lemma PushIgnores(x: Series, m: Match, f: Measure)
    requires m.symbol !in x.totals
    ensures PushMatch(x, m, f) == x
  {}

  ghost predicate ClosedInOrder(startMs: int, matches: seq<Match>) {
    (forall i :: 0 <= i < |matches| ==> startMs <= matches[i].closedAtMs)
    && (forall i, j :: 0 <= i < j < |matches| ==> matches[i].closedAtMs <= matches[j].closedAtMs)
  }

  /**
   At every instant of the window the portfolio series is the cleaned sum of the forward-filled symbol series,
   in every additive measure.
   */
  lemma {:induction false} SeriesAgree(startMs: int, selected: set<string>, matches: seq<Match>, f: Measure)
    requires ClosedInOrder(startMs, matches)
    ensures Agree(PushAll(startMs, selected, matches, f), startMs,
                  if matches == [] then startMs else matches[|matches| - 1].closedAtMs)
    decreases |matches|
  {
    if matches == [] {
      StartAgrees(startMs, selected);
    } else {
      var init := matches[..|matches| - 1];
      SeriesAgree(startMs, selected, init, f);
      PushAgrees(PushAll(startMs, selected, init, f), startMs,
                 if init == [] then startMs else init[|init| - 1].closedAtMs, matches[|matches| - 1], f);
    }
  }

  // ---- Matches close in order when orders come in order

  ghost predicate OrdersByTime(startMs: int, events: seq<CarryEvent>) {
    (forall i :: 0 <= i < |events| && events[i].OrderEvent? ==> startMs <= events[i].order.completedAtMs)
    && (forall i, j :: 0 <= i < j < |events| && events[i].OrderEvent? && events[j].OrderEvent? ==>
          events[i].order.completedAtMs <= events[j].order.completedAtMs)
  }

  ghost predicate NoneLater(events: seq<CarryEvent>, now: int) {
    forall i :: 0 <= i < |events| && events[i].OrderEvent? ==> events[i].order.completedAtMs <= now
  }

  ghost predicate ClosedBy(matches: seq<Match>, now: int) {
    forall i :: 0 <= i < |matches| ==> matches[i].closedAtMs <= now
  }

  /** The matches already made stay, and those added close with the order. */
  ghost predicate ClosesWith(before: seq<Match>, after: seq<Match>, now: int) {
    && |after| >= |before| && after[..|before|] == before
    && forall i :: |before| <= i < |after| ==> after[i].closedAtMs == now
  }

  lemma ClosesWithChain(x: seq<Match>, m: Match, z: seq<Match>, now: int)
    requires m.closedAtMs == now && ClosesWith(x + [m], z, now)
    ensures ClosesWith(x, z, now)
  {
    assert z[|x|] == (x + [m])[|x|];
    assert z[..|x|] == (x + [m])[..|x|];
  }

  lemma {:induction false} CloseLoopCloses(k: Closing, order: Order, rates: Rates)
    ensures ClosesWith(k.matches, CloseLoop(k, order, rates).matches, order.completedAtMs)
    decreases |k.lots|, k.remaining > QUANTITY_EPSILON
  {
    hide MatchOf;
    if k.remaining > QUANTITY_EPSILON && k.lots != [] {
      var n := CloseStep(k, order, rates);
      CloseLoopCloses(n, order, rates);
      MatchCloses(k.lots[0], order, Min(k.remaining, k.lots[0].remaining), rates);
      hide ClosesWith, CloseLoop;
      ClosesWithChain(k.matches, MatchOf(k.lots[0], order, Min(k.remaining, k.lots[0].remaining), rates),
                      CloseLoop(n, order, rates).matches, order.completedAtMs);
    }
  }

  lemma MatchCloses(open: OpenLot, order: Order, quantity: real, rates: Rates)
    requires quantity + QUANTITY_EPSILON < open.remaining ==> open.remaining != 0.0
    ensures MatchOf(open, order, quantity, rates).closedAtMs == order.completedAtMs
  {}

  lemma StepCloses(a: Analysis, ev: CarryEvent, rates: Rates)
    ensures var r := Step(a, ev, rates);
            r.matches == a.matches
            || (ev.OrderEvent? && exists made :: r.matches == a.matches + made
                                    && ClosedAt(made, ev.order.completedAtMs))
  {
    if ev.OrderEvent? && ev.order.symbol in a.states {
      var o := ev.order;
      var s := a.states[o.symbol];
      var k := Closing(if o.direction == Positive then s.reverse else s.positive, o.quantity, []);
      CloseLoopCloses(k, o, rates);
      assert ClosedAt(CloseLoop(k, o, rates).matches, o.completedAtMs);
    }
  }

  ghost predicate ClosedAt(matches: seq<Match>, now: int) {
    forall i :: 0 <= i < |matches| ==> matches[i].closedAtMs == now
  }

  lemma MoreCloses(startMs: int, matches: seq<Match>, made: seq<Match>, now: int)
    requires ClosedInOrder(startMs, matches) && ClosedBy(matches, now) && ClosedAt(made, now) && startMs <= now
    ensures ClosedInOrder(startMs, matches + made)
    ensures forall later :: now <= later && ClosedBy(matches, later) ==> ClosedBy(matches + made, later)
  {}

  lemma OrdersInit(startMs: int, events: seq<CarryEvent>)
    requires OrdersByTime(startMs, events) && events != []
    ensures var init, ev := events[..|events| - 1], events[|events| - 1];
            && OrdersByTime(startMs, init)
            && (ev.OrderEvent? ==> startMs <= ev.order.completedAtMs && NoneLater(init, ev.order.completedAtMs))
            && (forall now :: NoneLater(events, now) ==> NoneLater(init, now))
            && (forall now :: NoneLater(events, now) && ev.OrderEvent? ==> ev.order.completedAtMs <= now)
  {
    var init := events[..|events| - 1];
    assert forall i :: 0 <= i < |init| ==> init[i] == events[i];
  }

  /** The matches made so far are in order, and none is later than the orders still to come. */
  lemma {:induction false} RunCloses(a: Analysis, startMs: int, events: seq<CarryEvent>, rates: Rates)
    requires a.matches == [] && OrdersByTime(startMs, events)
    ensures ClosedInOrder(startMs, Run(a, events, rates).matches)
    ensures forall now :: startMs <= now && NoneLater(events, now) ==> ClosedBy(Run(a, events, rates).matches, now)
    decreases |events|
  {
    if events != [] {
      var init, ev := events[..|events| - 1], events[|events| - 1];
      OrdersInit(startMs, events);
      RunCloses(a, startMs, init, rates);
      var m := Run(a, init, rates);
      StepCloses(m, ev, rates);
      hide Step, OrdersByTime, NoneLater, ClosedBy, ClosedInOrder, ClosedAt;
      if Step(m, ev, rates).matches != m.matches {
        var made :| Step(m, ev, rates).matches == m.matches + made && ClosedAt(made, ev.order.completedAtMs);
        MoreCloses(startMs, m.matches, made, ev.order.completedAtMs);
      }
    }
  }
}
