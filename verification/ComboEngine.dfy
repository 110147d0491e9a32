/** The combination FIFO as the loop it is: orders, funding and interest merged by time over mutable lots. */
module ComboEngine {
  import opened Prelude
  import opened MapSum
  import opened ComboFifo
  import opened ComboAccounting
  import opened ComboSeries
  import ComboShares
  import ComboCash
  import ComboFigures

  datatype FundingRow = FundingRow(ts: int, symbol: string, amount: real)

  datatype InterestRow = InterestRow(ts: int, scope: Option<string>, cost: Option<real>)

  /** The merged order of events: funding, then interest, up to each order's time, then the order. */
  function Timeline(orders: seq<Order>, funding: seq<FundingRow>, interest: seq<InterestRow>): seq<CarryEvent>
    decreases |orders| + |funding| + |interest|
  {
    if funding != [] && (orders == [] || funding[0].ts <= orders[0].completedAtMs) then
      [FundingEvent(funding[0].symbol, funding[0].amount)] + Timeline(orders, funding[1..], interest)
    else if interest != [] && (orders == [] || interest[0].ts <= orders[0].completedAtMs) then
      [InterestEvent(interest[0].scope, interest[0].cost)] + Timeline(orders, funding, interest[1..])
    else if orders != [] then [OrderEvent(orders[0])] + Timeline(orders[1..], funding, interest)
    else []
  }

  method SumFutures(lots: seq<OpenLot>) returns (sum: real)
    ensures sum == FuturesNotional(lots)
  {
    sum := 0.0;
    var i := 0;
    while i < |lots|
      invariant i <= |lots| && sum + FuturesNotional(lots[i..]) == FuturesNotional(lots)
    {
      assert lots[i..][1..] == lots[i + 1..];
      sum := sum + lots[i].remaining * lots[i].futuresPrice;
      i := i + 1;
    }
  }

  method SumSpot(lots: seq<OpenLot>) returns (sum: real)
    ensures sum == SpotNotional(lots)
  {
    sum := 0.0;
    var i := 0;
    while i < |lots|
      invariant i <= |lots| && sum + SpotNotional(lots[i..]) == SpotNotional(lots)
    {
      assert lots[i..][1..] == lots[i + 1..];
      sum := sum + lots[i].remaining * lots[i].spotPrice;
      i := i + 1;
    }
  }

  method SpreadFunding(lots: seq<OpenLot>, share: real -> real) returns (r: seq<OpenLot>)
    ensures r == AddFunding(lots, share)
  {
    r := [];
    var rest := lots;
    while rest != []
      invariant r + AddFunding(rest, share) == AddFunding(lots, share)
      decreases |rest|
    {
      var lot := rest[0].(funding := rest[0].funding + share(rest[0].remaining * rest[0].futuresPrice));
      assert r + ([lot] + AddFunding(rest[1..], share)) == r + [lot] + AddFunding(rest[1..], share);
      r := r + [lot];
      rest := rest[1..];
    }
    assert r + [] == r;
  }

  method SpreadInterest(lots: seq<OpenLot>, share: real -> real) returns (r: seq<OpenLot>)
    ensures r == AddInterest(lots, share)
  {
    r := [];
    var rest := lots;
    while rest != []
      invariant r + AddInterest(rest, share) == AddInterest(lots, share)
      decreases |rest|
    {
      var lot := rest[0].(interest := rest[0].interest + share(rest[0].remaining * rest[0].spotPrice));
      assert r + ([lot] + AddInterest(rest[1..], share)) == r + [lot] + AddInterest(rest[1..], share);
      r := r + [lot];
      rest := rest[1..];
    }
    assert r + [] == r;
  }

  class Calculation {
    const rates: Rates
    var states: States
    var matches: seq<Match>

    ghost function View(): Analysis
      reads this
    {
      Analysis(states, matches)
    }

    constructor (symbols: set<string>, rates: Rates)
      ensures this.rates == rates && View() == Analysis(map s | s in symbols :: Lots([], []), [])
    {
      this.rates := rates;
      states := map s | s in symbols :: Lots([], []);
      matches := [];
    }

    /** Closes opposite lots first in, first out, and opens what is left of the order. */
    method Process(order: Order)
      requires order.symbol in states
      modifies this
      ensures View() == Step(old(View()), OrderEvent(order), rates)
      ensures ComboCash.ClosesInTurn(old(Opposite(states[order.symbol], order)), order, old(matches), matches)
    {
      var s := states[order.symbol];
      var lots := if order.direction == Positive then s.reverse else s.positive;
      var remaining := order.quantity;
      var closed: seq<Match> := [];
      ghost var start := Closing(lots, remaining, closed);
      ComboCash.CloseLoopCloses(start, order, rates);
      while remaining > QUANTITY_EPSILON && lots != []
        invariant CloseLoop(Closing(lots, remaining, closed), order, rates) == CloseLoop(start, order, rates)
        invariant states == old(states) && matches == old(matches)
        decreases |lots|, remaining > QUANTITY_EPSILON
      {
        ghost var before := Closing(lots, remaining, closed);
        var open := lots[0];
        var matched := Min(remaining, open.remaining);
        closed := closed + [MatchOf(open, order, matched, rates)];
        remaining := CleanQuantity(remaining - matched);
        var left := Reduced(open, matched);
        lots := if left.remaining <= QUANTITY_EPSILON then lots[1..] else [left] + lots[1..];
        assert Closing(lots, remaining, closed) == CloseStep(before, order, rates);
      }
      var lot := if remaining > QUANTITY_EPSILON then [LotOf(order, remaining)] else [];
      states := states[order.symbol :=
        if order.direction == Positive then Lots(s.positive + lot, lots) else Lots(lots, s.reverse + lot)];
      matches := matches + closed;
      TurnsAfter(start.lots, order, old(matches), closed);
    }

    method Fund(symbol: string, amount: real) returns (accepted: bool)
      modifies this`states
      ensures View() == Step(old(View()), FundingEvent(symbol, amount), rates)
      ensures accepted == TakesFunding(old(states), symbol)
      ensures ComboShares.FundingSplit(old(states), states, symbol)
    {
      ComboShares.FundingByNotional(states, symbol, amount);
      hide ComboShares.FundingSplit;
      if symbol !in states {
        return false;
      }
      var s := states[symbol];
      var positiveSum := SumFutures(s.positive);
      var reverseSum := SumFutures(s.reverse);
      var total := positiveSum + reverseSum;
      if total <= F64_EPSILON {
        return false;
      }
      var positive := SpreadFunding(s.positive, Share(amount, total));
      var reverse := SpreadFunding(s.reverse, Share(amount, total));
      states := states[symbol := Lots(positive, reverse)];
      return true;
    }

    /** Whether a cost was taken; the caller combines this with its own selection of symbols. */
    method Charge(scope: Option<string>, cost: Option<real>) returns (accepted: bool)
      modifies this`states
      ensures View() == Step(old(View()), InterestEvent(scope, cost), rates)
      ensures accepted == TakesInterest(old(states), scope, cost)
    {
      if cost.None? || cost.value <= F64_EPSILON {
        return false;
      }
      match scope
      case Some(symbol) =>
        if symbol !in states {
          return false;
        }
        var total := SumSpot(states[symbol].reverse);
        if total <= F64_EPSILON {
          return false;
        }
        var reverse := SpreadInterest(states[symbol].reverse, Share(cost.value, total));
        states := states[symbol := states[symbol].(reverse := reverse)];
        return true;
      case None =>
        var total := PositiveTotal();
        if total <= F64_EPSILON {
          return false;
        }
        SpreadEverywhere(Share(cost.value, total));
        return true;
    }

    method PositiveTotal() returns (sum: real)
      ensures sum == SumOver(states, PositiveSpot())
    {
      sum := 0.0;
      var rest := states.Keys;
      while rest != {}
        invariant rest <= states.Keys && sum + SumKeys(states, rest, PositiveSpot()) == SumOver(states, PositiveSpot())
        decreases |rest|
      {
        var k :| k in rest;
        SumSplit(states, rest, PositiveSpot(), k);
        var one := SumSpot(states[k].positive);
        sum := sum + one;
        rest := rest - {k};
      }
    }

    method SpreadEverywhere(share: real -> real)
      modifies this`states
      ensures states == map k | k in old(states) ::
                          old(states)[k].(positive := AddInterest(old(states)[k].positive, share))
    {
      var rest := states.Keys;
      while rest != {}
        invariant rest <= states.Keys == old(states).Keys
        invariant forall k :: k in states ==>
          states[k] == if k in rest then old(states)[k]
                       else old(states)[k].(positive := AddInterest(old(states)[k].positive, share))
        decreases |rest|
      {
        var k :| k in rest;
        var positive := SpreadInterest(states[k].positive, share);
        states := states[k := states[k].(positive := positive)];
        rest := rest - {k};
      }
    }

    /** The merge stands where `done` of the timeline has been run and `orders`, `funding`, `interest` remain. */
    ghost predicate Merging(
      start: Analysis, all: seq<CarryEvent>, done: seq<CarryEvent>,
      orders: seq<Order>, funding: seq<FundingRow>, interest: seq<InterestRow>)
      reads this
    {
      && View() == Run(start, done, rates) && states.Keys == start.states.Keys
      && done + Timeline(orders, funding, interest) == all
    }

    /** Funding rows up to the next order, or all of them after the last one. */
    method FundUpTo(ghost start: Analysis, ghost all: seq<CarryEvent>, ghost done0: seq<CarryEvent>,
                    orders: seq<Order>, funding: seq<FundingRow>, ghost interest: seq<InterestRow>)
      returns (rest: seq<FundingRow>, ghost done: seq<CarryEvent>)
      requires Merging(start, all, done0, orders, funding, interest)
      modifies this`states
      ensures Merging(start, all, done, orders, rest, interest)
      ensures rest != [] ==> orders != [] && rest[0].ts > orders[0].completedAtMs
    {
      hide Run;
      rest, done := funding, done0;
      while rest != [] && (orders == [] || rest[0].ts <= orders[0].completedAtMs)
        invariant Merging(start, all, done, orders, rest, interest)
        decreases |rest|
      {
        ghost var ev := FundingEvent(rest[0].symbol, rest[0].amount);
        AdvanceTimeline(done, ev, Timeline(orders, rest, interest), Timeline(orders, rest[1..], interest));
        var accepted := Fund(rest[0].symbol, rest[0].amount);
        done := Ran(start, done, ev, rates);
        rest := rest[1..];
      }
    }

    /** Interest rows up to the next order, or all of them after the last one. */
    method ChargeUpTo(ghost start: Analysis, ghost all: seq<CarryEvent>, ghost done0: seq<CarryEvent>,
                      orders: seq<Order>, ghost funding: seq<FundingRow>, interest: seq<InterestRow>)
      returns (rest: seq<InterestRow>, ghost done: seq<CarryEvent>)
      requires Merging(start, all, done0, orders, funding, interest)
      requires funding != [] ==> orders != [] && funding[0].ts > orders[0].completedAtMs
      modifies this`states
      ensures Merging(start, all, done, orders, funding, rest)
      ensures rest != [] ==> orders != [] && rest[0].ts > orders[0].completedAtMs
    {
      hide Run;
      rest, done := interest, done0;
      while rest != [] && (orders == [] || rest[0].ts <= orders[0].completedAtMs)
        invariant Merging(start, all, done, orders, funding, rest)
        decreases |rest|
      {
        ghost var ev := InterestEvent(rest[0].scope, rest[0].cost);
        AdvanceTimeline(done, ev, Timeline(orders, funding, rest), Timeline(orders, funding, rest[1..]));
        var accepted := Charge(rest[0].scope, rest[0].cost);
        done := Ran(start, done, ev, rates);
        rest := rest[1..];
      }
    }

    /** The merge loop: leaves the state of running the merged timeline. */
    method Merge(orders: seq<Order>, funding: seq<FundingRow>, interest: seq<InterestRow>)
      requires forall i :: 0 <= i < |orders| ==> orders[i].symbol in states
      modifies this
      ensures View() == Run(old(View()), Timeline(orders, funding, interest), rates)
    {
      var nextOrders, nextFunding, nextInterest := orders, funding, interest;
      ghost var all, done := Timeline(orders, funding, interest), [];
      ghost var start := View();
      assert [] + all == all;
      while nextOrders != []
        invariant Merging(start, all, done, nextOrders, nextFunding, nextInterest)
        invariant forall i :: 0 <= i < |nextOrders| ==> nextOrders[i].symbol in start.states
        decreases |nextOrders|
      {
        nextFunding, done := FundUpTo(start, all, done, nextOrders, nextFunding, nextInterest);
        nextInterest, done := ChargeUpTo(start, all, done, nextOrders, nextFunding, nextInterest);
        ghost var ev := OrderEvent(nextOrders[0]);
        AdvanceTimeline(done, ev, Timeline(nextOrders, nextFunding, nextInterest),
                        Timeline(nextOrders[1..], nextFunding, nextInterest));
        Process(nextOrders[0]);
        done := Ran(start, done, ev, rates);
        nextOrders := nextOrders[1..];
      }
      nextFunding, done := FundUpTo(start, all, done, [], nextFunding, nextInterest);
      nextInterest, done := ChargeUpTo(start, all, done, [], nextFunding, nextInterest);
      assert done + [] == done;
    }
  }

  /** Matches made before an order do not matter to those it makes. */
  lemma TurnsAfter(lots: seq<OpenLot>, order: Order, earlier: seq<Match>, made: seq<Match>)
    requires ComboCash.ClosesInTurn(lots, order, [], made)
    ensures ComboCash.ClosesInTurn(lots, order, earlier, earlier + made)
  {
    hide ComboCash.Closes;
    var none: seq<Match> := [];
    forall i | 0 <= i < |made| ensures ComboCash.Closes((earlier + made)[|earlier| + i], lots[i], order) {
      assert (earlier + made)[|earlier| + i] == made[i] && ComboCash.Closes(made[|none| + i], lots[i], order);
    }
  }

  lemma AdvanceTimeline(done: seq<CarryEvent>, ev: CarryEvent, now: seq<CarryEvent>, later: seq<CarryEvent>)
    requires now == [ev] + later
    ensures done + now == done + [ev] + later
  {}

  /** Running totals and series, match by match. */
  method BuildSeries(startMs: int, selected: set<string>, matches: seq<Match>, f: ComboAccounting.Measure)
    returns (x: Series)
    ensures x == PushAll(startMs, selected, matches, f)
  {
    x := StartSeries(startMs, selected);
    var i := 0;
    while i < |matches|
      invariant i <= |matches| && x == PushAll(startMs, selected, matches[..i], f)
    {
      assert matches[..i + 1][..i] == matches[..i];
      x := PushMatch(x, matches[i], f);
      i := i + 1;
    }
    assert matches[..i] == matches;
  }

  ghost predicate ByTime(startMs: int, orders: seq<Order>) {
    (forall i :: 0 <= i < |orders| ==> startMs <= orders[i].completedAtMs)
    && (forall i, j :: 0 <= i < j < |orders| ==> orders[i].completedAtMs <= orders[j].completedAtMs)
  }

  lemma {:induction false} TimelineByTime(
    startMs: int, orders: seq<Order>, funding: seq<FundingRow>, interest: seq<InterestRow>)
    requires ByTime(startMs, orders)
    ensures OrdersByTime(startMs, Timeline(orders, funding, interest))
    ensures forall ev :: ev in Timeline(orders, funding, interest) && ev.OrderEvent? ==> ev.order in orders
    decreases |orders| + |funding| + |interest|
  {
    if funding != [] && (orders == [] || funding[0].ts <= orders[0].completedAtMs) {
      var ev, rest := FundingEvent(funding[0].symbol, funding[0].amount), Timeline(orders, funding[1..], interest);
      assert Timeline(orders, funding, interest) == [ev] + rest;
      hide Timeline, OrdersByTime;
      TimelineByTime(startMs, orders, funding[1..], interest);
      PrependOther(startMs, ev, rest);
    } else if interest != [] && (orders == [] || interest[0].ts <= orders[0].completedAtMs) {
      var ev, rest := InterestEvent(interest[0].scope, interest[0].cost), Timeline(orders, funding, interest[1..]);
      assert Timeline(orders, funding, interest) == [ev] + rest;
      hide Timeline, OrdersByTime;
      TimelineByTime(startMs, orders, funding, interest[1..]);
      PrependOther(startMs, ev, rest);
    } else if orders != [] {
      var rest := Timeline(orders[1..], funding, interest);
      assert Timeline(orders, funding, interest) == [OrderEvent(orders[0])] + rest;
      assert ByTime(startMs, orders[1..]) && startMs <= orders[0].completedAtMs;
      assert forall o :: o in orders[1..] ==> orders[0].completedAtMs <= o.completedAtMs;
      hide Timeline, OrdersByTime, ByTime;
      TimelineByTime(startMs, orders[1..], funding, interest);
      PrependOrder(startMs, orders[0], rest, orders[1..]);
    }
  }

  lemma PrependOrder(startMs: int, order: Order, rest: seq<CarryEvent>, later: seq<Order>)
    requires OrdersByTime(startMs, rest) && startMs <= order.completedAtMs
    requires forall ev :: ev in rest && ev.OrderEvent? ==> ev.order in later
    requires forall o :: o in later ==> order.completedAtMs <= o.completedAtMs
    ensures OrdersByTime(startMs, [OrderEvent(order)] + rest)
  {
    forall j | 0 <= j < |rest| && rest[j].OrderEvent?
      ensures order.completedAtMs <= rest[j].order.completedAtMs
    {
      assert rest[j] in rest;
    }
  }

  lemma PrependOther(startMs: int, ev: CarryEvent, rest: seq<CarryEvent>)
    requires !ev.OrderEvent? && OrdersByTime(startMs, rest)
    ensures OrdersByTime(startMs, [ev] + rest)
  {}

  /** Appends the final point to every series. */
  method Finish(x: Series, endMs: int) returns (r: Series)
    ensures r == Finished(x, endMs)
  {
    var symbolPoints := x.symbolPoints;
    var rest := symbolPoints.Keys;
    while rest != {}
      invariant rest <= symbolPoints.Keys == x.symbolPoints.Keys
      invariant forall s :: s in symbolPoints ==>
        symbolPoints[s] == if s in rest then x.symbolPoints[s] else EnsureFinal(x.symbolPoints[s], endMs)
      decreases |rest|
    {
      var s :| s in rest;
      symbolPoints := symbolPoints[s := EnsureFinal(symbolPoints[s], endMs)];
      rest := rest - {s};
    }
    r := x.(points := EnsureFinal(x.points, endMs), symbolPoints := symbolPoints);
  }

  /** Writes the finished series of every field asked for. */
  method WriteAll(startMs: int, endMs: int, selected: set<string>, matches: seq<Match>, fields: seq<Field>)
    returns (series: seq<Series>)
    ensures |series| == |fields|
    ensures forall i :: 0 <= i < |fields| ==>
              series[i] == Finished(PushAll(startMs, selected, matches, Added(fields[i])), endMs)
  {
    series := [];
    while |series| < |fields|
      invariant |series| <= |fields|
      invariant forall i :: 0 <= i < |series| ==>
                  series[i] == Finished(PushAll(startMs, selected, matches, Added(fields[i])), endMs)
    {
      var x := BuildSeries(startMs, selected, matches, Added(fields[|series|]));
      x := Finish(x, endMs);
      series := series + [x];
    }
  }

  /**
   End to end, field by field: merge, write the series, append the final points. At every instant of the window the
   portfolio shows the cleaned sum of what the symbols show.
   */
  method Analyse(symbols: set<string>, rates: Rates, startMs: int, endMs: int, orders: seq<Order>,
                 funding: seq<FundingRow>, interest: seq<InterestRow>, selected: set<string>, fields: seq<Field>)
    returns (c: Calculation, series: seq<Series>)
    requires ByTime(startMs, orders) && startMs <= endMs
    requires forall i :: 0 <= i < |orders| ==> orders[i].symbol in symbols && orders[i].completedAtMs <= endMs
    ensures c.View() == Run(Analysis(map s | s in symbols :: Lots([], []), []),
                            Timeline(orders, funding, interest), rates)
    ensures |series| == |fields|
    ensures forall i :: 0 <= i < |fields| ==>
              series[i] == Finished(PushAll(startMs, selected, c.matches, Added(fields[i])), endMs)
    ensures forall i, t :: 0 <= i < |fields| && t >= startMs ==> AgreeAt(series[i], t)
    ensures ComboCash.Traced(c.View(), Timeline(orders, funding, interest), rates)
    ensures forall i, t :: 0 <= i < |fields| && t >= startMs ==>
              ComboFigures.Shows(series[i], fields[i], c.matches, selected, t)
  {
    ComboCash.RunMatches(symbols, Timeline(orders, funding, interest), rates);
    assert ComboCash.Nothing(symbols) == Analysis(map s | s in symbols :: Lots([], []), []);
    hide Finished, PushAll, AgreeAt, ByTime, ComboCash.Traced, ComboCash.Nothing, ComboFigures.Shows;
    c := new Calculation(symbols, rates);
    ghost var start := c.View();
    c.Merge(orders, funding, interest);
    ClosedInWindow(start, startMs, endMs, orders, funding, interest, rates);
    series := WriteAll(startMs, endMs, selected, c.matches, fields);
    forall i, t | 0 <= i < |fields| && t >= startMs
      ensures AgreeAt(series[i], t)
      ensures ComboFigures.Shows(series[i], fields[i], c.matches, selected, t)
    {
      EveryFieldAgrees(startMs, endMs, selected, c.matches, fields[i], t);
      ComboFigures.FinishedShow(startMs, endMs, selected, c.matches, fields[i], t);
    }
  }

  /** Matches close in order and inside the window. */
  lemma ClosedInWindow(a: Analysis, startMs: int, endMs: int, orders: seq<Order>, funding: seq<FundingRow>,
                       interest: seq<InterestRow>, rates: Rates)
    requires a.matches == [] && ByTime(startMs, orders) && startMs <= endMs
    requires forall i :: 0 <= i < |orders| ==> orders[i].completedAtMs <= endMs
    ensures var r := Run(a, Timeline(orders, funding, interest), rates);
            ClosedInOrder(startMs, r.matches) && ClosedUntil(r.matches, endMs)
  {
    var events := Timeline(orders, funding, interest);
    TimelineByTime(startMs, orders, funding, interest);
    RunCloses(a, startMs, events, rates);
    hide Run, Timeline, ByTime, ClosedInOrder, OrdersByTime;
    assert NoneLater(events, endMs) by {
      forall i | 0 <= i < |events| && events[i].OrderEvent? ensures events[i].order.completedAtMs <= endMs {
        assert events[i] in events && events[i].order in orders;
      }
    }
    assert ClosedBy(Run(a, events, rates).matches, endMs);
  }

  /** The events run so far, with one more. */
  ghost function Ran(a: Analysis, done: seq<CarryEvent>, ev: CarryEvent, rates: Rates): (r: seq<CarryEvent>)
    ensures r == done + [ev] && Run(a, r, rates) == Step(Run(a, done, rates), ev, rates)
  {
    var r := done + [ev];
    assert r[..|r| - 1] == done;
    r
  }
}
