/**
 The split of matched notional by a reference fee, which shares the uncaptured bucket of the split by actual fees:
 the fee rates under which it always adds up to the matched notional.
 */
module ComboReference {
  import opened Prelude
  import opened ComboFifo
  import opened ComboAccounting
  import opened ComboQuantities

  /** Above-reference, below-reference and uncaptured notional are the matched notional. */
  predicate SplitAddsUp(matches: seq<Match>) {
    var c := RecordAll(matches);
    c.aboveReference + c.belowReference + c.uncaptured == c.notional
  }

  ghost predicate AllAgree(matches: seq<Match>) {
    forall i :: 0 <= i < |matches| ==> !Disagrees(matches[i])
  }

  lemma {:induction false} AgreeingSplitAddsUp(matches: seq<Match>)
    requires AllAgree(matches)
    ensures ReferenceGaps(matches) == 0.0 && SplitAddsUp(matches)
    decreases |matches|
  {
    ReferenceSplitAddsUpIff(matches);
    if matches != [] {
      AgreeingSplitAddsUp(matches[..|matches| - 1]);
    }
  }

  /** A match without gross profit stays without profit once a non-negative fee is taken. */
  lemma FeesAgree(m: Match)
    requires m.tradingFee == m.referenceFee || (m.tradingFee >= 0.0 && m.referenceFee >= 0.0)
    ensures !Disagrees(m)
  {}

  /** Without rebates the reference split always adds up. */
  lemma NonNegativeFeesAddUp(matches: seq<Match>)
    requires forall i :: 0 <= i < |matches| ==> matches[i].tradingFee >= 0.0 && matches[i].referenceFee >= 0.0
    ensures SplitAddsUp(matches)
  {
    forall i | 0 <= i < |matches| ensures !Disagrees(matches[i]) {
      FeesAgree(matches[i]);
    }
    AgreeingSplitAddsUp(matches);
  }

  // ---- Rates

  function ReferenceRate(rates: Rates): real { rates.reference / 10000.0 }

  /** No rebate on either schedule, or one and the same rate on both. */
  predicate Safe(rates: Rates, symbol: string) {
    var actual, reference := ActualRate(rates, symbol), ReferenceRate(rates);
    actual == reference || (actual >= 0.0 && reference >= 0.0)
  }

  /** Orders the calculation accepts. */
  predicate ValidOrder(o: Order) { o.spotPrice > 0.0 && o.futuresPrice > 0.0 && o.quantity > 0.0 }

  ghost predicate ValidOrders(events: seq<CarryEvent>) {
    forall i :: 0 <= i < |events| && events[i].OrderEvent? ==> ValidOrder(events[i].order)
  }

  ghost predicate Priced(lots: seq<OpenLot>) {
    forall i :: 0 <= i < |lots| ==> lots[i].spotPrice > 0.0 && lots[i].futuresPrice > 0.0
  }

  ghost predicate StatesPriced(states: States) {
    forall k :: k in states ==> Priced(states[k].positive) && Priced(states[k].reverse)
  }

  lemma SameRate(notional: real, reference: real)
    ensures notional * reference / 10000.0 == notional * (reference / 10000.0)
  {}

  function FeeNotional(open: OpenLot, order: Order, quantity: real): real {
    quantity * (open.spotPrice + open.futuresPrice + order.spotPrice + order.futuresPrice)
  }

  /** Under safe rates the two schedules agree on every match a valid order makes. */
  lemma SafeMatchAgrees(open: OpenLot, order: Order, quantity: real, rates: Rates)
    requires quantity + QUANTITY_EPSILON < open.remaining ==> open.remaining != 0.0
    requires open.spotPrice > 0.0 && open.futuresPrice > 0.0 && ValidOrder(order) && quantity >= 0.0
    requires Safe(rates, order.symbol)
    ensures !Disagrees(MatchOf(open, order, quantity, rates))
  {
    var notional := FeeNotional(open, order, quantity);
    ProductSign(quantity, open.spotPrice + open.futuresPrice + order.spotPrice + order.futuresPrice);
    SameRate(notional, rates.reference);
    var m := MatchOf(open, order, quantity, rates);
    assert m.tradingFee == notional * ActualRate(rates, order.symbol);
    assert m.referenceFee == notional * ReferenceRate(rates);
    if ActualRate(rates, order.symbol) != ReferenceRate(rates) {
      ProductSign(notional, ActualRate(rates, order.symbol));
      ProductSign(notional, ReferenceRate(rates));
    }
    FeesAgree(m);
  }

  lemma {:induction false} CloseLoopAgrees(k: Closing, order: Order, rates: Rates)
    requires Open(k.lots) && Priced(k.lots) && ValidOrder(order) && Safe(rates, order.symbol) && AllAgree(k.matches)
    ensures var r := CloseLoop(k, order, rates); Priced(r.lots) && AllAgree(r.matches)
    decreases |k.lots|, k.remaining > QUANTITY_EPSILON
  {
    if k.remaining > QUANTITY_EPSILON && k.lots != [] {
      var matched := Min(k.remaining, k.lots[0].remaining);
      SafeMatchAgrees(k.lots[0], order, matched, rates);
      CloseStepQuantities(k, order, rates);
      hide Disagrees, MatchOf, Safe, ValidOrder, Held, Matched;
      CloseLoopAgrees(CloseStep(k, order, rates), order, rates);
    }
  }

  lemma {:induction false} AllocationKeepsPriced(lots: seq<OpenLot>, share: real -> real)
    requires Priced(lots)
    ensures Priced(AddFunding(lots, share)) && Priced(AddInterest(lots, share))
    decreases |lots|
  {
    if lots != [] {
      AllocationKeepsPriced(lots[1..], share);
    }
  }

  ghost predicate SafeFor(rates: Rates, symbols: set<string>) {
    forall s :: s in symbols ==> Safe(rates, s)
  }

  ghost predicate Sound(s: Lots) { Open(s.positive) && Open(s.reverse) && Priced(s.positive) && Priced(s.reverse) }

  lemma ApplyOrderAgrees(s: Lots, order: Order, rates: Rates)
    requires Sound(s) && ValidOrder(order) && Safe(rates, order.symbol)
    ensures var (r, matches) := ApplyOrder(s, order, rates);
            Priced(r.positive) && Priced(r.reverse) && AllAgree(matches)
  {
    CloseLoopAgrees(Closing(if order.direction == Positive then s.reverse else s.positive, order.quantity, []),
                    order, rates);
    hide CloseLoop, Disagrees, Safe;
  }

  lemma AllAgreeConcat(x: seq<Match>, y: seq<Match>)
    requires AllAgree(x) && AllAgree(y)
    ensures AllAgree(x + y)
  {}

  lemma StepAgrees(a: Analysis, ev: CarryEvent, rates: Rates)
    requires StatesOpen(a.states) && StatesPriced(a.states) && AllAgree(a.matches) && SafeFor(rates, a.states.Keys)
    requires ev.OrderEvent? ==> ValidOrder(ev.order)
    ensures var r := Step(a, ev, rates);
            StatesPriced(r.states) && AllAgree(r.matches) && r.states.Keys == a.states.Keys
  {
    hide ApplyOrder, AllAgree, Safe, ValidOrder, Priced, Open;
    match ev
    case OrderEvent(o) =>
      if o.symbol in a.states {
        ApplyOrderAgrees(a.states[o.symbol], o, rates);
        AllAgreeConcat(a.matches, ApplyOrder(a.states[o.symbol], o, rates).1);
      }
    case FundingEvent(symbol, amount) =>
      if TakesFunding(a.states, symbol) {
        var share := Share(amount, OpenFutures(a.states[symbol]));
        AllocationKeepsPriced(a.states[symbol].positive, share);
        AllocationKeepsPriced(a.states[symbol].reverse, share);
      }
    case InterestEvent(scope, cost) =>
      if TakesInterest(a.states, scope, cost) {
        var share := Share(cost.value, InterestBase(a.states, scope));
        forall k | k in a.states
          ensures Priced(AddInterest(a.states[k].positive, share)) && Priced(AddInterest(a.states[k].reverse, share))
        {
          AllocationKeepsPriced(a.states[k].positive, share);
          AllocationKeepsPriced(a.states[k].reverse, share);
        }
      }
  }

  function Fresh(symbols: set<string>): Analysis {
    Analysis(map s | s in symbols :: Lots([], []), [])
  }

  /** Over every run of valid orders under safe rates, the two schedules agree on every match. */
  lemma {:induction false} RunAgrees(symbols: set<string>, events: seq<CarryEvent>, rates: Rates)
    requires ValidOrders(events) && SafeFor(rates, symbols)
    ensures var r := Run(Fresh(symbols), events, rates);
            AllAgree(r.matches) && StatesOpen(r.states) && StatesPriced(r.states) && r.states.Keys == symbols
    decreases |events|
  {
    if events != [] {
      var init := events[..|events| - 1];
      RunAgrees(symbols, init, rates);
      var m := Run(Fresh(symbols), init, rates);
      StepKeepsOpen(m, events[|events| - 1], rates);
      StepAgrees(m, events[|events| - 1], rates);
      hide Step, AllAgree, StatesPriced, StatesOpen;
    }
  }

  // ---- Unsafe rates are always caught by two orders

  /** A price at which one schedule's fee pays out and the other's does not. */
  function TellingPrice(rates: Rates, symbol: string): (p: real)
    requires !Safe(rates, symbol)
    ensures p > 0.0
  {
    var actual, reference := ActualRate(rates, symbol), ReferenceRate(rates);
    var low, high := Min(actual, reference), Max(actual, reference);
    if high >= 0.0 then 1.0 / -low else CLEAN_LIMIT / (4.0 * -high)
  }

  /** At that price the lower rate pays out more than counts as nothing, and the higher one does not. */
  lemma TellingFees(rates: Rates, symbol: string)
    requires !Safe(rates, symbol)
    ensures var actual, reference := ActualRate(rates, symbol), ReferenceRate(rates);
            var p := TellingPrice(rates, symbol);
            4.0 * p * Min(actual, reference) < -CLEAN_LIMIT <= 4.0 * p * Max(actual, reference)
  {
    var actual, reference := ActualRate(rates, symbol), ReferenceRate(rates);
    var low, high := Min(actual, reference), Max(actual, reference);
    var p := TellingPrice(rates, symbol);
    hide TellingPrice, ActualRate, ReferenceRate;
    assert low < 0.0 && low < high;
    if high >= 0.0 {
      assert p == 1.0 / -low by { TellingPriceIs(rates, symbol); }
      DivideTimes(1.0, -low);
      assert p * low == -1.0;
      ProductSign(p, high);
      assert 4.0 * p * low == 4.0 * (p * low) && 4.0 * p * high == 4.0 * (p * high);
    } else {
      var d := 4.0 * -high;
      assert p == CLEAN_LIMIT / d by { TellingPriceIs(rates, symbol); }
      DivideTimes(CLEAN_LIMIT, d);
      assert 4.0 * p * high == -(p * d);
      LessProduct(4.0 * p, low, high);
    }
  }

  lemma TellingPriceIs(rates: Rates, symbol: string)
    requires !Safe(rates, symbol)
    ensures var low, high := Min(ActualRate(rates, symbol), ReferenceRate(rates)),
                             Max(ActualRate(rates, symbol), ReferenceRate(rates));
            TellingPrice(rates, symbol) == if high >= 0.0 then 1.0 / -low else CLEAN_LIMIT / (4.0 * -high)
  {}

  lemma LessProduct(x: real, y: real, z: real)
    requires x > 0.0 && y < z
    ensures x * y < x * z
  {}

  /** Two orders of one unit at one price for every leg: they close each other at no profit. */
  function TwoOrders(symbol: string, at: int, price: real): seq<CarryEvent> {
    [OrderEvent(Order(1, symbol, Positive, at, price, price, 1.0, None)),
     OrderEvent(Order(2, symbol, Reverse, at, price, price, 1.0, None))]
  }

  lemma TwoOrdersMatch(symbols: set<string>, symbol: string, at: int, price: real, rates: Rates)
    requires symbol in symbols
    ensures var open := LotOf(TwoOrders(symbol, at, price)[0].order, 1.0);
            Run(Fresh(symbols), TwoOrders(symbol, at, price), rates).matches
            == [MatchOf(open, TwoOrders(symbol, at, price)[1].order, 1.0, rates)]
  {
    var events := TwoOrders(symbol, at, price);
    var first, second := events[0].order, events[1].order;
    var a0 := Fresh(symbols);
    assert events[..1] == [events[0]] && [events[0]][..0] == [];
    var a1 := Step(a0, events[0], rates);
    assert Run(a0, [events[0]], rates) == a1;
    var lot := LotOf(first, 1.0);
    assert CloseLoop(Closing([], 1.0, []), first, rates) == Closing([], 1.0, []);
    assert a1.states[symbol] == Lots([lot], []) && a1.matches == [];
    var k := Closing([lot], 1.0, []);
    var n := CloseStep(k, second, rates);
    assert n == Closing([], 0.0, [MatchOf(lot, second, 1.0, rates)]);
    assert CloseLoop(k, second, rates) == n;
  }

  lemma TellingMatch(symbol: string, at: int, rates: Rates)
    requires !Safe(rates, symbol)
    ensures var events := TwoOrders(symbol, at, TellingPrice(rates, symbol));
            var m := MatchOf(LotOf(events[0].order, 1.0), events[1].order, 1.0, rates);
            Disagrees(m) && m.notional > 0.0
  {
    var p := TellingPrice(rates, symbol);
    var events := TwoOrders(symbol, at, p);
    var m := MatchOf(LotOf(events[0].order, 1.0), events[1].order, 1.0, rates);
    TellingFees(rates, symbol);
    SameRate(4.0 * p, rates.reference);
    hide TellingPrice, Safe;
    assert m.pnl == 0.0 && m.funding == 0.0 && m.interest == 0.0 && m.notional == p;
    assert m.tradingFee == 4.0 * p * ActualRate(rates, symbol);
    assert m.referenceFee == 4.0 * p * ReferenceRate(rates);
  }

  /** Rates that are not safe make the split miss on a run of two orders. */
  lemma UnsafeRatesMiss(symbols: set<string>, symbol: string, at: int, rates: Rates)
    requires symbol in symbols && !Safe(rates, symbol)
    ensures !SplitAddsUp(Run(Fresh(symbols), TwoOrders(symbol, at, TellingPrice(rates, symbol)), rates).matches)
  {
    var p := TellingPrice(rates, symbol);
    TwoOrdersMatch(symbols, symbol, at, p, rates);
    TellingMatch(symbol, at, rates);
    var matches := Run(Fresh(symbols), TwoOrders(symbol, at, p), rates).matches;
    hide Run, TwoOrders, TellingPrice, Safe, MatchOf, LotOf, RecordAll, Disagrees;
    ReferenceSplitAddsUpIff(matches);
    OneGap(matches[0]);
    assert matches == [matches[0]];
  }

  lemma OneGap(m: Match)
    requires Disagrees(m) && m.notional > 0.0
    ensures ReferenceGaps([m]) != 0.0
  {
    assert [m][..0] == [];
    assert ReferenceGaps([]) == 0.0;
  }

  /** Every run of valid orders from `startMs` on splits its matched notional without a remainder. */
  ghost predicate AlwaysAddsUp(symbols: set<string>, startMs: int, rates: Rates) {
    forall events: seq<CarryEvent> {:trigger ValidOrders(events)} ::
      ValidOrders(events) && OrdersByTime(startMs, events) ==> SplitAddsUp(Run(Fresh(symbols), events, rates).matches)
  }

  /**
   The reference split adds up over every run exactly when, for every symbol, neither the actual nor the reference
   rate is a rebate, or the two rates are equal.
   */
  lemma SplitAddsUpIffSafe(symbols: set<string>, startMs: int, rates: Rates)
    ensures AlwaysAddsUp(symbols, startMs, rates) <==> SafeFor(rates, symbols)
  {
    if SafeFor(rates, symbols) {
      forall events: seq<CarryEvent> | ValidOrders(events) && OrdersByTime(startMs, events)
        ensures SplitAddsUp(Run(Fresh(symbols), events, rates).matches)
      {
        RunAgrees(symbols, events, rates);
        AgreeingSplitAddsUp(Run(Fresh(symbols), events, rates).matches);
      }
    } else {
      var s :| s in symbols && !Safe(rates, s);
      var events := TwoOrders(s, startMs, TellingPrice(rates, s));
      UnsafeRatesMiss(symbols, s, startMs, rates);
      assert ValidOrders(events) && OrdersByTime(startMs, events);
    }
  }
}
