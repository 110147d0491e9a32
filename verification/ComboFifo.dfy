/**
 Combination FIFO for arbitrage orders with carry: opposite lots close first in, first out; funding and interest
 are spread over the open lots by notional when they occur and released in proportion to the closed quantity.
 */
module ComboFifo {
  import opened Prelude
  import opened MapSum

  const QUANTITY_EPSILON: real := 0.0000000001
  const CLEAN_LIMIT: real := 0.000000001
  const F64_EPSILON: real := 1.0 / 4503599627370496.0

  datatype ArbDirection = Positive | Reverse {
    function Sign(): real { if this == Positive then 1.0 else -1.0 }
  }

  /** `premium` is the closing rate of the premium index candle, when there is one. */
  datatype Order = Order(
    fkey: int, symbol: string, direction: ArbDirection, completedAtMs: int,
    spotPrice: real, futuresPrice: real, quantity: real, premium: Option<real>)

  datatype OpenLot = OpenLot(
    fkey: int, direction: ArbDirection, completedAtMs: int, spotPrice: real, futuresPrice: real,
    remaining: real, funding: real, interest: real, premium: Option<real>)

  datatype Lots = Lots(positive: seq<OpenLot>, reverse: seq<OpenLot>)

  /** One closed match, with the amounts before tiny values are cleaned away. */
  datatype Match = Match(
    symbol: string, openDirection: ArbDirection, openFkey: int, closeFkey: int, closedAtMs: int,
    quantity: real, notional: real, pnl: real, funding: real, interest: real,
    tradingFee: real, referenceFee: real,
    marketPnl: Option<real>, executionPnl: Option<real>)

  function CleanZero(x: real): real { if Abs(x) <= CLEAN_LIMIT then 0.0 else x }

  function CleanQuantity(x: real): real { if Abs(x) <= QUANTITY_EPSILON then 0.0 else x }

  function Basis(spot: real, futures: real): real { futures - spot }

  /** Market basis implied by the premium index, per unit. */
  function MarketBasis(spot: real, premium: Option<real>): Option<real> {
    if premium.Some? then Some(spot * premium.value) else None
  }

  /** The part of `held` that leaves with `matched` of a lot; all of it when the lot is used up. */
  function Released(held: real, matched: real, remaining: real): real
    requires matched + QUANTITY_EPSILON < remaining ==> remaining != 0.0
  {
    if matched + QUANTITY_EPSILON >= remaining then held else held * matched / remaining
  }

  /** Fee rates that apply to the closed notional of a symbol. */
  datatype Rates = Rates(actual: map<string, real>, reference: real)

  function ActualRate(r: Rates, symbol: string): real { if symbol in r.actual then r.actual[symbol] else 0.0 }

  function MarketPnl(open: OpenLot, order: Order, quantity: real): Option<real> {
    var entry, exit := MarketBasis(open.spotPrice, open.premium), MarketBasis(order.spotPrice, order.premium);
    if entry.Some? && exit.Some? then Some(quantity * open.direction.Sign() * (entry.value - exit.value)) else None
  }

  function ExecutionPnl(open: OpenLot, order: Order, quantity: real): Option<real> {
    var entry, exit := MarketBasis(open.spotPrice, open.premium), MarketBasis(order.spotPrice, order.premium);
    if entry.Some? && exit.Some? then
      Some(quantity * open.direction.Sign() * (Basis(open.spotPrice, open.futuresPrice) - entry.value)
           + quantity * order.direction.Sign() * (Basis(order.spotPrice, order.futuresPrice) - exit.value))
    else None
  }

  function MatchOf(open: OpenLot, order: Order, quantity: real, rates: Rates): Match
    requires quantity + QUANTITY_EPSILON < open.remaining ==> open.remaining != 0.0
  {
    var feeNotional := quantity * (open.spotPrice + open.futuresPrice + order.spotPrice + order.futuresPrice);
    Match(order.symbol, open.direction, open.fkey, order.fkey, order.completedAtMs,
          quantity, quantity * (open.spotPrice + order.spotPrice) / 2.0,
          quantity * open.direction.Sign()
            * (Basis(open.spotPrice, open.futuresPrice) - Basis(order.spotPrice, order.futuresPrice)),
          Released(open.funding, quantity, open.remaining), Released(open.interest, quantity, open.remaining),
          feeNotional * ActualRate(rates, order.symbol), feeNotional * rates.reference / 10000.0,
          MarketPnl(open, order, quantity), ExecutionPnl(open, order, quantity))
  }

  /** What is left of a lot after a match. */
  function Reduced(open: OpenLot, quantity: real): OpenLot
    requires quantity + QUANTITY_EPSILON < open.remaining ==> open.remaining != 0.0
  {
    open.(remaining := CleanQuantity(open.remaining - quantity),
          funding := CleanZero(open.funding - Released(open.funding, quantity, open.remaining)),
          interest := CleanZero(open.interest - Released(open.interest, quantity, open.remaining)))
  }

  /** Lots being closed by an order, the quantity still to close, and the matches made. */
  datatype Closing = Closing(lots: seq<OpenLot>, remaining: real, matches: seq<Match>)

  function CloseStep(c: Closing, order: Order, rates: Rates): (r: Closing)
    requires c.remaining > QUANTITY_EPSILON && c.lots != []
    ensures |r.lots| < |c.lots| || (|r.lots| == |c.lots| && r.remaining <= QUANTITY_EPSILON)
  {
    var open := c.lots[0];
    var matched := Min(c.remaining, open.remaining);
    var left := Reduced(open, matched);
    Closing(if left.remaining <= QUANTITY_EPSILON then c.lots[1..] else [left] + c.lots[1..],
            CleanQuantity(c.remaining - matched),
            c.matches + [MatchOf(open, order, matched, rates)])
  }

  function CloseLoop(c: Closing, order: Order, rates: Rates): Closing
    decreases |c.lots|, c.remaining > QUANTITY_EPSILON
  {
    if c.remaining <= QUANTITY_EPSILON || c.lots == [] then c else CloseLoop(CloseStep(c, order, rates), order, rates)
  }

  function LotOf(order: Order, remaining: real): OpenLot {
    OpenLot(order.fkey, order.direction, order.completedAtMs, order.spotPrice, order.futuresPrice,
            remaining, 0.0, 0.0, order.premium)
  }

  /** One symbol after an order: opposite lots closed, what is left opened as a new lot. */
  function ApplyOrder(s: Lots, order: Order, rates: Rates): (Lots, seq<Match>) {
    var c := CloseLoop(Closing(if order.direction == Positive then s.reverse else s.positive, order.quantity, []),
                       order, rates);
    var lot := if c.remaining > QUANTITY_EPSILON then [LotOf(order, c.remaining)] else [];
    (if order.direction == Positive then Lots(s.positive + lot, c.lots) else Lots(c.lots, s.reverse + lot), c.matches)
  }

  // ---- Allocation of funding and interest

  function FuturesNotional(lots: seq<OpenLot>): real {
    if lots == [] then 0.0 else lots[0].remaining * lots[0].futuresPrice + FuturesNotional(lots[1..])
  }

  function SpotNotional(lots: seq<OpenLot>): real {
    if lots == [] then 0.0 else lots[0].remaining * lots[0].spotPrice + SpotNotional(lots[1..])
  }

  /** A share of an amount by notional. */
  function Share(amount: real, total: real): real -> real
    requires total != 0.0
  {
    (notional: real) => amount * notional / total
  }

  function AddFunding(lots: seq<OpenLot>, share: real -> real): seq<OpenLot> {
    if lots == [] then [] else
      [lots[0].(funding := lots[0].funding + share(lots[0].remaining * lots[0].futuresPrice))]
      + AddFunding(lots[1..], share)
  }

  function AddInterest(lots: seq<OpenLot>, share: real -> real): seq<OpenLot> {
    if lots == [] then [] else
      [lots[0].(interest := lots[0].interest + share(lots[0].remaining * lots[0].spotPrice))]
      + AddInterest(lots[1..], share)
  }

  type States = map<string, Lots>

  function OpenFutures(s: Lots): real { FuturesNotional(s.positive) + FuturesNotional(s.reverse) }

  predicate TakesFunding(states: States, symbol: string) {
    symbol in states && OpenFutures(states[symbol]) > F64_EPSILON
  }

  function AllocateFunding(states: States, symbol: string, amount: real): States {
    if !TakesFunding(states, symbol) then states else
      var s := states[symbol];
      var share := Share(amount, OpenFutures(s));
      states[symbol := Lots(AddFunding(s.positive, share), AddFunding(s.reverse, share))]
  }

  ghost function PositiveSpot(): Lots -> real { (s: Lots) => SpotNotional(s.positive) }

  /** Spot notional an interest cost is spread over: one symbol's reverse lots, or all positive lots. */
  ghost function InterestBase(states: States, symbol: Option<string>): real {
    match symbol
    case Some(s) => if s in states then SpotNotional(states[s].reverse) else 0.0
    case None => SumOver(states, PositiveSpot())
  }

  ghost predicate TakesInterest(states: States, symbol: Option<string>, cost: Option<real>) {
    cost.Some? && cost.value > F64_EPSILON && InterestBase(states, symbol) > F64_EPSILON
  }

  ghost function AllocateInterest(states: States, symbol: Option<string>, cost: Option<real>): States {
    if !TakesInterest(states, symbol, cost) then states else
      var share := Share(cost.value, InterestBase(states, symbol));
      match symbol
      case Some(s) => states[s := states[s].(reverse := AddInterest(states[s].reverse, share))]
      case None => map k | k in states :: states[k].(positive := AddInterest(states[k].positive, share))
  }

  // ---- Runs

  datatype CarryEvent =
    | OrderEvent(order: Order)
    | FundingEvent(symbol: string, amount: real)
    | InterestEvent(scope: Option<string>, cost: Option<real>)

  datatype Analysis = Analysis(states: States, matches: seq<Match>)

  ghost function Step(a: Analysis, ev: CarryEvent, rates: Rates): Analysis {
    match ev
    case OrderEvent(o) =>
      if o.symbol !in a.states then a else
        var (lots, matches) := ApplyOrder(a.states[o.symbol], o, rates);
        Analysis(a.states[o.symbol := lots], a.matches + matches)
    case FundingEvent(symbol, amount) => a.(states := AllocateFunding(a.states, symbol, amount))
    case InterestEvent(symbol, cost) => a.(states := AllocateInterest(a.states, symbol, cost))
  }

  ghost function Run(a: Analysis, events: seq<CarryEvent>, rates: Rates): Analysis
    decreases |events|
  {
    if events == [] then a else Step(Run(a, events[..|events| - 1], rates), events[|events| - 1], rates)
  }

  // ---- Conservation of carry

  datatype Carry = FundingCarry | InterestCarry

  function CarryOf(c: Carry, lot: OpenLot): real { if c == FundingCarry then lot.funding else lot.interest }

  /** The carry a closed match records, cleaned. */
  function Recorded(c: Carry, m: Match): real { CleanZero(if c == FundingCarry then m.funding else m.interest) }

  function HeldIn(c: Carry, lots: seq<OpenLot>): real {
    if lots == [] then 0.0 else CarryOf(c, lots[0]) + HeldIn(c, lots[1..])
  }

  function HeldBy(c: Carry): Lots -> real { (s: Lots) => HeldIn(c, s.positive) + HeldIn(c, s.reverse) }

  function RecordedIn(c: Carry, matches: seq<Match>): real
    decreases |matches|
  {
    if matches == [] then 0.0
    else RecordedIn(c, matches[..|matches| - 1]) + Recorded(c, matches[|matches| - 1])
  }

  /** The carry allocation accepts from one event. */
  ghost function Accepted(c: Carry, a: Analysis, ev: CarryEvent): real {
    match ev
    case OrderEvent(o) => 0.0
    case FundingEvent(symbol, amount) => if c == FundingCarry && TakesFunding(a.states, symbol) then amount else 0.0
    case InterestEvent(symbol, cost) =>
      if c == InterestCarry && TakesInterest(a.states, symbol, cost) then cost.value else 0.0
  }

  ghost function AcceptedIn(c: Carry, a: Analysis, events: seq<CarryEvent>, rates: Rates): real
    decreases |events|
  {
    if events == [] then 0.0 else
      var init := events[..|events| - 1];
      AcceptedIn(c, a, init, rates) + Accepted(c, Run(a, init, rates), events[|events| - 1])
  }

  /** A lot leaves its queue exactly when the match has released everything it held. */
  lemma PoppedReleasesAll(open: OpenLot, remaining: real, c: Carry)
    requires remaining > QUANTITY_EPSILON
    ensures var matched := Min(remaining, open.remaining);
            var left := Reduced(open, matched);
            && (left.remaining <= QUANTITY_EPSILON <==> matched + QUANTITY_EPSILON >= open.remaining)
            && (left.remaining <= QUANTITY_EPSILON ==>
                  Released(CarryOf(c, open), matched, open.remaining) == CarryOf(c, open) && CarryOf(c, left) == 0.0)
  {}

  lemma RecordedAppend(c: Carry, matches: seq<Match>, m: Match)
    ensures RecordedIn(c, matches + [m]) == RecordedIn(c, matches) + Recorded(c, m)
  {
    assert (matches + [m])[..|matches|] == matches;
  }

  /** At most two cleanings for each of `n` matches. */
  ghost predicate WithinCleaning(x: real, n: int) { Abs(x) <= 2.0 * CLEAN_LIMIT * n as real }

  lemma WithinAdds(x: real, y: real, n: int, m: int)
    requires WithinCleaning(x, n) && WithinCleaning(y, m)
    ensures WithinCleaning(x + y, n + m)
  {
    assert (n + m) as real == n as real + m as real;
  }

  /** What open lots hold and closed matches recorded. */
  function Balance(c: Carry, k: Closing): real { HeldIn(c, k.lots) + RecordedIn(c, k.matches) }

  lemma ReducedCarry(open: OpenLot, order: Order, quantity: real, rates: Rates, c: Carry)
    requires quantity + QUANTITY_EPSILON < open.remaining ==> open.remaining != 0.0
    ensures var out := Released(CarryOf(c, open), quantity, open.remaining);
            && CarryOf(c, Reduced(open, quantity)) == CleanZero(CarryOf(c, open) - out)
            && Recorded(c, MatchOf(open, order, quantity, rates)) == CleanZero(out)
  {
    hide CleanZero, Released;
  }

  lemma CleanedTwice(held: real, out: real)
    ensures Abs(held - CleanZero(held - out) - CleanZero(out)) <= 2.0 * CLEAN_LIMIT
  {}

  lemma HeldHead(c: Carry, lot: OpenLot, lots: seq<OpenLot>)
    ensures HeldIn(c, [lot] + lots) == CarryOf(c, lot) + HeldIn(c, lots)
  {
    assert ([lot] + lots)[1..] == lots;
  }

  /** Two cleanings, one of what is recorded and one of what stays. */
  lemma CloseStepConserves(k: Closing, order: Order, rates: Rates, c: Carry)
    requires k.remaining > QUANTITY_EPSILON && k.lots != []
    ensures var r := CloseStep(k, order, rates);
            WithinCleaning(Balance(c, k) - Balance(c, r), 1) && |r.matches| == |k.matches| + 1
  {
    var open := k.lots[0];
    var matched := Min(k.remaining, open.remaining);
    var left := Reduced(open, matched);
    var out := Released(CarryOf(c, open), matched, open.remaining);
    PoppedReleasesAll(open, k.remaining, c);
    ReducedCarry(open, order, matched, rates, c);
    RecordedAppend(c, k.matches, MatchOf(open, order, matched, rates));
    CleanedTwice(CarryOf(c, open), out);
    HeldHead(c, open, k.lots[1..]);
    HeldHead(c, left, k.lots[1..]);
    hide Released, Reduced, MatchOf, CleanZero, CleanQuantity, CarryOf, Recorded, RecordedIn, HeldIn;
    assert [open] + k.lots[1..] == k.lots;
  }

  lemma {:induction false} CloseLoopConserves(k: Closing, order: Order, rates: Rates, c: Carry)
    ensures var r := CloseLoop(k, order, rates);
            |r.matches| >= |k.matches| && WithinCleaning(Balance(c, k) - Balance(c, r), |r.matches| - |k.matches|)
    decreases |k.lots|, k.remaining > QUANTITY_EPSILON
  {
    hide Balance;
    if k.remaining > QUANTITY_EPSILON && k.lots != [] {
      var n := CloseStep(k, order, rates);
      var r := CloseLoop(n, order, rates);
      CloseStepConserves(k, order, rates, c);
      CloseLoopConserves(n, order, rates, c);
      hide CloseStep, WithinCleaning;
      WithinAdds(Balance(c, k) - Balance(c, n), Balance(c, n) - Balance(c, r), 1, |r.matches| - |n.matches|);
      assert Balance(c, k) - Balance(c, n) + (Balance(c, n) - Balance(c, r)) == Balance(c, k) - Balance(c, r);
      assert 1 + (|r.matches| - |n.matches|) == |r.matches| - |k.matches|;
    }
  }

  lemma {:induction false} HeldAppend(c: Carry, lots: seq<OpenLot>, more: seq<OpenLot>)
    ensures HeldIn(c, lots + more) == HeldIn(c, lots) + HeldIn(c, more)
    decreases |lots|
  {
    if lots == [] {
      assert lots + more == more;
    } else {
      assert (lots + more)[1..] == lots[1..] + more;
      HeldAppend(c, lots[1..], more);
    }
  }

  lemma {:induction false} RecordedConcat(c: Carry, xs: seq<Match>, ys: seq<Match>)
    ensures RecordedIn(c, xs + ys) == RecordedIn(c, xs) + RecordedIn(c, ys)
    decreases |ys|
  {
    if ys == [] {
      assert xs + ys == xs;
    } else {
      assert (xs + ys)[..|xs + ys| - 1] == xs + ys[..|ys| - 1];
      RecordedConcat(c, xs, ys[..|ys| - 1]);
    }
  }

  function Opposite(s: Lots, order: Order): seq<OpenLot> {
    if order.direction == Positive then s.reverse else s.positive
  }

  /** What a symbol gives up to an order is what the closing lots and their matches lose; the new lot holds nothing. */
  lemma OrderBalance(s: Lots, order: Order, rates: Rates, c: Carry)
    ensures var k := Closing(Opposite(s, order), order.quantity, []);
            var (r, matches) := ApplyOrder(s, order, rates);
            && HeldBy(c)(s) - HeldBy(c)(r) - RecordedIn(c, matches)
               == Balance(c, k) - Balance(c, CloseLoop(k, order, rates))
            && matches == CloseLoop(k, order, rates).matches
  {
    var k := Closing(Opposite(s, order), order.quantity, []);
    var left := CloseLoop(k, order, rates);
    var own := if order.direction == Positive then s.positive else s.reverse;
    var lots := if left.remaining > QUANTITY_EPSILON then [LotOf(order, left.remaining)] else [];
    NewLotHolds(c, lots, order, left.remaining);
    HeldAppend(c, own, lots);
    hide CloseLoop, HeldIn, LotOf;
    assert RecordedIn(c, []) == 0.0;
  }

  lemma NewLotHolds(c: Carry, lots: seq<OpenLot>, order: Order, remaining: real)
    requires lots == [] || lots == [LotOf(order, remaining)]
    ensures HeldIn(c, lots) == 0.0
  {}

  lemma ApplyOrderConserves(s: Lots, order: Order, rates: Rates, c: Carry)
    ensures var (r, matches) := ApplyOrder(s, order, rates);
            WithinCleaning(HeldBy(c)(s) - HeldBy(c)(r) - RecordedIn(c, matches), |matches|)
  {
    hide *;
    OrderBalance(s, order, rates, c);
    CloseLoopConserves(Closing(Opposite(s, order), order.quantity, []), order, rates, c);
  }

  // ---- Allocation adds exactly what it accepts

  ghost predicate AdditiveAt(share: real -> real, x: real, y: real) { share(x + y) == share(x) + share(y) }

  ghost predicate Additive(share: real -> real) {
    share(0.0) == 0.0 && forall x, y :: AdditiveAt(share, x, y)
  }

  lemma ShareIsAdditive(amount: real, total: real)
    requires total != 0.0
    ensures Additive(Share(amount, total)) && Share(amount, total)(total) == amount
  {
    var share := Share(amount, total);
    forall x, y ensures AdditiveAt(share, x, y) {
      assert amount * (x + y) == amount * x + amount * y;
      DivideSum(amount * x, amount * y, total);
    }
    DivideBack(amount, total);
  }

  lemma DivideSum(x: real, y: real, d: real)
    requires d != 0.0
    ensures (x + y) / d == x / d + y / d
  {}

  lemma DivideBack(x: real, d: real)
    requires d != 0.0
    ensures x * d / d == x
  {}

  lemma {:induction false} AddFundingHeld(lots: seq<OpenLot>, share: real -> real, c: Carry)
    requires Additive(share)
    ensures HeldIn(c, AddFunding(lots, share))
            == HeldIn(c, lots) + (if c == FundingCarry then share(FuturesNotional(lots)) else 0.0)
    decreases |lots|
  {
    if lots != [] {
      AddFundingHeld(lots[1..], share, c);
      assert AddFunding(lots, share)[1..] == AddFunding(lots[1..], share);
      assert AdditiveAt(share, lots[0].remaining * lots[0].futuresPrice, FuturesNotional(lots[1..]));
    }
  }

  lemma {:induction false} AddInterestHeld(lots: seq<OpenLot>, share: real -> real, c: Carry)
    requires Additive(share)
    ensures HeldIn(c, AddInterest(lots, share))
            == HeldIn(c, lots) + (if c == InterestCarry then share(SpotNotional(lots)) else 0.0)
    decreases |lots|
  {
    if lots != [] {
      AddInterestHeld(lots[1..], share, c);
      assert AddInterest(lots, share)[1..] == AddInterest(lots[1..], share);
      assert AdditiveAt(share, lots[0].remaining * lots[0].spotPrice, SpotNotional(lots[1..]));
    }
  }

  lemma AddFundingLots(s: Lots, share: real -> real, c: Carry)
    requires Additive(share)
    ensures HeldBy(c)(Lots(AddFunding(s.positive, share), AddFunding(s.reverse, share)))
            == HeldBy(c)(s) + (if c == FundingCarry then share(OpenFutures(s)) else 0.0)
  {
    AddFundingHeld(s.positive, share, c);
    AddFundingHeld(s.reverse, share, c);
    assert AdditiveAt(share, FuturesNotional(s.positive), FuturesNotional(s.reverse));
  }

  lemma AllocateFundingAdds(states: States, symbol: string, amount: real, c: Carry)
    ensures SumOver(AllocateFunding(states, symbol, amount), HeldBy(c))
            == SumOver(states, HeldBy(c))
               + (if c == FundingCarry && TakesFunding(states, symbol) then amount else 0.0)
  {
    if TakesFunding(states, symbol) {
      var s := states[symbol];
      var share := Share(amount, OpenFutures(s));
      ShareIsAdditive(amount, OpenFutures(s));
      AddFundingLots(s, share, c);
      SumUpdate(states, symbol, Lots(AddFunding(s.positive, share), AddFunding(s.reverse, share)), HeldBy(c));
    }
    hide Share, AddFunding, OpenFutures, HeldBy, SumOver, Additive;
  }

  lemma SpreadOne(s: Lots, share: real -> real, c: Carry)
    requires Additive(share)
    ensures HeldBy(c)(s.(positive := AddInterest(s.positive, share)))
            == HeldBy(c)(s) + (if c == InterestCarry then share(PositiveSpot()(s)) else 0.0)
  {
    AddInterestHeld(s.positive, share, c);
  }

  lemma ShareOfSum(share: real -> real, x: real, y: real)
    requires Additive(share)
    ensures share(x + y) == share(x) + share(y)
  {
    assert AdditiveAt(share, x, y);
  }

  ghost predicate ShiftedAt<V(!new)>(m: map<string, V>, n: map<string, V>, h: V -> real, g: V -> real,
                                     share: real -> real, k: string)
  {
    k in m && k in n && h(n[k]) == h(m[k]) + share(g(m[k]))
  }

  lemma {:induction false} SumShift<V(!new)>(
    m: map<string, V>, n: map<string, V>, keys: set<string>, h: V -> real, g: V -> real, share: real -> real)
    requires Additive(share) && keys <= m.Keys && keys <= n.Keys
    requires forall k :: k in keys ==> ShiftedAt(m, n, h, g, share, k)
    ensures SumKeys(n, keys, h) == SumKeys(m, keys, h) + share(SumKeys(m, keys, g))
    decreases |keys|
  {
    if keys != {} {
      hide SumKeys, Additive;
      var k :| k in keys;
      SumSplit(n, keys, h, k);
      SumSplit(m, keys, h, k);
      SumSplit(m, keys, g, k);
      SumShift(m, n, keys - {k}, h, g, share);
      assert ShiftedAt(m, n, h, g, share, k);
      ShareOfSum(share, g(m[k]), SumKeys(m, keys - {k}, g));
    }
  }

  /** Spreading over every symbol adds up over the whole map. */
  lemma SpreadHeld(states: States, spread: States, share: real -> real, c: Carry)
    requires Additive(share) && spread.Keys == states.Keys
    requires forall k :: k in states ==> spread[k] == states[k].(positive := AddInterest(states[k].positive, share))
    ensures SumOver(spread, HeldBy(c))
            == SumOver(states, HeldBy(c))
               + (if c == InterestCarry then share(SumOver(states, PositiveSpot())) else 0.0)
  {
    forall k | k in states
      ensures HeldBy(c)(spread[k])
              == HeldBy(c)(states[k]) + (if c == InterestCarry then share(PositiveSpot()(states[k])) else 0.0)
    {
      SpreadOne(states[k], share, c);
    }
    if c == InterestCarry {
      assert forall k :: k in states.Keys ==> ShiftedAt(states, spread, HeldBy(c), PositiveSpot(), share, k);
      SumShift(states, spread, states.Keys, HeldBy(c), PositiveSpot(), share);
    } else {
      SumAgree(spread, states, states.Keys, HeldBy(c));
    }
  }

  lemma AllocateInterestAdds(states: States, symbol: Option<string>, cost: Option<real>, c: Carry)
    ensures SumOver(AllocateInterest(states, symbol, cost), HeldBy(c))
            == SumOver(states, HeldBy(c))
               + (if c == InterestCarry && TakesInterest(states, symbol, cost) then cost.value else 0.0)
  {
    if TakesInterest(states, symbol, cost) {
      var share := Share(cost.value, InterestBase(states, symbol));
      ShareIsAdditive(cost.value, InterestBase(states, symbol));
      match symbol
      case Some(s) =>
        AddInterestHeld(states[s].reverse, share, c);
        SumUpdate(states, s, states[s].(reverse := AddInterest(states[s].reverse, share)), HeldBy(c));
      case None =>
        var spread := AllocateInterest(states, symbol, cost);
        assert spread.Keys == states.Keys;
        SpreadHeld(states, spread, share, c);
    }
  }

  /** Carry that left the open lots and the records between two states, before counting what came in. */
  ghost function Drift(c: Carry, a: Analysis, r: Analysis): real {
    SumOver(r.states, HeldBy(c)) + RecordedIn(c, r.matches) - SumOver(a.states, HeldBy(c)) - RecordedIn(c, a.matches)
  }

  lemma StepConserves(a: Analysis, ev: CarryEvent, rates: Rates, c: Carry)
    ensures var r := Step(a, ev, rates);
            && |r.matches| >= |a.matches|
            && WithinCleaning(Accepted(c, a, ev) - Drift(c, a, r), |r.matches| - |a.matches|)
  {
    hide ApplyOrder, AllocateFunding, AllocateInterest, SumOver, HeldBy, RecordedIn, TakesFunding, TakesInterest;
    match ev
    case OrderEvent(o) =>
      if o.symbol in a.states {
        var s := a.states[o.symbol];
        var (lots, matches) := ApplyOrder(s, o, rates);
        ApplyOrderConserves(s, o, rates, c);
        SumUpdate(a.states, o.symbol, lots, HeldBy(c));
        RecordedConcat(c, a.matches, matches);
      }
    case FundingEvent(symbol, amount) => AllocateFundingAdds(a.states, symbol, amount, c);
    case InterestEvent(symbol, cost) => AllocateInterestAdds(a.states, symbol, cost, c);
  }

  /**
   Carry conservation: over any interleaving of orders, funding and interest, what allocation accepted is what
   the open lots and the closed matches gained, within two cleanings a match.
   */
  lemma {:induction false} CarryConserved(a: Analysis, events: seq<CarryEvent>, rates: Rates, c: Carry)
    ensures var r := Run(a, events, rates);
            && |r.matches| >= |a.matches|
            && WithinCleaning(AcceptedIn(c, a, events, rates) - Drift(c, a, r), |r.matches| - |a.matches|)
    decreases |events|
  {
    if events != [] {
      var init := events[..|events| - 1];
      var ev := events[|events| - 1];
      var m := Run(a, init, rates);
      var r := Step(m, ev, rates);
      CarryConserved(a, init, rates, c);
      StepConserves(m, ev, rates, c);
      WithinAdds(AcceptedIn(c, a, init, rates) - Drift(c, a, m), Accepted(c, m, ev) - Drift(c, m, r),
                 |m.matches| - |a.matches|, |r.matches| - |m.matches|);
    }
  }
}
