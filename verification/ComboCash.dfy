/**
 What combinations earn, in the prices of their legs. A positive combination has bought spot and sold futures, a
 reverse one the other way round; every match earns what those two legs earned between its two orders, and over any
 run recorded PnL and open lots add up to what the orders alone have earned at any mark.
 */
module ComboCash {
  import opened Prelude
  import opened ComboFifo
  import opened ComboAccounting
  import opened ComboShares

  /** What both legs of `quantity` earn when spot and futures move from the first two prices to the last two. */
  function Legs(d: ArbDirection, quantity: real, spot: real, futures: real, spotNow: real, futuresNow: real): real {
    match d
    case Positive => quantity * ((spotNow - spot) + (futures - futuresNow))
    case Reverse => quantity * ((spot - spotNow) + (futuresNow - futures))
  }

  // ---- Where lots and matches come from

  /** A lot without what changes while it is open. */
  function Fixed(lot: OpenLot): OpenLot { lot.(remaining := 0.0, funding := 0.0, interest := 0.0) }

  function Origins(lots: seq<OpenLot>): set<OpenLot> { set lot | lot in lots :: Fixed(lot) }

  lemma OriginsSplit(x: seq<OpenLot>, y: seq<OpenLot>)
    ensures Origins(x + y) == Origins(x) + Origins(y)
  {
    assert forall lot :: lot in x + y <==> lot in x || lot in y;
  }

  lemma SameOrigins(x: seq<OpenLot>, y: seq<OpenLot>)
    requires |x| == |y| && forall i :: 0 <= i < |x| ==> Fixed(y[i]) == Fixed(x[i])
    ensures Origins(y) == Origins(x)
  {
    forall lot | lot in y ensures Fixed(lot) in Origins(x) {
      var i :| 0 <= i < |y| && y[i] == lot;
      assert x[i] in x;
    }
    forall lot | lot in x ensures Fixed(lot) in Origins(y) {
      var i :| 0 <= i < |x| && x[i] == lot;
      assert y[i] in y;
    }
  }

  lemma ReducedOrigin(k: Closing, order: Order, rates: Rates)
    requires k.remaining > QUANTITY_EPSILON && k.lots != []
    ensures Origins(CloseStep(k, order, rates).lots) <= Origins(k.lots)
  {
    var left := Reduced(k.lots[0], Min(k.remaining, k.lots[0].remaining));
    assert Fixed(left) == Fixed(k.lots[0]);
    assert k.lots[0] in k.lots;
    assert forall lot :: lot in k.lots[1..] ==> lot in k.lots;
    hide Reduced, Released, Min, MatchOf;
  }

  lemma {:induction false} CloseLoopOrigins(k: Closing, order: Order, rates: Rates)
    ensures Origins(CloseLoop(k, order, rates).lots) <= Origins(k.lots)
    decreases |k.lots|, k.remaining > QUANTITY_EPSILON
  {
    if k.remaining > QUANTITY_EPSILON && k.lots != [] {
      ReducedOrigin(k, order, rates);
      hide CloseStep, Origins;
      CloseLoopOrigins(CloseStep(k, order, rates), order, rates);
    }
  }

  /** The states once funding or interest has been spread. */
  ghost function Spread(states: States, ev: CarryEvent): States
    requires !ev.OrderEvent?
  {
    match ev
    case FundingEvent(symbol, amount) => AllocateFunding(states, symbol, amount)
    case InterestEvent(scope, cost) => AllocateInterest(states, scope, cost)
  }

  /** Spreading funding or interest leaves every lot where it was opened, with its quantity. */
  ghost predicate OnlyCarry(before: seq<OpenLot>, after: seq<OpenLot>) {
    |after| == |before|
    && forall i :: 0 <= i < |before| ==>
         after[i] == before[i].(funding := after[i].funding, interest := after[i].interest)
  }

  lemma SpreadOnlyCarry(states: States, ev: CarryEvent, k: string)
    requires !ev.OrderEvent? && k in states
    ensures var r := Spread(states, ev);
            && r.Keys == states.Keys
            && OnlyCarry(states[k].positive, r[k].positive) && OnlyCarry(states[k].reverse, r[k].reverse)
  {
    match ev
    case FundingEvent(symbol, amount) =>
      FundingByNotional(states, symbol, amount);
      hide AllocateFunding, TakesFunding, FundingShared, LotsOf;
    case InterestEvent(scope, cost) =>
      match scope {
        case Some(s) => SymbolInterestByNotional(states, s, cost);
        case None => SharedInterestByNotional(states, cost);
      }
      hide AllocateInterest, TakesInterest, InterestShared;
  }

  lemma CarryKeepsOrigins(before: seq<OpenLot>, after: seq<OpenLot>)
    requires OnlyCarry(before, after)
    ensures Origins(after) == Origins(before)
  {
    SameOrigins(before, after);
  }

  lemma QueueOrigins(states: States, ev: CarryEvent, k: string)
    requires !ev.OrderEvent? && k in states
    ensures var r := Spread(states, ev);
            && r.Keys == states.Keys
            && Origins(r[k].positive) == Origins(states[k].positive)
            && Origins(r[k].reverse) == Origins(states[k].reverse)
  {
    SpreadOnlyCarry(states, ev, k);
    hide OnlyCarry, Spread, Origins;
    CarryKeepsOrigins(states[k].positive, Spread(states, ev)[k].positive);
    CarryKeepsOrigins(states[k].reverse, Spread(states, ev)[k].reverse);
  }

  // ---- One match

  /** The match that `close` made against `quantity` of what `open` had opened, in their prices. */
  ghost predicate MadeFrom(m: Match, open: Order, close: Order, rates: Rates) {
    && open.direction != close.direction && m.symbol == close.symbol && m.openDirection == open.direction
    && m.openFkey == open.fkey && m.closeFkey == close.fkey && m.closedAtMs == close.completedAtMs
    && EarnedBetween(m, open, close) && ChargedOn(m, open, close, rates) && MarketBetween(m, open, close)
  }

  ghost predicate EarnedBetween(m: Match, open: Order, close: Order) {
    && m.pnl == Legs(open.direction, m.quantity, open.spotPrice, open.futuresPrice, close.spotPrice, close.futuresPrice)
    && m.notional == m.quantity * (open.spotPrice + close.spotPrice) / 2.0
  }

  /** Fees are taken on all four legs, at the symbol's own rate and at the reference rate in basis points. */
  ghost predicate ChargedOn(m: Match, open: Order, close: Order, rates: Rates) {
    var traded := m.quantity * (open.spotPrice + open.futuresPrice + close.spotPrice + close.futuresPrice);
    && m.tradingFee == traded * (if close.symbol in rates.actual then rates.actual[close.symbol] else 0.0)
    && m.referenceFee == traded * rates.reference / 10000.0
  }

  /** The market part is the move of the premium basis; the rest of the PnL is execution. */
  ghost predicate MarketBetween(m: Match, open: Order, close: Order) {
    if open.premium.None? || close.premium.None? then m.marketPnl.None? && m.executionPnl.None?
    else
      var entry, exit := open.spotPrice * open.premium.value, close.spotPrice * close.premium.value;
      && m.marketPnl.Some? && m.executionPnl.Some?
      && m.marketPnl.value == m.quantity * (if open.direction == Positive then entry - exit else exit - entry)
      && m.marketPnl.value + m.executionPnl.value == m.pnl
  }

  /** The lot is what is left of `o`. */
  ghost predicate LeftBy(lot: OpenLot, o: Order) { Fixed(lot) == Fixed(LotOf(o, 0.0)) }

  lemma LegsOfSign(d: ArbDirection, q: real, spot: real, futures: real, spotNow: real, futuresNow: real)
    ensures q * d.Sign() * (Basis(spot, futures) - Basis(spotNow, futuresNow))
            == Legs(d, q, spot, futures, spotNow, futuresNow)
  {
    if d == Reverse {
      var x := Basis(spot, futures) - Basis(spotNow, futuresNow);
      assert q * -1.0 * x == q * -x;
    }
  }

  lemma SignedMarket(d: ArbDirection, q: real, x: real, y: real)
    ensures q * d.Sign() * (x - y) == q * (if d == Positive then x - y else y - x)
  {
    if d == Reverse {
      assert q * -1.0 * (x - y) == q * -(x - y);
    }
  }

  lemma LeftByFields(lot: OpenLot, o: Order)
    requires LeftBy(lot, o)
    ensures lot.fkey == o.fkey && lot.direction == o.direction && lot.premium == o.premium
    ensures lot.spotPrice == o.spotPrice && lot.futuresPrice == o.futuresPrice
  {
    assert Fixed(lot).fkey == o.fkey && Fixed(lot).premium == o.premium && Fixed(lot).direction == o.direction;
    assert Fixed(lot).spotPrice == o.spotPrice && Fixed(lot).futuresPrice == o.futuresPrice;
  }

  lemma MatchMarket(lot: OpenLot, open: Order, close: Order, quantity: real, rates: Rates)
    requires quantity + QUANTITY_EPSILON < lot.remaining ==> lot.remaining != 0.0
    requires lot.direction == open.direction != close.direction
    requires lot.premium == open.premium && lot.spotPrice == open.spotPrice
    ensures MarketBetween(MatchOf(lot, close, quantity, rates), open, close)
  {
    MatchDecomposed(lot, close, quantity, rates);
    if open.premium.Some? && close.premium.Some? {
      var entry, exit := open.spotPrice * open.premium.value, close.spotPrice * close.premium.value;
      SignedMarket(open.direction, quantity, entry, exit);
    }
    hide Released, ExecutionPnl, Basis;
  }

  lemma MatchEarned(lot: OpenLot, open: Order, close: Order, quantity: real, rates: Rates)
    requires quantity + QUANTITY_EPSILON < lot.remaining ==> lot.remaining != 0.0
    requires lot.direction == open.direction
    requires lot.spotPrice == open.spotPrice && lot.futuresPrice == open.futuresPrice
    ensures EarnedBetween(MatchOf(lot, close, quantity, rates), open, close)
  {
    LegsOfSign(open.direction, quantity, open.spotPrice, open.futuresPrice, close.spotPrice, close.futuresPrice);
    hide Legs, Released, ExecutionPnl, MarketPnl, Basis;
  }

  lemma MatchCharged(lot: OpenLot, open: Order, close: Order, quantity: real, rates: Rates)
    requires quantity + QUANTITY_EPSILON < lot.remaining ==> lot.remaining != 0.0
    requires lot.spotPrice == open.spotPrice && lot.futuresPrice == open.futuresPrice
    ensures ChargedOn(MatchOf(lot, close, quantity, rates), open, close, rates)
  {
    hide Released, ExecutionPnl, MarketPnl, Basis;
  }

  lemma MatchNames(lot: OpenLot, open: Order, close: Order, quantity: real, rates: Rates)
    requires quantity + QUANTITY_EPSILON < lot.remaining ==> lot.remaining != 0.0
    requires lot.direction == open.direction && lot.fkey == open.fkey
    ensures var m := MatchOf(lot, close, quantity, rates);
            && m.symbol == close.symbol && m.openDirection == open.direction
            && m.openFkey == open.fkey && m.closeFkey == close.fkey && m.closedAtMs == close.completedAtMs
            && m.quantity == quantity
  {
    hide Released, ExecutionPnl, MarketPnl, Basis;
  }

  lemma MatchIsMade(lot: OpenLot, open: Order, close: Order, quantity: real, rates: Rates)
    requires quantity + QUANTITY_EPSILON < lot.remaining ==> lot.remaining != 0.0
    requires LeftBy(lot, open) && open.direction != close.direction
    ensures MadeFrom(MatchOf(lot, close, quantity, rates), open, close, rates)
  {
    hide Legs, Released, EarnedBetween, ChargedOn, MarketBetween, MatchOf, LeftBy;
    LeftByFields(lot, open);
    MatchNames(lot, open, close, quantity, rates);
    MatchEarned(lot, open, close, quantity, rates);
    MatchCharged(lot, open, close, quantity, rates);
    MatchMarket(lot, open, close, quantity, rates);
  }

  // ---- The matches of one order

  /** The match closes some of this lot and earns what its legs have earned up to the order's prices. */
  ghost predicate Closes(m: Match, lot: OpenLot, order: Order) {
    && m.openFkey == lot.fkey && m.closeFkey == order.fkey && m.symbol == order.symbol
    && m.pnl == Legs(lot.direction, m.quantity, lot.spotPrice, lot.futuresPrice, order.spotPrice, order.futuresPrice)
  }

  /** The matches after `before` close the lots in their order, one each. */
  ghost predicate ClosesInTurn(lots: seq<OpenLot>, order: Order, before: seq<Match>, after: seq<Match>) {
    && |before| <= |after| <= |before| + |lots| && after[..|before|] == before
    && forall i :: 0 <= i < |after| - |before| ==> Closes(after[|before| + i], lots[i], order)
  }

  lemma ClosesCons(lots: seq<OpenLot>, order: Order, before: seq<Match>, m: Match, after: seq<Match>)
    requires lots != [] && Closes(m, lots[0], order) && ClosesInTurn(lots[1..], order, before + [m], after)
    ensures ClosesInTurn(lots, order, before, after)
  {
    hide Closes;
    assert after[|before|] == (before + [m])[|before|];
    assert after[..|before|] == (before + [m])[..|before|];
    forall i | 0 <= i < |after| - |before| ensures Closes(after[|before| + i], lots[i], order) {
      assert i > 0 ==> Closes(after[|before + [m]| + (i - 1)], lots[1..][i - 1], order);
    }
  }

  lemma MatchCloses(lot: OpenLot, order: Order, q: real, rates: Rates)
    requires q + QUANTITY_EPSILON < lot.remaining ==> lot.remaining != 0.0
    ensures Closes(MatchOf(lot, order, q, rates), lot, order)
  {
    LegsOfSign(lot.direction, q, lot.spotPrice, lot.futuresPrice, order.spotPrice, order.futuresPrice);
    hide Legs, Released, ExecutionPnl, MarketPnl, Basis;
  }

  lemma StepMatches(k: Closing, order: Order, rates: Rates)
    requires k.remaining > QUANTITY_EPSILON && k.lots != []
    ensures var n := CloseStep(k, order, rates); var q := Min(k.remaining, k.lots[0].remaining);
            && n.matches == k.matches + [MatchOf(k.lots[0], order, q, rates)]
            && (n.lots == k.lots[1..] || CloseLoop(n, order, rates) == n)
  {
    hide MatchOf, Released;
  }

  /** An order closes the opposite lots from the oldest on, each at what its legs have earned. */
  lemma {:induction false} CloseLoopCloses(k: Closing, order: Order, rates: Rates)
    ensures ClosesInTurn(k.lots, order, k.matches, CloseLoop(k, order, rates).matches)
    decreases |k.lots|, k.remaining > QUANTITY_EPSILON
  {
    if k.remaining > QUANTITY_EPSILON && k.lots != [] {
      var n, q := CloseStep(k, order, rates), Min(k.remaining, k.lots[0].remaining);
      var m := MatchOf(k.lots[0], order, q, rates);
      StepMatches(k, order, rates);
      MatchCloses(k.lots[0], order, q, rates);
      hide CloseStep, MatchOf, Closes, Min;
      if n.lots == k.lots[1..] {
        CloseLoopCloses(n, order, rates);
      }
      ClosesCons(k.lots, order, k.matches, m, CloseLoop(n, order, rates).matches);
    }
  }

  // ---- Every match of a run is made from two of its orders

  /** The orders of a symbol among these events. */
  function OrdersIn(events: seq<CarryEvent>, symbol: string): set<Order> {
    set ev | ev in events && ev.OrderEvent? && ev.order.symbol == symbol :: ev.order
  }

  /** Each of these lots was opened, in this direction, by one of the orders. */
  ghost predicate OpenedBy(origins: set<OpenLot>, orders: set<Order>, d: ArbDirection) {
    forall x :: x in origins ==> exists o :: o in orders && o.direction == d && x == Fixed(LotOf(o, 0.0))
  }

  ghost predicate MadeOfSome(m: Match, orders: set<Order>, close: Order, rates: Rates) {
    exists o :: o in orders && MadeFrom(m, o, close, rates)
  }

  lemma CloseStepMade(k: Closing, order: Order, rates: Rates, orders: set<Order>, d: ArbDirection)
    requires k.remaining > QUANTITY_EPSILON && k.lots != []
    requires OpenedBy(Origins(k.lots), orders, d) && d != order.direction
    ensures var n := CloseStep(k, order, rates);
            && n.matches[..|n.matches| - 1] == k.matches
            && MadeOfSome(n.matches[|n.matches| - 1], orders, order, rates)
  {
    var lot := k.lots[0];
    assert lot in k.lots && Fixed(lot) in Origins(k.lots);
    var o :| o in orders && o.direction == d && Fixed(lot) == Fixed(LotOf(o, 0.0));
    assert LeftBy(lot, o);
    MatchIsMade(lot, o, order, Min(k.remaining, lot.remaining), rates);
    hide MadeFrom, MatchOf, Fixed, LeftBy, Reduced;
  }

  lemma {:induction false} CloseLoopMade(k: Closing, order: Order, rates: Rates, orders: set<Order>, d: ArbDirection)
    requires OpenedBy(Origins(k.lots), orders, d) && d != order.direction
    ensures forall m :: m in CloseLoop(k, order, rates).matches ==>
              m in k.matches || MadeOfSome(m, orders, order, rates)
    decreases |k.lots|, k.remaining > QUANTITY_EPSILON
  {
    if k.remaining > QUANTITY_EPSILON && k.lots != [] {
      var n := CloseStep(k, order, rates);
      CloseStepMade(k, order, rates, orders, d);
      ReducedOrigin(k, order, rates);
      hide CloseStep, MadeOfSome, Origins;
      CloseLoopMade(n, order, rates, orders, d);
      InitAndLast(n.matches);
    }
  }

  /** The match was made by one of the events, an order, against an earlier order of its symbol. */
  ghost predicate MatchedIn(m: Match, events: seq<CarryEvent>, rates: Rates) {
    exists j: nat :: j < |events| && events[j].OrderEvent?
      && MadeOfSome(m, OrdersIn(events[..j], events[j].order.symbol), events[j].order, rates)
  }

  /** Lots and matches come from the orders among the events. */
  ghost predicate Traced(a: Analysis, events: seq<CarryEvent>, rates: Rates) {
    && (forall s :: s in a.states ==> OpenedBy(Origins(a.states[s].positive), OrdersIn(events, s), Positive))
    && (forall s :: s in a.states ==> OpenedBy(Origins(a.states[s].reverse), OrdersIn(events, s), Reverse))
    && (forall m :: m in a.matches ==> MatchedIn(m, events, rates))
  }

  lemma MatchedMore(m: Match, events: seq<CarryEvent>, ev: CarryEvent, rates: Rates)
    requires MatchedIn(m, events, rates)
    ensures MatchedIn(m, events + [ev], rates)
  {
    var j: nat :| j < |events| && events[j].OrderEvent?
      && MadeOfSome(m, OrdersIn(events[..j], events[j].order.symbol), events[j].order, rates);
    hide MadeOfSome, OrdersIn;
    assert (events + [ev])[..j] == events[..j] && (events + [ev])[j] == events[j];
  }

  lemma OrdersMore(events: seq<CarryEvent>, ev: CarryEvent, symbol: string)
    ensures OrdersIn(events + [ev], symbol)
            == OrdersIn(events, symbol) + (if ev.OrderEvent? && ev.order.symbol == symbol then {ev.order} else {})
  {
    assert forall x :: x in events + [ev] <==> x in events || x == ev;
  }

  lemma OpenedMore(origins: set<OpenLot>, more: set<OpenLot>, orders: set<Order>, all: set<Order>, d: ArbDirection)
    requires OpenedBy(origins, orders, d) && orders <= all && more <= origins
    ensures OpenedBy(more, all, d)
  {
    hide Fixed, LotOf;
  }

  /** Where the lots of the two queues come from after an order. */
  lemma OrderOpened(s: Lots, order: Order, rates: Rates, orders: set<Order>)
    requires OpenedBy(Origins(s.positive), orders, Positive) && OpenedBy(Origins(s.reverse), orders, Reverse)
    ensures var r := ApplyOrder(s, order, rates).0; var all := orders + {order};
            OpenedBy(Origins(r.positive), all, Positive) && OpenedBy(Origins(r.reverse), all, Reverse)
  {
    var k := Closing(Opposite(s, order), order.quantity, []);
    var c := CloseLoop(k, order, rates);
    CloseLoopOrigins(k, order, rates);
    var own := if order.direction == Positive then s.positive else s.reverse;
    var lot := if c.remaining > QUANTITY_EPSILON then [LotOf(order, c.remaining)] else [];
    var all := orders + {order};
    OriginsSplit(own, lot);
    assert OpenedBy(Origins(lot), all, order.direction) by {
      assert Fixed(LotOf(order, c.remaining)) == Fixed(LotOf(order, 0.0));
    }
    var other := if order.direction == Positive then Reverse else Positive;
    OpenedMore(Origins(own), Origins(own), orders, all, order.direction);
    OpenedMore(Origins(k.lots), Origins(c.lots), orders, all, other);
    hide CloseLoop, Fixed, Origins, LotOf;
    assert OpenedBy(Origins(own) + Origins(lot), all, order.direction);
  }

  lemma OrderMatched(s: Lots, order: Order, rates: Rates, orders: set<Order>)
    requires OpenedBy(Origins(s.positive), orders, Positive) && OpenedBy(Origins(s.reverse), orders, Reverse)
    ensures forall m :: m in ApplyOrder(s, order, rates).1 ==> MadeOfSome(m, orders, order, rates)
  {
    var k := Closing(Opposite(s, order), order.quantity, []);
    CloseLoopMade(k, order, rates, orders, if order.direction == Positive then Reverse else Positive);
    hide CloseLoop, MadeOfSome, OpenedBy, Origins;
  }

  lemma StepTraced(a: Analysis, events: seq<CarryEvent>, ev: CarryEvent, rates: Rates)
    requires Traced(a, events, rates)
    ensures Traced(Step(a, ev, rates), events + [ev], rates)
  {
    var r, all := Step(a, ev, rates), events + [ev];
    forall s | s in r.states
      ensures OpenedBy(Origins(r.states[s].positive), OrdersIn(all, s), Positive)
      ensures OpenedBy(Origins(r.states[s].reverse), OrdersIn(all, s), Reverse)
    {
      StepOpened(a, events, ev, rates, s);
    }
    forall m | m in r.matches ensures MatchedIn(m, all, rates) {
      if m in a.matches {
        MatchedMore(m, events, ev, rates);
      } else {
        var o := ev.order;
        OrderMatched(a.states[o.symbol], o, rates, OrdersIn(events, o.symbol));
        hide ApplyOrder, MadeOfSome, OrdersIn;
        assert all[|events|] == ev && all[..|events|] == events;
      }
    }
  }

  lemma StepOpened(a: Analysis, events: seq<CarryEvent>, ev: CarryEvent, rates: Rates, s: string)
    requires Traced(a, events, rates) && s in Step(a, ev, rates).states
    ensures var r, all := Step(a, ev, rates).states[s], OrdersIn(events + [ev], s);
            OpenedBy(Origins(r.positive), all, Positive) && OpenedBy(Origins(r.reverse), all, Reverse)
  {
    var orders, all := OrdersIn(events, s), OrdersIn(events + [ev], s);
    OrdersMore(events, ev, s);
    assert s in a.states;
    var x, r := a.states[s], Step(a, ev, rates).states[s];
    match ev {
      case OrderEvent(o) =>
        if o.symbol == s {
          OrderOpened(x, o, rates, orders);
        }
      case FundingEvent(symbol, amount) => QueueOrigins(a.states, ev, s);
      case InterestEvent(scope, cost) => QueueOrigins(a.states, ev, s);
    }
  }

  /** An analysis that has seen nothing yet. */
  function Nothing(symbols: set<string>): Analysis { Analysis(map s | s in symbols :: Lots([], []), []) }

  lemma NothingTraced(symbols: set<string>, rates: Rates)
    ensures Traced(Nothing(symbols), [], rates)
  {
    assert Origins([]) == {};
  }

  /**
   In every run, every match was made by one of its orders against an earlier order of the same symbol and the other
   direction, and its PnL, notional, fees and market part are what the prices of those two orders say.
   */
  lemma {:induction false} RunMatches(symbols: set<string>, events: seq<CarryEvent>, rates: Rates)
    ensures Traced(Run(Nothing(symbols), events, rates), events, rates)
    decreases |events|
  {
    if events == [] {
      NothingTraced(symbols, rates);
    } else {
      var init, last := events[..|events| - 1], events[|events| - 1];
      InitAndLast(events);
      hide Traced, Nothing, Step;
      RunMatches(symbols, init, rates);
      StepTraced(Run(Nothing(symbols), init, rates), init, last, rates);
    }
  }

  // ---- What a run has earned at a mark

  /** A price of each leg. */
  datatype Mark = Mark(spot: real, futures: real)

  function LotCash(lot: OpenLot, mark: Mark): real {
    Legs(lot.direction, lot.remaining, lot.spotPrice, lot.futuresPrice, mark.spot, mark.futures)
  }

  function LotsCash(lots: seq<OpenLot>, mark: Mark): real {
    if lots == [] then 0.0 else LotCash(lots[0], mark) + LotsCash(lots[1..], mark)
  }

  /** What an order's legs have earned by the mark. */
  function OrderCash(o: Order, mark: Mark): real {
    Legs(o.direction, o.quantity, o.spotPrice, o.futuresPrice, mark.spot, mark.futures)
  }

  /** PnL recorded for one symbol. */
  function PnlOf(matches: seq<Match>, symbol: string): real
    decreases |matches|
  {
    if matches == [] then 0.0 else
      var m := matches[|matches| - 1];
      PnlOf(matches[..|matches| - 1], symbol) + (if m.symbol == symbol then m.pnl else 0.0)
  }

  function CountOf(matches: seq<Match>, symbol: string): nat
    decreases |matches|
  {
    if matches == [] then 0 else
      CountOf(matches[..|matches| - 1], symbol) + (if matches[|matches| - 1].symbol == symbol then 1 else 0)
  }

  lemma PnlAppend(matches: seq<Match>, m: Match, symbol: string)
    ensures PnlOf(matches + [m], symbol) == PnlOf(matches, symbol) + (if m.symbol == symbol then m.pnl else 0.0)
    ensures CountOf(matches + [m], symbol) == CountOf(matches, symbol) + (if m.symbol == symbol then 1 else 0)
  {
    assert (matches + [m])[..|matches|] == matches;
  }

  lemma {:induction false} PnlConcat(xs: seq<Match>, ys: seq<Match>, symbol: string)
    ensures PnlOf(xs + ys, symbol) == PnlOf(xs, symbol) + PnlOf(ys, symbol)
    ensures CountOf(xs + ys, symbol) == CountOf(xs, symbol) + CountOf(ys, symbol)
    decreases |ys|
  {
    if ys == [] {
      assert xs + ys == xs;
    } else {
      assert (xs + ys)[..|xs + ys| - 1] == xs + ys[..|ys| - 1];
      PnlConcat(xs, ys[..|ys| - 1], symbol);
    }
  }

  /** The two legs of these prices are within `bound` of the mark's, taken together. */
  ghost predicate Near(spot: real, futures: real, mark: Mark, bound: real) {
    Abs((spot - futures) - (mark.spot - mark.futures)) <= bound
  }

  ghost predicate LotsNear(lots: seq<OpenLot>, mark: Mark, bound: real) {
    forall i :: 0 <= i < |lots| ==> Near(lots[i].spotPrice, lots[i].futuresPrice, mark, bound)
  }

  /** At most `n` times a residue that counts as nothing, marked at `bound` a unit. */
  ghost predicate Residue(x: real, n: int, bound: real) { Abs(x) <= QUANTITY_EPSILON * bound * n as real }

  lemma ResidueAdds(x: real, y: real, n: int, m: int, bound: real)
    requires Residue(x, n, bound) && Residue(y, m, bound)
    ensures Residue(x + y, n + m, bound)
  {
    var unit := QUANTITY_EPSILON * bound;
    assert (n + m) as real == n as real + m as real;
    assert unit * (n as real + m as real) == unit * n as real + unit * m as real;
  }

  /** Two changes, one after the other. */
  lemma ResidueChain(x: real, y: real, z: real, n: int, m: int, total: int, bound: real)
    requires Residue(x - y, n, bound) && Residue(y - z, m, bound) && total == n + m
    ensures Residue(x - z, total, bound)
  {
    ResidueAdds(x - y, y - z, n, m, bound);
    assert x - y + (y - z) == x - z;
  }

  /** Legs of a quantity are those of its parts. */
  lemma LegsCut(d: ArbDirection, q: real, x: real, y: real, spot: real, futures: real, mark: Mark)
    requires q == x + y
    ensures Legs(d, q, spot, futures, mark.spot, mark.futures)
            == Legs(d, x, spot, futures, mark.spot, mark.futures) + Legs(d, y, spot, futures, mark.spot, mark.futures)
  {}

  /** Opposite legs meet: what both earn at any mark is what the first earns at the prices of the second. */
  lemma LegsMeet(d: ArbDirection, e: ArbDirection, q: real, a: Mark, b: Mark, mark: Mark)
    requires d != e
    ensures Legs(d, q, a.spot, a.futures, mark.spot, mark.futures)
            + Legs(e, q, b.spot, b.futures, mark.spot, mark.futures)
            == Legs(d, q, a.spot, a.futures, b.spot, b.futures)
  {}

  /** A residue earns next to nothing. */
  lemma LegsOfDust(d: ArbDirection, q: real, spot: real, futures: real, mark: Mark, bound: real)
    requires 0.0 <= q <= QUANTITY_EPSILON && Near(spot, futures, mark, bound)
    ensures Residue(Legs(d, q, spot, futures, mark.spot, mark.futures), 1, bound)
  {
    var x := if d == Positive then (mark.spot - spot) + (futures - mark.futures)
             else (spot - mark.spot) + (mark.futures - futures);
    assert Legs(d, q, spot, futures, mark.spot, mark.futures) == q * x;
    DustProduct(q, x, bound);
  }

  lemma DustProduct(q: real, x: real, bound: real)
    requires 0.0 <= q <= QUANTITY_EPSILON && Abs(x) <= bound
    ensures Abs(q * x) <= QUANTITY_EPSILON * bound * 1.0
  {
    ProductSign(q, bound - x);
    ProductSign(q, bound + x);
    ProductSign(QUANTITY_EPSILON - q, bound);
  }

  /** A quantity after cleaning, against the quantity before. */
  lemma CleanedLegs(d: ArbDirection, q: real, spot: real, futures: real, mark: Mark, bound: real)
    requires q >= 0.0 && Near(spot, futures, mark, bound)
    ensures Residue(Legs(d, q, spot, futures, mark.spot, mark.futures)
                    - Legs(d, CleanQuantity(q), spot, futures, mark.spot, mark.futures), 1, bound)
  {
    if Abs(q) <= QUANTITY_EPSILON {
      LegsOfDust(d, q, spot, futures, mark, bound);
      assert Legs(d, 0.0, spot, futures, mark.spot, mark.futures) == 0.0;
    } else {
      assert Abs(spot - futures - (mark.spot - mark.futures)) >= 0.0;
      ProductSign(QUANTITY_EPSILON, bound);
    }
  }

  lemma LotsCashHead(lot: OpenLot, lots: seq<OpenLot>, mark: Mark)
    ensures LotsCash([lot] + lots, mark) == LotCash(lot, mark) + LotsCash(lots, mark)
  {
    assert ([lot] + lots)[1..] == lots;
  }

  lemma {:induction false} LotsCashConcat(xs: seq<OpenLot>, ys: seq<OpenLot>, mark: Mark)
    ensures LotsCash(xs + ys, mark) == LotsCash(xs, mark) + LotsCash(ys, mark)
    decreases |xs|
  {
    if xs == [] {
      assert xs + ys == ys;
    } else {
      assert (xs + ys)[1..] == xs[1..] + ys;
      LotsCashConcat(xs[1..], ys, mark);
    }
  }

  /** What the lots being closed, the rest of the order and the matches made have earned. */
  function ClosingCash(k: Closing, order: Order, mark: Mark): real {
    LotsCash(k.lots, mark)
    + Legs(order.direction, k.remaining, order.spotPrice, order.futuresPrice, mark.spot, mark.futures)
    + PnlOf(k.matches, order.symbol)
  }

  lemma MatchPnl(lot: OpenLot, order: Order, q: real, rates: Rates)
    requires q + QUANTITY_EPSILON < lot.remaining ==> lot.remaining != 0.0
    ensures var m := MatchOf(lot, order, q, rates);
            && m.symbol == order.symbol
            && m.pnl == Legs(lot.direction, q, lot.spotPrice, lot.futuresPrice, order.spotPrice, order.futuresPrice)
  {
    LegsOfSign(lot.direction, q, lot.spotPrice, lot.futuresPrice, order.spotPrice, order.futuresPrice);
    hide Legs, Released, ExecutionPnl, MarketPnl, Basis;
  }

  /** The head lot, cut by a match: what is left of it, and what is gone. */
  lemma ReducedCash(lot: OpenLot, q: real, mark: Mark, bound: real)
    requires q <= lot.remaining && Near(lot.spotPrice, lot.futuresPrice, mark, bound)
    requires q + QUANTITY_EPSILON < lot.remaining ==> lot.remaining != 0.0
    ensures var left := Reduced(lot, q);
            && Residue(LotCash(lot, mark) - LotCash(left, mark)
                       - Legs(lot.direction, q, lot.spotPrice, lot.futuresPrice, mark.spot, mark.futures), 1, bound)
            && (left.remaining <= QUANTITY_EPSILON ==> LotCash(left, mark) == 0.0)
  {
    var rest := lot.remaining - q;
    LegsCut(lot.direction, lot.remaining, q, rest, lot.spotPrice, lot.futuresPrice, mark);
    CleanedLegs(lot.direction, rest, lot.spotPrice, lot.futuresPrice, mark, bound);
    assert Legs(lot.direction, 0.0, lot.spotPrice, lot.futuresPrice, mark.spot, mark.futures) == 0.0;
    hide Legs, Released, Residue, Near;
  }

  /** How many matches a closing has made for the symbol of its order. */
  function Made(k: Closing, order: Order): nat { CountOf(k.matches, order.symbol) }

  /** Between two states of a closing at most two residues a match are lost. */
  ghost predicate CashKept(k: Closing, r: Closing, order: Order, mark: Mark, bound: real) {
    Residue(ClosingCash(k, order, mark) - ClosingCash(r, order, mark), 2 * (Made(r, order) - Made(k, order)), bound)
  }

  lemma CashKeptChain(k: Closing, n: Closing, r: Closing, order: Order, mark: Mark, bound: real)
    requires CashKept(k, n, order, mark, bound) && CashKept(n, r, order, mark, bound)
    ensures CashKept(k, r, order, mark, bound)
  {
    var x, y := 2 * (Made(n, order) - Made(k, order)), 2 * (Made(r, order) - Made(n, order));
    hide ClosingCash, Residue, Made;
    ResidueChain(ClosingCash(k, order, mark), ClosingCash(n, order, mark), ClosingCash(r, order, mark),
                 x, y, 2 * (Made(r, order) - Made(k, order)), bound);
  }

  /** What a match takes from the head lot and from the order, less its PnL: a residue of each. */
  lemma MatchedCash(lot: OpenLot, order: Order, have: real, q: real, mark: Mark, bound: real)
    requires q <= lot.remaining && q <= have && lot.direction != order.direction
    requires q + QUANTITY_EPSILON < lot.remaining ==> lot.remaining != 0.0
    requires Near(lot.spotPrice, lot.futuresPrice, mark, bound)
    requires Near(order.spotPrice, order.futuresPrice, mark, bound)
    ensures var spot, futures := order.spotPrice, order.futuresPrice;
            Residue(LotCash(lot, mark) - LotCash(Reduced(lot, q), mark)
                    + (Legs(order.direction, have, spot, futures, mark.spot, mark.futures)
                       - Legs(order.direction, CleanQuantity(have - q), spot, futures, mark.spot, mark.futures))
                    - Legs(lot.direction, q, lot.spotPrice, lot.futuresPrice, spot, futures), 2, bound)
  {
    var rest, d, at := have - q, order.direction, Mark(order.spotPrice, order.futuresPrice);
    ReducedCash(lot, q, mark, bound);
    LegsCut(d, have, q, rest, at.spot, at.futures, mark);
    CleanedLegs(d, rest, at.spot, at.futures, mark, bound);
    LegsMeet(lot.direction, d, q, Mark(lot.spotPrice, lot.futuresPrice), at, mark);
    hide Legs, LotCash, Residue, Near, Reduced, Released, CleanQuantity;
    var x := LotCash(lot, mark) - LotCash(Reduced(lot, q), mark)
             - Legs(lot.direction, q, lot.spotPrice, lot.futuresPrice, mark.spot, mark.futures);
    var y := Legs(d, rest, at.spot, at.futures, mark.spot, mark.futures)
             - Legs(d, CleanQuantity(rest), at.spot, at.futures, mark.spot, mark.futures);
    ResidueAdds(x, y, 1, 1, bound);
  }

  /** The lots and the matches before and after one match. */
  lemma CloseStepShape(k: Closing, order: Order, rates: Rates, mark: Mark, q: real)
    requires k.remaining > QUANTITY_EPSILON && k.lots != [] && q == Min(k.remaining, k.lots[0].remaining)
    requires Reduced(k.lots[0], q).remaining <= QUANTITY_EPSILON ==> LotCash(Reduced(k.lots[0], q), mark) == 0.0
    ensures var lot, n := k.lots[0], CloseStep(k, order, rates);
            && n.remaining == CleanQuantity(k.remaining - q) && n.remaining >= 0.0
            && LotsCash(k.lots, mark) - LotsCash(n.lots, mark)
               == LotCash(lot, mark) - LotCash(Reduced(lot, q), mark)
            && PnlOf(n.matches, order.symbol)
               == PnlOf(k.matches, order.symbol)
                  + Legs(lot.direction, q, lot.spotPrice, lot.futuresPrice, order.spotPrice, order.futuresPrice)
            && Made(n, order) == Made(k, order) + 1
  {
    var lot, left, m := k.lots[0], Reduced(k.lots[0], q), MatchOf(k.lots[0], order, q, rates);
    MatchPnl(lot, order, q, rates);
    PnlAppend(k.matches, m, order.symbol);
    HeadAndTail(k.lots);
    LotsCashHead(lot, k.lots[1..], mark);
    LotsCashHead(left, k.lots[1..], mark);
    hide Legs, LotCash, LotsCash, PnlOf, CountOf, MatchOf, Reduced, Released;
  }

  /** One match loses at most two residues, one of the lot and one of the order. */
  lemma CloseStepCash(k: Closing, order: Order, rates: Rates, mark: Mark, bound: real)
    requires k.remaining > QUANTITY_EPSILON && k.lots != [] && k.lots[0].direction != order.direction
    requires LotsNear(k.lots, mark, bound) && Near(order.spotPrice, order.futuresPrice, mark, bound)
    ensures CashKept(k, CloseStep(k, order, rates), order, mark, bound) && CloseStep(k, order, rates).remaining >= 0.0
  {
    var lot, q := k.lots[0], Min(k.remaining, k.lots[0].remaining);
    assert Near(lot.spotPrice, lot.futuresPrice, mark, bound);
    ReducedCash(lot, q, mark, bound);
    MatchedCash(lot, order, k.remaining, q, mark, bound);
    CloseStepShape(k, order, rates, mark, q);
    hide Legs, LotCash, LotsCash, PnlOf, Residue, Near, LotsNear, CloseStep, Reduced, CleanQuantity, Made;
  }

  lemma ReducedKeepsNear(k: Closing, order: Order, rates: Rates, mark: Mark, bound: real, d: ArbDirection)
    requires k.remaining > QUANTITY_EPSILON && k.lots != [] && LotsNear(k.lots, mark, bound) && Sided(k.lots, d)
    ensures var n := CloseStep(k, order, rates); LotsNear(n.lots, mark, bound) && Sided(n.lots, d)
  {
    hide Near, Released, MatchOf, Min;
  }

  lemma {:induction false} CloseLoopCash(
    k: Closing, order: Order, rates: Rates, mark: Mark, bound: real, d: ArbDirection)
    requires LotsNear(k.lots, mark, bound) && Near(order.spotPrice, order.futuresPrice, mark, bound)
    requires Sided(k.lots, d) && d != order.direction && k.remaining >= 0.0
    ensures CashKept(k, CloseLoop(k, order, rates), order, mark, bound) && CloseLoop(k, order, rates).remaining >= 0.0
    decreases |k.lots|, k.remaining > QUANTITY_EPSILON
  {
    if k.remaining > QUANTITY_EPSILON && k.lots != [] {
      var n := CloseStep(k, order, rates);
      assert k.lots[0].direction == d;
      hide CashKept, Near, LotsNear, Sided;
      CloseStepCash(k, order, rates, mark, bound);
      ReducedKeepsNear(k, order, rates, mark, bound, d);
      hide CloseStep;
      CloseLoopCash(n, order, rates, mark, bound, d);
      CashKeptChain(k, n, CloseLoop(n, order, rates), order, mark, bound);
    } else {
      NoResidue(bound);
      hide ClosingCash, Made, Residue;
    }
  }

  lemma NoResidue(bound: real)
    ensures Residue(0.0, 0, bound)
  {}

  /** What the open lots of one symbol and its recorded matches have earned at the mark. */
  function SymbolCash(s: Lots, matches: seq<Match>, symbol: string, mark: Mark): real {
    LotsCash(s.positive, mark) + LotsCash(s.reverse, mark) + PnlOf(matches, symbol)
  }

  /** The state and the matches an order leaves behind, in cash. */
  lemma OrderShape(s: Lots, order: Order, rates: Rates, mark: Mark, lot: seq<OpenLot>)
    requires var c := CloseLoop(Closing(Opposite(s, order), order.quantity, []), order, rates);
             lot == if c.remaining > QUANTITY_EPSILON then [LotOf(order, c.remaining)] else []
    ensures var k := Closing(Opposite(s, order), order.quantity, []);
            var c := CloseLoop(k, order, rates);
            var (r, matches) := ApplyOrder(s, order, rates);
            && matches == c.matches
            && LotsCash(s.positive, mark) + LotsCash(s.reverse, mark)
               - (LotsCash(r.positive, mark) + LotsCash(r.reverse, mark))
               == LotsCash(k.lots, mark) - LotsCash(c.lots, mark) - LotsCash(lot, mark)
  {
    LotsCashConcat(if order.direction == Positive then s.positive else s.reverse, lot, mark);
    hide LotsCash, CloseLoop, LotOf;
  }

  /** Some cash grew by `cash`, up to two residues a match and one more. */
  ghost predicate Grew(before: real, after: real, cash: real, made: int, bound: real) {
    Residue(cash - (after - before), 2 * made + 1, bound)
  }

  /** Where an order starts and where its closing ends. */
  lemma OrderCloses(s: Lots, order: Order, rates: Rates, mark: Mark, bound: real, k: Closing, c: Closing)
    requires StateSided(s) && LotsNear(s.positive, mark, bound) && LotsNear(s.reverse, mark, bound)
    requires Near(order.spotPrice, order.futuresPrice, mark, bound) && order.quantity >= 0.0
    requires k == Closing(Opposite(s, order), order.quantity, []) && c == CloseLoop(k, order, rates)
    ensures CashKept(k, c, order, mark, bound) && c.remaining >= 0.0 && Made(k, order) == 0
    ensures ClosingCash(k, order, mark) == LotsCash(k.lots, mark) + OrderCash(order, mark)
  {
    CloseLoopCash(k, order, rates, mark, bound, if order.direction == Positive then Reverse else Positive);
    NoMatchesYet(order.symbol);
    hide CashKept, LotsCash, Legs, Near, LotsNear, CloseLoop, CountOf, PnlOf;
  }

  /** An order adds what its legs have earned, up to two residues a match and one more. */
  lemma OrderAddsCash(s: Lots, order: Order, rates: Rates, mark: Mark, bound: real)
    requires StateSided(s) && LotsNear(s.positive, mark, bound) && LotsNear(s.reverse, mark, bound)
    requires Near(order.spotPrice, order.futuresPrice, mark, bound) && order.quantity >= 0.0
    ensures var (r, matches) := ApplyOrder(s, order, rates);
            Grew(LotsCash(s.positive, mark) + LotsCash(s.reverse, mark), SymbolCash(r, matches, order.symbol, mark),
                 OrderCash(order, mark), CountOf(matches, order.symbol), bound)
  {
    var k := Closing(Opposite(s, order), order.quantity, []);
    var c := CloseLoop(k, order, rates);
    var lot := if c.remaining > QUANTITY_EPSILON then [LotOf(order, c.remaining)] else [];
    hide Legs, LotsCash, Residue, Near, LotsNear, StateSided, CloseLoop, LotOf, PnlOf, CountOf, ApplyOrder, Opposite;
    hide OrderCash, CleanQuantity;
    OrderCloses(s, order, rates, mark, bound, k, c);
    OrderShape(s, order, rates, mark, lot);
    NewLotCash(order, c.remaining, lot, mark, bound);
    var made := 2 * Made(c, order);
    var rest := Legs(order.direction, c.remaining, order.spotPrice, order.futuresPrice, mark.spot, mark.futures);
    ResidueAdds(ClosingCash(k, order, mark) - ClosingCash(c, order, mark), rest - LotsCash(lot, mark), made, 1, bound);
  }

  lemma NoMatchesYet(symbol: string)
    ensures PnlOf([], symbol) == 0.0 && CountOf([], symbol) == 0
  {}

  lemma NewLotCash(order: Order, rest: real, lot: seq<OpenLot>, mark: Mark, bound: real)
    requires rest >= 0.0 && Near(order.spotPrice, order.futuresPrice, mark, bound)
    requires lot == if rest > QUANTITY_EPSILON then [LotOf(order, rest)] else []
    ensures Residue(Legs(order.direction, rest, order.spotPrice, order.futuresPrice, mark.spot, mark.futures)
                    - LotsCash(lot, mark), 1, bound)
  {
    if rest > QUANTITY_EPSILON {
      assert LotsCash(lot, mark)
             == Legs(order.direction, rest, order.spotPrice, order.futuresPrice, mark.spot, mark.futures);
      ProductSign(QUANTITY_EPSILON, bound);
    } else {
      LegsOfDust(order.direction, rest, order.spotPrice, order.futuresPrice, mark, bound);
    }
  }

  lemma {:induction false} SpreadKeepsCash(before: seq<OpenLot>, after: seq<OpenLot>, mark: Mark)
    requires OnlyCarry(before, after)
    ensures LotsCash(after, mark) == LotsCash(before, mark)
    decreases |before|
  {
    if before != [] {
      assert after[0] == before[0].(funding := after[0].funding, interest := after[0].interest);
      assert OnlyCarry(before[1..], after[1..]) by {
        forall i | 0 <= i < |before[1..]|
          ensures after[1..][i]
                  == before[1..][i].(funding := after[1..][i].funding, interest := after[1..][i].interest)
        {
          assert after[i + 1] == before[i + 1].(funding := after[i + 1].funding, interest := after[i + 1].interest);
        }
      }
      assert LotCash(after[0], mark) == LotCash(before[0], mark);
      hide OnlyCarry, LotCash;
      SpreadKeepsCash(before[1..], after[1..], mark);
    }
  }

  // ---- Runs

  /** What the orders of one symbol have earned by the mark. */
  function OrdersCash(events: seq<CarryEvent>, symbol: string, mark: Mark): real
    decreases |events|
  {
    if events == [] then 0.0 else
      var ev := events[|events| - 1];
      OrdersCash(events[..|events| - 1], symbol, mark)
      + (if ev.OrderEvent? && ev.order.symbol == symbol then OrderCash(ev.order, mark) else 0.0)
  }

  function OrderCount(events: seq<CarryEvent>, symbol: string): nat
    decreases |events|
  {
    if events == [] then 0 else
      var ev := events[|events| - 1];
      OrderCount(events[..|events| - 1], symbol) + (if ev.OrderEvent? && ev.order.symbol == symbol then 1 else 0)
  }

  /** Orders of the symbol have no negative quantity, and their legs are within `bound` of the mark. */
  ghost predicate OrdersNear(events: seq<CarryEvent>, symbol: string, mark: Mark, bound: real) {
    forall i :: 0 <= i < |events| && events[i].OrderEvent? && events[i].order.symbol == symbol ==>
      events[i].order.quantity >= 0.0 && Near(events[i].order.spotPrice, events[i].order.futuresPrice, mark, bound)
  }

  lemma TracedNear(
    origins: set<OpenLot>, lots: seq<OpenLot>, orders: set<Order>, d: ArbDirection, mark: Mark, bound: real)
    requires origins == Origins(lots) && OpenedBy(origins, orders, d)
    requires forall o :: o in orders ==> Near(o.spotPrice, o.futuresPrice, mark, bound)
    ensures LotsNear(lots, mark, bound) && Sided(lots, d)
  {
    forall i | 0 <= i < |lots|
      ensures Near(lots[i].spotPrice, lots[i].futuresPrice, mark, bound) && lots[i].direction == d
    {
      assert lots[i] in lots && Fixed(lots[i]) in origins;
      var o :| o in orders && o.direction == d && Fixed(lots[i]) == Fixed(LotOf(o, 0.0));
      LeftByFields(lots[i], o);
    }
  }

  /** By how much a run misses being the cash of its orders. */
  ghost function Gap(a: Analysis, events: seq<CarryEvent>, symbol: string, mark: Mark): real
    requires symbol in a.states
  {
    OrdersCash(events, symbol, mark) - SymbolCash(a.states[symbol], a.matches, symbol, mark)
  }

  lemma OrdersCashAppend(events: seq<CarryEvent>, ev: CarryEvent, symbol: string, mark: Mark)
    ensures OrdersCash(events + [ev], symbol, mark)
            == OrdersCash(events, symbol, mark)
               + (if ev.OrderEvent? && ev.order.symbol == symbol then OrderCash(ev.order, mark) else 0.0)
    ensures OrderCount(events + [ev], symbol)
            == OrderCount(events, symbol) + (if ev.OrderEvent? && ev.order.symbol == symbol then 1 else 0)
  {
    assert (events + [ev])[..|events|] == events;
  }

  lemma OrdersNearInit(events: seq<CarryEvent>, ev: CarryEvent, symbol: string, mark: Mark, bound: real)
    requires OrdersNear(events + [ev], symbol, mark, bound)
    ensures OrdersNear(events, symbol, mark, bound)
    ensures forall o :: o in OrdersIn(events, symbol) ==> Near(o.spotPrice, o.futuresPrice, mark, bound)
    ensures ev.OrderEvent? && ev.order.symbol == symbol ==>
              ev.order.quantity >= 0.0 && Near(ev.order.spotPrice, ev.order.futuresPrice, mark, bound)
  {
    hide Near;
    var all := events + [ev];
    assert all[|events|] == ev;
    forall i | 0 <= i < |events| && events[i].OrderEvent? && events[i].order.symbol == symbol
      ensures events[i].order.quantity >= 0.0
      ensures Near(events[i].order.spotPrice, events[i].order.futuresPrice, mark, bound)
    {
      assert all[i] == events[i];
    }
    forall o | o in OrdersIn(events, symbol) ensures Near(o.spotPrice, o.futuresPrice, mark, bound) {
      var x :| x in events && x.OrderEvent? && x.order.symbol == symbol && x.order == o;
      var i :| 0 <= i < |events| && events[i] == x;
    }
  }

  lemma {:induction false} CloseLoopSymbol(k: Closing, order: Order, rates: Rates)
    requires forall i :: 0 <= i < |k.matches| ==> k.matches[i].symbol == order.symbol
    ensures forall i :: 0 <= i < |CloseLoop(k, order, rates).matches| ==>
              CloseLoop(k, order, rates).matches[i].symbol == order.symbol
    decreases |k.lots|, k.remaining > QUANTITY_EPSILON
  {
    if k.remaining > QUANTITY_EPSILON && k.lots != [] {
      MatchPnl(k.lots[0], order, Min(k.remaining, k.lots[0].remaining), rates);
      var n := CloseStep(k, order, rates);
      assert forall i :: 0 <= i < |n.matches| ==> n.matches[i].symbol == order.symbol;
      hide CloseStep;
      CloseLoopSymbol(n, order, rates);
    }
  }

  lemma {:induction false} NoneOfSymbol(matches: seq<Match>, symbol: string)
    requires forall i :: 0 <= i < |matches| ==> matches[i].symbol != symbol
    ensures PnlOf(matches, symbol) == 0.0 && CountOf(matches, symbol) == 0
    decreases |matches|
  {
    if matches != [] {
      NoneOfSymbol(matches[..|matches| - 1], symbol);
    }
  }

  lemma GrewMore(before: real, after: real, step: real, cash: real, made: int, bound: real)
    requires Grew(before, after, cash, made, bound)
    ensures Grew(before + step, after + step, cash, made, bound)
  {
    assert after + step - (before + step) == after - before;
  }

  lemma CashParts(s: Lots, r: Lots, made: seq<Match>, more: seq<Match>, symbol: string, mark: Mark)
    ensures SymbolCash(s, made, symbol, mark)
            == LotsCash(s.positive, mark) + LotsCash(s.reverse, mark) + PnlOf(made, symbol)
    ensures SymbolCash(r, made + more, symbol, mark) == SymbolCash(r, more, symbol, mark) + PnlOf(made, symbol)
    ensures CountOf(made + more, symbol) - CountOf(made, symbol) == CountOf(more, symbol)
  {
    PnlConcat(made, more, symbol);
    hide PnlOf, LotsCash, CountOf;
  }

  /** What an order does to the cash of its symbol and to its count of matches. */
  lemma OwnOrderCash(a: Analysis, o: Order, rates: Rates, mark: Mark, bound: real)
    requires o.symbol in a.states && StateSided(a.states[o.symbol])
    requires LotsNear(a.states[o.symbol].positive, mark, bound) && LotsNear(a.states[o.symbol].reverse, mark, bound)
    requires Near(o.spotPrice, o.futuresPrice, mark, bound) && o.quantity >= 0.0
    ensures var r := Step(a, OrderEvent(o), rates);
            && o.symbol in r.states && CountOf(r.matches, o.symbol) >= CountOf(a.matches, o.symbol)
            && Grew(SymbolCash(a.states[o.symbol], a.matches, o.symbol, mark),
                    SymbolCash(r.states[o.symbol], r.matches, o.symbol, mark),
                    OrderCash(o, mark), CountOf(r.matches, o.symbol) - CountOf(a.matches, o.symbol), bound)
  {
    var s := a.states[o.symbol];
    var (lots, matches) := ApplyOrder(s, o, rates);
    hide ApplyOrder, LotsCash, SymbolCash, PnlOf, CountOf, OrderCash, Grew, Near, LotsNear, StateSided;
    OrderAddsCash(s, o, rates, mark, bound);
    CashParts(s, lots, a.matches, matches, o.symbol, mark);
    GrewMore(LotsCash(s.positive, mark) + LotsCash(s.reverse, mark), SymbolCash(lots, matches, o.symbol, mark),
             PnlOf(a.matches, o.symbol), OrderCash(o, mark), CountOf(matches, o.symbol), bound);
  }

  lemma OtherOrderCash(a: Analysis, o: Order, rates: Rates, symbol: string, mark: Mark)
    requires symbol in a.states && o.symbol != symbol
    ensures var r := Step(a, OrderEvent(o), rates);
            && symbol in r.states && CountOf(r.matches, symbol) == CountOf(a.matches, symbol)
            && SymbolCash(r.states[symbol], r.matches, symbol, mark)
               == SymbolCash(a.states[symbol], a.matches, symbol, mark)
  {
    if o.symbol in a.states {
      var (lots, matches) := ApplyOrder(a.states[o.symbol], o, rates);
      PnlConcat(a.matches, matches, symbol);
      CloseLoopSymbol(Closing(Opposite(a.states[o.symbol], o), o.quantity, []), o, rates);
      assert forall i :: 0 <= i < |matches| ==> matches[i].symbol == o.symbol;
      NoneOfSymbol(matches, symbol);
    }
    hide ApplyOrder, LotsCash, PnlOf, CountOf;
  }

  lemma SpreadCash(a: Analysis, ev: CarryEvent, rates: Rates, symbol: string, mark: Mark)
    requires symbol in a.states && !ev.OrderEvent?
    ensures var r := Step(a, ev, rates);
            && symbol in r.states && r.matches == a.matches
            && SymbolCash(r.states[symbol], r.matches, symbol, mark)
               == SymbolCash(a.states[symbol], a.matches, symbol, mark)
  {
    var r := Step(a, ev, rates);
    assert r.states == Spread(a.states, ev);
    SpreadOnlyCarry(a.states, ev, symbol);
    hide OnlyCarry, Spread, Step, LotsCash, PnlOf;
    SpreadKeepsCash(a.states[symbol].positive, r.states[symbol].positive, mark);
    SpreadKeepsCash(a.states[symbol].reverse, r.states[symbol].reverse, mark);
  }

  /** Between two states of a run the gap moves by at most two residues a match and one an order. */
  ghost predicate GapMoves(
    a: Analysis, events: seq<CarryEvent>, r: Analysis, all: seq<CarryEvent>, symbol: string, mark: Mark, bound: real)
    requires symbol in a.states && symbol in r.states
  {
    Residue(Gap(r, all, symbol, mark) - Gap(a, events, symbol, mark),
            2 * (CountOf(r.matches, symbol) - CountOf(a.matches, symbol))
            + (OrderCount(all, symbol) - OrderCount(events, symbol)), bound)
  }

  /** The lots of a symbol stand on their side, within the bound of its orders. */
  lemma TracedQueues(a: Analysis, events: seq<CarryEvent>, rates: Rates, symbol: string, mark: Mark, bound: real)
    requires Traced(a, events, rates) && symbol in a.states
    requires forall o :: o in OrdersIn(events, symbol) ==> Near(o.spotPrice, o.futuresPrice, mark, bound)
    ensures var s := a.states[symbol];
            StateSided(s) && LotsNear(s.positive, mark, bound) && LotsNear(s.reverse, mark, bound)
  {
    var s, orders := a.states[symbol], OrdersIn(events, symbol);
    hide OrdersIn, Near, LotsNear, Sided, OpenedBy, Origins;
    TracedNear(Origins(s.positive), s.positive, orders, Positive, mark, bound);
    TracedNear(Origins(s.reverse), s.reverse, orders, Reverse, mark, bound);
  }

  /** An event of another symbol, or one that spreads carry, leaves the gap alone. */
  lemma OtherStepCash(
    a: Analysis, events: seq<CarryEvent>, ev: CarryEvent, rates: Rates, symbol: string, mark: Mark, bound: real)
    requires symbol in a.states && !(ev.OrderEvent? && ev.order.symbol == symbol)
    ensures symbol in Step(a, ev, rates).states
    ensures GapMoves(a, events, Step(a, ev, rates), events + [ev], symbol, mark, bound)
  {
    OrdersCashAppend(events, ev, symbol, mark);
    NoResidue(bound);
    hide Residue, Step, CountOf, OrderCount, OrdersCash, SymbolCash, OrderCash;
    if ev.OrderEvent? {
      OtherOrderCash(a, ev.order, rates, symbol, mark);
    } else {
      SpreadCash(a, ev, rates, symbol, mark);
    }
  }

  /** One event moves the gap by residues only. */
  lemma StepCash(
    a: Analysis, events: seq<CarryEvent>, ev: CarryEvent, rates: Rates, symbol: string, mark: Mark, bound: real)
    requires Traced(a, events, rates) && symbol in a.states && OrdersNear(events + [ev], symbol, mark, bound)
    ensures symbol in Step(a, ev, rates).states
    ensures GapMoves(a, events, Step(a, ev, rates), events + [ev], symbol, mark, bound)
  {
    hide Traced, OrdersIn, Near, LotsNear, StateSided, OrdersNear, OrderCash, SymbolCash, CountOf, OrderCount, Step;
    hide OrdersCash, Residue;
    if ev.OrderEvent? && ev.order.symbol == symbol {
      OrdersNearInit(events, ev, symbol, mark, bound);
      TracedQueues(a, events, rates, symbol, mark, bound);
      OrdersCashAppend(events, ev, symbol, mark);
      OwnOrderCash(a, ev.order, rates, mark, bound);
    } else {
      OtherStepCash(a, events, ev, rates, symbol, mark, bound);
    }
  }

  lemma NothingEarned(symbols: set<string>, symbol: string, mark: Mark)
    requires symbol in symbols
    ensures Gap(Nothing(symbols), [], symbol, mark) == 0.0 && CountOf(Nothing(symbols).matches, symbol) == 0
    ensures OrderCount([], symbol) == 0
  {}

  /**
   Recorded PnL of a symbol and its open lots add up to what the legs of its orders have earned, but for residues that
   count as nothing: at most two a match and one an order, each marked at `bound`.
   */
  ghost predicate AddsUp(a: Analysis, events: seq<CarryEvent>, symbol: string, mark: Mark, bound: real) {
    && symbol in a.states
    && Residue(Gap(a, events, symbol, mark), 2 * CountOf(a.matches, symbol) + OrderCount(events, symbol), bound)
  }

  lemma MovedAddsUp(
    a: Analysis, events: seq<CarryEvent>, r: Analysis, all: seq<CarryEvent>, symbol: string, mark: Mark, bound: real)
    requires AddsUp(a, events, symbol, mark, bound) && symbol in r.states
    requires GapMoves(a, events, r, all, symbol, mark, bound)
    ensures AddsUp(r, all, symbol, mark, bound)
  {
    var before, after := Gap(a, events, symbol, mark), Gap(r, all, symbol, mark);
    var n := 2 * CountOf(a.matches, symbol) + OrderCount(events, symbol);
    var m := 2 * (CountOf(r.matches, symbol) - CountOf(a.matches, symbol))
             + (OrderCount(all, symbol) - OrderCount(events, symbol));
    hide Gap, Residue, CountOf, OrderCount;
    ResidueAdds(before, after - before, n, m, bound);
  }

  lemma StepAddsUp(
    a: Analysis, events: seq<CarryEvent>, ev: CarryEvent, rates: Rates, symbol: string, mark: Mark, bound: real)
    requires Traced(a, events, rates) && AddsUp(a, events, symbol, mark, bound)
    requires OrdersNear(events + [ev], symbol, mark, bound)
    ensures AddsUp(Step(a, ev, rates), events + [ev], symbol, mark, bound)
  {
    assert symbol in a.states;
    hide *;
    StepCash(a, events, ev, rates, symbol, mark, bound);
    MovedAddsUp(a, events, Step(a, ev, rates), events + [ev], symbol, mark, bound);
  }

  lemma NothingAddsUp(symbols: set<string>, symbol: string, mark: Mark, bound: real)
    requires symbol in symbols
    ensures AddsUp(Nothing(symbols), [], symbol, mark, bound)
  {
    NothingEarned(symbols, symbol, mark);
  }

  /** Cash identity of combinations, over any run and at any mark. */
  lemma {:induction false} RunIsCash(
    symbols: set<string>, events: seq<CarryEvent>, rates: Rates, symbol: string, mark: Mark, bound: real)
    requires symbol in symbols && OrdersNear(events, symbol, mark, bound)
    ensures AddsUp(Run(Nothing(symbols), events, rates), events, symbol, mark, bound)
    decreases |events|
  {
    if events == [] {
      NothingAddsUp(symbols, symbol, mark, bound);
    } else {
      var init, last := events[..|events| - 1], events[|events| - 1];
      InitAndLast(events);
      OrdersNearInit(init, last, symbol, mark, bound);
      RunMatches(symbols, init, rates);
      hide Traced, Nothing, Step, OrdersNear, AddsUp;
      RunIsCash(symbols, init, rates, symbol, mark, bound);
      StepAddsUp(Run(Nothing(symbols), init, rates), init, last, rates, symbol, mark, bound);
    }
  }
}
