/**
 Per-symbol PnL state: two venue FIFOs marked at the latest price, funding, interest and seeded positions. For
 quantity-based sources the total is plain cash accounting, so the order lots are closed in cannot affect it.
 */
module SymbolLedger {
  import opened Prelude
  import opened FifoLots
  import opened FifoEquivalence

  datatype Leg = SpotLeg | FuturesLeg

  datatype Trade = Trade(
    symbol: string, side: Side, leg: Leg, price: real, amountU: real, quantity: real, feeUsdt: Option<real>, ts: int)

  datatype Funding = Funding(symbol: string, amountUsdt: real, ts: int)

  datatype Interest = Interest(
    symbol: string, costUsdt: Option<real>, conversionPrice: Option<real>, spotQuantityDelta: real, ts: int)

  datatype InitialPosition = InitialPosition(
    symbol: string, spotQuantity: real, futuresQuantity: real, markPrice: real)

  datatype PnlEvent = TradeEvent(trade: Trade) | FundingEvent(funding: Funding) | InterestEvent(interest: Interest) {
    function Ts(): int {
      match this
      case TradeEvent(t) => t.ts
      case FundingEvent(f) => f.ts
      case InterestEvent(i) => i.ts
    }

    function Symbol(): string {
      match this
      case TradeEvent(t) => t.symbol
      case FundingEvent(f) => f.symbol
      case InterestEvent(i) => i.symbol
    }
  }

  datatype PnlError = InvalidInitialMark | RejectedFill | MissingSymbol

  const F64_EPSILON: real := 1.0 / 4503599627370496.0

  /** The state of one symbol; `kind` says which FIFO engine its venues use. */
  datatype Ledger = Ledger(
    kind: Measure, spot: Fifo, futures: Fifo, fundingPnl: real, interestCost: real,
    tradeCount: nat, volume: real, spotQty: real, futuresQty: real, mark: Option<real>,
    unconvertedFees: nat, unconvertedInterest: nat,
    spotSnapshot: Option<VenueSnapshot>, futuresSnapshot: Option<VenueSnapshot>)

  function NewLedger(kind: Measure): Ledger {
    Ledger(kind, EMPTY, EMPTY, 0.0, 0.0, 0, 0.0, 0.0, 0.0, None, 0, 0, None, None)
  }

  /** Fills a venue in the unit its engine counts. */
  function VenueFill(kind: Measure, s: Fifo, side: Side, price: real, amountU: real, quantity: real, fee: real)
    : Result<Fifo, PnlError>
  {
    var f := Fill(side, price, if kind == Relative then amountU else quantity, fee);
    if Accepts(f) then Ok(ApplyFill(kind, s, f)) else Err(RejectedFill)
  }

  /** Records the latest price and re-marks both venues at it. */
  function Marked(l: Ledger, price: real): Ledger {
    l.(mark := Some(price),
       spotSnapshot := Some(Venue(l.kind, l.spot, price, price)),
       futuresSnapshot := Some(Venue(l.kind, l.futures, price, price)))
  }

  function SideOf(quantity: real): Side { if quantity > 0.0 then Buy else Sell }

  function SeedFifo(kind: Measure, s: Fifo, quantity: real, mark: real): Result<Fifo, PnlError> {
    if Abs(quantity) <= F64_EPSILON then Ok(s)
    else VenueFill(kind, s, SideOf(quantity), mark, Abs(quantity) * mark, Abs(quantity), 0.0)
  }

  function SeedPosition(l: Ledger, p: InitialPosition): Result<Ledger, PnlError> {
    if p.markPrice <= 0.0 then Err(InvalidInitialMark) else
      var spot := SeedFifo(l.kind, l.spot, p.spotQuantity, p.markPrice);
      if spot.Err? then Err(spot.error) else
        var futures := SeedFifo(l.kind, l.futures, p.futuresQuantity, p.markPrice);
        if futures.Err? then Err(futures.error) else
          Ok(Marked(l.(spot := spot.value, futures := futures.value,
                       spotQty := p.spotQuantity, futuresQty := p.futuresQuantity), p.markPrice))
  }

  function FeeOf(t: Trade): real { if t.feeUsdt.Some? then t.feeUsdt.value else 0.0 }

  /** The ledger after a trade filled its venue, before re-marking. */
  function Traded(l: Ledger, t: Trade, filled: Fifo): Ledger {
    var signed := if t.side == Buy then t.quantity else -t.quantity;
    var l1 := l.(unconvertedFees := l.unconvertedFees + (if t.feeUsdt.None? then 1 else 0),
                 tradeCount := l.tradeCount + 1, volume := l.volume + t.amountU);
    if t.leg == SpotLeg then l1.(spot := filled, spotQty := l1.spotQty + signed)
    else l1.(futures := filled, futuresQty := l1.futuresQty + signed)
  }

  function ApplyTrade(l: Ledger, t: Trade): Result<Ledger, PnlError> {
    var filled := VenueFill(l.kind, if t.leg == SpotLeg then l.spot else l.futures,
                            t.side, t.price, t.amountU, t.quantity, FeeOf(t));
    if filled.Err? then Err(filled.error) else Ok(Marked(Traded(l, t, filled.value), t.price))
  }

  /** The price at which an interest quantity enters the spot FIFO. */
  function ConversionPrice(mark: Option<real>, i: Interest): Option<real>
    requires i.spotQuantityDelta != 0.0
  {
    if i.conversionPrice.Some? then i.conversionPrice
    else if i.costUsdt.Some? && i.costUsdt.value > 0.0 then Some(i.costUsdt.value / Abs(i.spotQuantityDelta))
    else mark
  }

  function AddCost(l: Ledger, i: Interest): Ledger {
    if i.costUsdt.Some? then l.(interestCost := l.interestCost + i.costUsdt.value)
    else l.(unconvertedInterest := l.unconvertedInterest + 1)
  }

  function ApplyInterest(l: Ledger, i: Interest): Result<Ledger, PnlError> {
    var delta := i.spotQuantityDelta;
    if delta != 0.0 && l.kind == Absolute then
      var price := ConversionPrice(l.mark, i);
      if price.None? then Ok(AddCost(l, i)) else
        var filled := VenueFill(l.kind, l.spot, SideOf(delta), price.value,
                                Abs(delta) * price.value, Abs(delta), 0.0);
        if filled.Err? then Err(filled.error)
        else Ok(AddCost(Marked(l.(spot := filled.value), price.value).(spotQty := l.spotQty + delta), i))
    else Ok(AddCost(l.(spotQty := l.spotQty + delta), i))
  }

  function ApplyEvent(l: Ledger, ev: PnlEvent): Result<Ledger, PnlError> {
    match ev
    case TradeEvent(t) => ApplyTrade(l, t)
    case FundingEvent(f) => Ok(l.(fundingPnl := l.fundingPnl + f.amountUsdt))
    case InterestEvent(i) => ApplyInterest(l, i)
  }

  function TotalOf(s: Option<VenueSnapshot>): real { if s.Some? then s.value.totalPnl else 0.0 }

  /** Total PnL as reported: from the cached venue snapshots. */
  function TotalPnl(l: Ledger): real {
    TotalOf(l.spotSnapshot) + TotalOf(l.futuresSnapshot) + l.fundingPnl - l.interestCost
  }

  // ---- Cash accounting

  /** Quantity held, net cash spent, fees, funding, interest and the last price. No lots. */
  datatype Cash = Cash(net: real, spent: real, fees: real, funding: real, interest: real, mark: Option<real>)

  const NO_CASH := Cash(0.0, 0.0, 0.0, 0.0, 0.0, None)

  function CashFill(c: Cash, side: Side, price: real, quantity: real, fee: real): Cash {
    var signed := if side == Buy then quantity else -quantity;
    c.(net := c.net + signed, spent := c.spent + signed * price, fees := c.fees + fee, mark := Some(price))
  }

  function CashSeed(c: Cash, quantity: real, mark: real): Cash {
    if Abs(quantity) <= F64_EPSILON then c else CashFill(c, SideOf(quantity), mark, Abs(quantity), 0.0)
  }

  function CashPosition(c: Cash, p: InitialPosition): Cash {
    CashSeed(CashSeed(c, p.spotQuantity, p.markPrice), p.futuresQuantity, p.markPrice).(mark := Some(p.markPrice))
  }

  /** Interest paid in the asset is bought at its own price, at its cost a unit, or else at the last price. */
  function InterestPrice(last: Option<real>, own: Option<real>, cost: Option<real>, delta: real): Option<real>
    requires delta != 0.0
  {
    match own
    case Some(price) => own
    case None =>
      match cost
      case None => last
      case Some(paid) => if paid <= 0.0 then last else Some(if delta > 0.0 then paid / delta else paid / -delta)
  }

  function CashEvent(c: Cash, ev: PnlEvent): Cash {
    match ev
    case TradeEvent(t) => CashFill(c, t.side, t.price, t.quantity, if t.feeUsdt.Some? then t.feeUsdt.value else 0.0)
    case FundingEvent(f) => c.(funding := c.funding + f.amountUsdt)
    case InterestEvent(i) =>
      var c1 := c.(interest := c.interest + (if i.costUsdt.Some? then i.costUsdt.value else 0.0));
      var delta := i.spotQuantityDelta;
      if delta == 0.0 then c1 else
        var price := InterestPrice(c.mark, i.conversionPrice, i.costUsdt, delta);
        if price.None? then c1
        else if delta > 0.0 then CashFill(c1, Buy, price.value, delta, 0.0)
        else CashFill(c1, Sell, price.value, -delta, 0.0)
  }

  /** Gross PnL of the cash account if its position were closed at `m`. */
  function CashAt(c: Cash, m: real): real { c.net * m - c.spent }

  ghost predicate GrossAgrees(l: Ledger, c: Cash, m: real) {
    GrossAt(Absolute, l.spot, m) + GrossAt(Absolute, l.futures, m) == CashAt(c, m)
  }

  /** The cached snapshots are those of the FIFOs at the last price. */
  ghost predicate SnapshotsFresh(l: Ledger) {
    match l.mark
    case Some(m) =>
      && l.spotSnapshot == Some(Venue(l.kind, l.spot, m, m))
      && l.futuresSnapshot == Some(Venue(l.kind, l.futures, m, m))
    case None => l.spotSnapshot.None? && l.futuresSnapshot.None? && l.spot == EMPTY && l.futures == EMPTY
  }

  ghost predicate Booked(l: Ledger, c: Cash) {
    && l.kind == Absolute && FifoOk(l.spot) && FifoOk(l.futures)
    && l.mark == c.mark && l.fundingPnl == c.funding && l.interestCost == c.interest
    && l.spot.fees + l.futures.fees == c.fees
    && (forall m: real :: GrossAgrees(l, c, m))
  }

  lemma CashMoves(c: Cash, side: Side, price: real, quantity: real, fee: real, m: real)
    ensures CashAt(CashFill(c, side, price, quantity, fee), m)
            == CashAt(c, m) + Direction(Fill(side, price, quantity, fee), Shift(m - price)(quantity))
  {
    var signed := if side == Buy then quantity else -quantity;
    assert (c.net + signed) * m == c.net * m + signed * m;
    assert quantity * (m - price) == quantity * m - quantity * price;
  }

  lemma VenueFillBooks(l: Ledger, c: Cash, f: Fill, leg: Leg)
    requires Booked(l, c) && Accepts(f)
    ensures var r := if leg == SpotLeg then l.(spot := ApplyFill(Absolute, l.spot, f))
                     else l.(futures := ApplyFill(Absolute, l.futures, f));
            Booked(r.(mark := Some(f.price)), CashFill(c, f.side, f.price, f.amount, f.fee))
  {
    var venue := if leg == SpotLeg then l.spot else l.futures;
    FillKeepsOk(Absolute, venue, f);
    var r := if leg == SpotLeg then l.(spot := ApplyFill(Absolute, l.spot, f))
             else l.(futures := ApplyFill(Absolute, l.futures, f));
    forall m: real ensures GrossAgrees(r.(mark := Some(f.price)), CashFill(c, f.side, f.price, f.amount, f.fee), m) {
      assert GrossAgrees(l, c, m);
      FillCash(venue, f, m);
      CashMoves(c, f.side, f.price, f.amount, f.fee, m);
    }
  }

  lemma SameBooked(l: Ledger, c: Cash, r: Ledger, d: Cash)
    requires Booked(l, c) && r.spot == l.spot && r.futures == l.futures && r.kind == l.kind
    requires d.net == c.net && d.spent == c.spent && d.fees == c.fees
    requires r.mark == d.mark && r.fundingPnl == d.funding && r.interestCost == d.interest
    ensures Booked(r, d)
  {
    forall m: real ensures GrossAgrees(r, d, m) {
      assert GrossAgrees(l, c, m);
    }
  }

  lemma TradeBooks(l: Ledger, c: Cash, t: Trade)
    requires Booked(l, c) && ApplyTrade(l, t).Ok?
    ensures Booked(ApplyTrade(l, t).value, CashEvent(c, TradeEvent(t))) && SnapshotsFresh(ApplyTrade(l, t).value)
  {
    var f := Fill(t.side, t.price, t.quantity, FeeOf(t));
    VenueFillBooks(l, c, f, t.leg);
    var r := if t.leg == SpotLeg then l.(spot := ApplyFill(Absolute, l.spot, f))
             else l.(futures := ApplyFill(Absolute, l.futures, f));
    var d := CashFill(c, f.side, f.price, f.amount, f.fee);
    SameBooked(r.(mark := Some(f.price)), d, ApplyTrade(l, t).value, d);
  }

  /** The state after an interest quantity entered the spot FIFO at `price`. */
  function Converted(l: Ledger, i: Interest, f: Fill): Ledger {
    AddCost(Marked(l.(spot := ApplyFill(l.kind, l.spot, f)), f.price).(spotQty := l.spotQty + i.spotQuantityDelta), i)
  }

  lemma ConvertedBooks(l: Ledger, c: Cash, i: Interest, f: Fill, cost: real)
    requires Booked(l, c) && Accepts(f) && cost == AddCost(l, i).interestCost
    ensures Booked(Converted(l, i, f), CashFill(c.(interest := cost), f.side, f.price, f.amount, f.fee))
    ensures SnapshotsFresh(Converted(l, i, f))
  {
    VenueFillBooks(l, c, f, SpotLeg);
    SameBooked(l.(spot := ApplyFill(Absolute, l.spot, f)).(mark := Some(f.price)),
               CashFill(c, f.side, f.price, f.amount, f.fee),
               Converted(l, i, f), CashFill(c.(interest := cost), f.side, f.price, f.amount, f.fee));
  }

  lemma InterestShape(l: Ledger, i: Interest, price: real)
    requires l.kind == Absolute && ApplyInterest(l, i).Ok?
    requires i.spotQuantityDelta != 0.0 && ConversionPrice(l.mark, i) == Some(price)
    ensures var f := Fill(SideOf(i.spotQuantityDelta), price, Abs(i.spotQuantityDelta), 0.0);
            Accepts(f) && ApplyInterest(l, i).value == Converted(l, i, f)
  {}

  lemma CashInterestShape(c: Cash, i: Interest, price: real, cost: real)
    requires i.spotQuantityDelta != 0.0 && ConversionPrice(c.mark, i) == Some(price)
    requires cost == c.interest + (if i.costUsdt.Some? then i.costUsdt.value else 0.0)
    ensures CashEvent(c, InterestEvent(i))
            == CashFill(c.(interest := cost), SideOf(i.spotQuantityDelta), price, Abs(i.spotQuantityDelta), 0.0)
  {}

  lemma InterestBooks(l: Ledger, c: Cash, i: Interest)
    requires Booked(l, c) && SnapshotsFresh(l) && ApplyInterest(l, i).Ok?
    ensures Booked(ApplyInterest(l, i).value, CashEvent(c, InterestEvent(i)))
    ensures SnapshotsFresh(ApplyInterest(l, i).value)
  {
    var delta := i.spotQuantityDelta;
    var cost := AddCost(l, i).interestCost;
    if delta == 0.0 || ConversionPrice(l.mark, i).None? {
      SameBooked(l, c, ApplyInterest(l, i).value, c.(interest := cost));
    } else {
      var price := ConversionPrice(l.mark, i).value;
      var f := Fill(SideOf(delta), price, Abs(delta), 0.0);
      assert Accepts(f) && ApplyInterest(l, i).value == Converted(l, i, f) by { InterestShape(l, i, price); }
      ConvertedBooks(l, c, i, f, cost);
      CashInterestShape(c, i, price, cost);
    }
  }

  lemma SeedBooks(l: Ledger, c: Cash, quantity: real, mark: real, leg: Leg)
    requires Booked(l.(mark := Some(mark)), c.(mark := Some(mark))) && mark > 0.0
    ensures var s := SeedFifo(Absolute, if leg == SpotLeg then l.spot else l.futures, quantity, mark);
            s.Ok? && Booked((if leg == SpotLeg then l.(spot := s.value)
                             else l.(futures := s.value)).(mark := Some(mark)),
                            CashSeed(c, quantity, mark).(mark := Some(mark)))
  {
    if Abs(quantity) > F64_EPSILON {
      var f := Fill(SideOf(quantity), mark, Abs(quantity), 0.0);
      VenueFillBooks(l.(mark := Some(mark)), c.(mark := Some(mark)), f, leg);
    }
  }

  lemma PositionBooks(l: Ledger, c: Cash, p: InitialPosition)
    requires Booked(l, c) && p.markPrice > 0.0
    ensures SeedPosition(l, p).Ok?
    ensures Booked(SeedPosition(l, p).value, CashPosition(c, p)) && SnapshotsFresh(SeedPosition(l, p).value)
  {
    var m := p.markPrice;
    SameBooked(l, c, l.(mark := Some(m)), c.(mark := Some(m)));
    SeedBooks(l, c, p.spotQuantity, m, SpotLeg);
    var l1 := l.(spot := SeedFifo(Absolute, l.spot, p.spotQuantity, m).value);
    var c1 := CashSeed(c, p.spotQuantity, m);
    SeedBooks(l1, c1, p.futuresQuantity, m, FuturesLeg);
    var l2 := l1.(futures := SeedFifo(Absolute, l1.futures, p.futuresQuantity, m).value);
    SameBooked(l2.(mark := Some(m)), CashPosition(c, p), SeedPosition(l, p).value, CashPosition(c, p));
  }

  // ---- Whole histories

  datatype HistoryItem = Seed(position: InitialPosition) | Event(event: PnlEvent)

  function ApplyItem(l: Ledger, item: HistoryItem): Result<Ledger, PnlError> {
    match item
    case Seed(p) => SeedPosition(l, p)
    case Event(ev) => ApplyEvent(l, ev)
  }

  function CashItem(c: Cash, item: HistoryItem): Cash {
    match item
    case Seed(p) => CashPosition(c, p)
    case Event(ev) => CashEvent(c, ev)
  }

  function LedgerOf(kind: Measure, history: seq<HistoryItem>): Result<Ledger, PnlError>
    decreases |history|
  {
    if history == [] then Ok(NewLedger(kind)) else
      var before := LedgerOf(kind, history[..|history| - 1]);
      if before.Err? then before else ApplyItem(before.value, history[|history| - 1])
  }

  function CashOf(history: seq<HistoryItem>): Cash
    decreases |history|
  {
    if history == [] then NO_CASH else CashItem(CashOf(history[..|history| - 1]), history[|history| - 1])
  }

  lemma ItemBooks(l: Ledger, c: Cash, item: HistoryItem)
    requires Booked(l, c) && SnapshotsFresh(l) && ApplyItem(l, item).Ok?
    ensures Booked(ApplyItem(l, item).value, CashItem(c, item)) && SnapshotsFresh(ApplyItem(l, item).value)
  {
    match item
    case Seed(p) => PositionBooks(l, c, p);
    case Event(ev) =>
      match ev {
        case TradeEvent(t) => TradeBooks(l, c, t);
        case FundingEvent(f) => SameBooked(l, c, ApplyItem(l, item).value, CashItem(c, item));
        case InterestEvent(i) => InterestBooks(l, c, i);
      }
  }

  lemma NothingSpent(m: real)
    ensures CashAt(NO_CASH, m) == 0.0
  {}

  lemma NewBooked()
    ensures Booked(NewLedger(Absolute), NO_CASH) && SnapshotsFresh(NewLedger(Absolute))
  {
    hide GrossAt, CashAt;
    forall m: real ensures GrossAgrees(NewLedger(Absolute), NO_CASH, m) {
      EmptyGross(m);
      NothingSpent(m);
    }
  }

  lemma {:induction false} HistoryBooked(history: seq<HistoryItem>)
    requires LedgerOf(Absolute, history).Ok?
    ensures Booked(LedgerOf(Absolute, history).value, CashOf(history))
    ensures SnapshotsFresh(LedgerOf(Absolute, history).value)
    decreases |history|
  {
    if history == [] {
      NewBooked();
    } else {
      var init := history[..|history| - 1];
      hide Booked, SnapshotsFresh, ApplyItem, CashItem;
      HistoryBooked(init);
      ItemBooks(LedgerOf(Absolute, init).value, CashOf(init), history[|history| - 1]);
    }
  }

  lemma VenueTotal(k: Measure, s: Fifo, m: real)
    ensures Venue(k, s, m, m).totalPnl == GrossAt(k, s, m) - s.fees
  {}

  /** The cached snapshots add up to gross PnL at the mark less fees. */
  lemma SnapshotTotals(l: Ledger, mark: real)
    requires l.kind == Absolute && SnapshotsFresh(l) && (l.mark.Some? ==> mark == l.mark.value)
    ensures TotalOf(l.spotSnapshot) == GrossAt(Absolute, l.spot, mark) - l.spot.fees
    ensures TotalOf(l.futuresSnapshot) == GrossAt(Absolute, l.futures, mark) - l.futures.fees
  {
    VenueTotal(Absolute, l.spot, mark);
    VenueTotal(Absolute, l.futures, mark);
    EmptyGross(mark);
    hide Venue, GrossAt;
  }

  lemma EmptyGross(mark: real)
    ensures GrossAt(Absolute, EMPTY, mark) == 0.0 && EMPTY.fees == 0.0
  {}

  lemma BookedAt(l: Ledger, c: Cash, mark: real)
    requires Booked(l, c)
    ensures GrossAt(Absolute, l.spot, mark) + GrossAt(Absolute, l.futures, mark) == CashAt(c, mark)
    ensures l.kind == Absolute && l.mark == c.mark && l.spot.fees + l.futures.fees == c.fees
    ensures l.fundingPnl == c.funding && l.interestCost == c.interest
  {
    hide CashAt, GrossAt, FifoOk;
    assert GrossAgrees(l, c, mark);
  }

  lemma TotalParts(l: Ledger)
    ensures TotalPnl(l) == TotalOf(l.spotSnapshot) + TotalOf(l.futuresSnapshot) + l.fundingPnl - l.interestCost
  {}

  lemma BookedTotal(l: Ledger, c: Cash, mark: real)
    requires Booked(l, c) && SnapshotsFresh(l) && mark == (if c.mark.Some? then c.mark.value else 0.0)
    ensures TotalPnl(l) == CashAt(c, mark) - c.fees + c.funding - c.interest
  {
    hide *;
    BookedAt(l, c, mark);
    SnapshotTotals(l, mark);
    TotalParts(l);
  }

  /**
   Cash identity: after any history of seeds, trades, funding and interest on a quantity-based source, the
   reported total is the marked position less net cash spent and fees, plus funding, less interest.
   */
  lemma TotalIsCash(history: seq<HistoryItem>)
    requires LedgerOf(Absolute, history).Ok?
    ensures var l := LedgerOf(Absolute, history).value; var c := CashOf(history);
            var mark := if c.mark.Some? then c.mark.value else 0.0;
            && l.mark == c.mark
            && TotalPnl(l) == CashAt(c, mark) - c.fees + c.funding - c.interest
            && SnapshotsFresh(l)
  {
    HistoryBooked(history);
    var c := CashOf(history);
    BookedTotal(LedgerOf(Absolute, history).value, c, if c.mark.Some? then c.mark.value else 0.0);
  }

  // ---- Reported quantities

  /** By how much a reported quantity differs from what its FIFO holds. */
  function SpotGap(l: Ledger): real { l.spotQty - NetOpen(l.spot) }

  function FuturesGap(l: Ledger): real { l.futuresQty - NetOpen(l.futures) }

  ghost predicate Quantities(l: Ledger) { l.kind == Absolute && FifoOk(l.spot) && FifoOk(l.futures) }

  /** A seed that is not too small is a fill at the mark. */
  lemma SeedFill(s: Fifo, quantity: real, mark: real)
    requires Abs(quantity) > F64_EPSILON
    ensures var f := Fill(SideOf(quantity), mark, Abs(quantity), 0.0);
            SeedFifo(Absolute, s, quantity, mark)
            == if Accepts(f) then Ok(ApplyFill(Absolute, s, f)) else Err(RejectedFill)
  {
    hide ApplyFill;
  }

  /** Trades, funding and interest move the reported quantities and the FIFOs by the same amounts. */
  lemma EventKeepsGaps(l: Ledger, ev: PnlEvent)
    requires Quantities(l) && ApplyEvent(l, ev).Ok?
    ensures var r := ApplyEvent(l, ev).value;
            Quantities(r) && SpotGap(r) == SpotGap(l) && FuturesGap(r) == FuturesGap(l)
  {
    hide Venue, ApplyFill, FifoOk, NetOpen;
    match ev
    case TradeEvent(t) =>
      var f := Fill(t.side, t.price, t.quantity, FeeOf(t));
      FillKeepsOk(Absolute, if t.leg == SpotLeg then l.spot else l.futures, f);
    case FundingEvent(_) =>
    case InterestEvent(i) =>
      var delta := i.spotQuantityDelta;
      if delta != 0.0 && ConversionPrice(l.mark, i).Some? {
        FillKeepsOk(Absolute, l.spot, Fill(SideOf(delta), ConversionPrice(l.mark, i).value, Abs(delta), 0.0));
      }
  }

  lemma EmptyHolds()
    ensures FifoOk(EMPTY) && NetOpen(EMPTY) == 0.0
  {}

  lemma FirstFill(f: Fill)
    requires Accepts(f)
    ensures FifoOk(ApplyFill(Absolute, EMPTY, f)) && NetOpen(ApplyFill(Absolute, EMPTY, f)) == Direction(f, f.amount)
  {
    EmptyHolds();
    FillKeepsOk(Absolute, EMPTY, f);
  }

  lemma SignedQuantity(quantity: real, mark: real)
    ensures Direction(Fill(SideOf(quantity), mark, Abs(quantity), 0.0), Abs(quantity)) == quantity
    ensures Abs(quantity) > F64_EPSILON && mark > 0.0 ==> Accepts(Fill(SideOf(quantity), mark, Abs(quantity), 0.0))
  {}

  lemma SeedGap(quantity: real, mark: real)
    requires mark > 0.0 && Abs(quantity) > F64_EPSILON
    ensures var s := SeedFifo(Absolute, EMPTY, quantity, mark);
            s.Ok? && FifoOk(s.value) && NetOpen(s.value) == quantity
  {
    SeedFill(EMPTY, quantity, mark);
    SignedQuantity(quantity, mark);
    hide *;
    FirstFill(Fill(SideOf(quantity), mark, Abs(quantity), 0.0));
  }

  /** A seed leaves a gap only where its quantity is too small to enter the FIFO. */
  lemma SeedKeeps(quantity: real, mark: real)
    requires mark > 0.0
    ensures var s := SeedFifo(Absolute, EMPTY, quantity, mark);
            s.Ok? && FifoOk(s.value) && Abs(quantity - NetOpen(s.value)) <= F64_EPSILON
  {
    EmptyHolds();
    hide FifoOk, NetOpen, VenueFill;
    if Abs(quantity) > F64_EPSILON {
      SeedGap(quantity, mark);
    } else {
      assert SeedFifo(Absolute, EMPTY, quantity, mark) == Ok(EMPTY);
    }
  }

  ghost predicate Aligned(l: Ledger) {
    Quantities(l) && Abs(SpotGap(l)) <= F64_EPSILON && Abs(FuturesGap(l)) <= F64_EPSILON
  }

  lemma SeededAligned(l: Ledger, p: InitialPosition)
    requires l.kind == Absolute && l.spot == EMPTY && l.futures == EMPTY && SeedPosition(l, p).Ok?
    ensures Aligned(SeedPosition(l, p).value)
  {
    hide SeedFifo, Venue, FifoOk, NetOpen;
    SeedKeeps(p.spotQuantity, p.markPrice);
    SeedKeeps(p.futuresQuantity, p.markPrice);
    var spot := SeedFifo(Absolute, EMPTY, p.spotQuantity, p.markPrice).value;
    var futures := SeedFifo(Absolute, EMPTY, p.futuresQuantity, p.markPrice).value;
    var r := SeedPosition(l, p).value;
    assert r.spot == spot && r.futures == futures && r.kind == Absolute;
    assert r.spotQty == p.spotQuantity && r.futuresQty == p.futuresQuantity;
  }

  lemma NewAligned()
    ensures Aligned(NewLedger(Absolute))
  {
    EmptyHolds();
    hide FifoOk, NetOpen;
    assert SpotGap(NewLedger(Absolute)) == 0.0 && FuturesGap(NewLedger(Absolute)) == 0.0;
  }

  lemma EventAligned(l: Ledger, ev: PnlEvent)
    requires Aligned(l) && ApplyEvent(l, ev).Ok?
    ensures Aligned(ApplyEvent(l, ev).value)
  {
    EventKeepsGaps(l, ev);
    hide ApplyEvent, Quantities, SpotGap, FuturesGap;
  }

  /**
   On a quantity-based source, after at most one seed and any events, both reported quantities are what the FIFOs
   hold, up to a seeded quantity that was too small to enter its FIFO.
   */
  lemma {:induction false} QuantitiesAligned(history: seq<HistoryItem>)
    requires LedgerOf(Absolute, history).Ok? && forall i :: 0 < i < |history| ==> history[i].Event?
    ensures Aligned(LedgerOf(Absolute, history).value)
    decreases |history|
  {
    NewAligned();
    hide Aligned, ApplyEvent, SeedPosition;
    if history != [] {
      var init, last := history[..|history| - 1], history[|history| - 1];
      QuantitiesAligned(init);
      if last.Event? {
        EventAligned(LedgerOf(Absolute, init).value, last.event);
      } else {
        SeededAligned(NewLedger(Absolute), last.position);
      }
    }
  }
}
