/** What each input moves in the state of a symbol: which venue, by which quantity, at which price, and nothing else. */
module SymbolMoves {
  import opened Prelude
  import opened FifoLots
  import opened FifoEquivalence
  import opened FifoReturns
  import opened SymbolLedger

  /** The unit a venue counts in. */
  function Counted(kind: Measure, amountU: real, quantity: real): real {
    match kind
    case Relative => amountU
    case Absolute => quantity
  }

  /** A venue took a fill of this amount, with the price that was paid, and reports what it realized. */
  ghost predicate Took(kind: Measure, before: Fifo, after: Fifo, side: Side, price: real, amount: real, fee: real) {
    exists report :: FilledWith(kind, before, Fill(side, price, amount, fee), after, report)
  }

  lemma FillTaken(kind: Measure, s: Fifo, side: Side, price: real, amountU: real, quantity: real, fee: real)
    requires FifoOk(s)
    ensures var r := VenueFill(kind, s, side, price, amountU, quantity, fee);
            var amount := Counted(kind, amountU, quantity);
            && (r.Ok? <==> price > 0.0 && amount > 0.0)
            && (r.Ok? ==> FifoOk(r.value) && Took(kind, s, r.value, side, price, amount, fee))
  {
    var f := Fill(side, price, Counted(kind, amountU, quantity), fee);
    if Accepts(f) {
      FillEarns(kind, s, f);
      FillKeepsOk(kind, s, f);
      hide FilledWith, FifoOk;
      assert FilledWith(kind, s, f, ApplyFill(kind, s, f), Report(kind, s, f));
    }
    hide ApplyFill;
  }

  /** Both venues are marked at the last price. */
  ghost predicate MarkedAt(l: Ledger, price: real) {
    && l.mark == Some(price)
    && l.spotSnapshot == Some(Venue(l.kind, l.spot, price, price))
    && l.futuresSnapshot == Some(Venue(l.kind, l.futures, price, price))
  }

  /**
   A trade fills the venue of its leg, in quote amount or in quantity as the source counts, moves the reported quantity
   of that leg by its signed quantity and the volume by its quote amount, and marks both venues at its price. It is
   rejected exactly when its price or the amount counted is not positive.
   */
  lemma TradeMoves(l: Ledger, t: Trade)
    requires FifoOk(l.spot) && FifoOk(l.futures)
    ensures ApplyTrade(l, t).Ok? <==> t.price > 0.0 && Counted(l.kind, t.amountU, t.quantity) > 0.0
    ensures ApplyTrade(l, t).Ok? ==>
              var r := ApplyTrade(l, t).value;
              var signed := if t.side == Buy then t.quantity else -t.quantity;
              var fee := if t.feeUsdt.Some? then t.feeUsdt.value else 0.0;
              var amount := Counted(l.kind, t.amountU, t.quantity);
              && (match t.leg
                  case SpotLeg =>
                    && Took(l.kind, l.spot, r.spot, t.side, t.price, amount, fee) && r.futures == l.futures
                    && r.spotQty == l.spotQty + signed && r.futuresQty == l.futuresQty
                  case FuturesLeg =>
                    && Took(l.kind, l.futures, r.futures, t.side, t.price, amount, fee) && r.spot == l.spot
                    && r.futuresQty == l.futuresQty + signed && r.spotQty == l.spotQty)
              && r.volume == l.volume + t.amountU && r.tradeCount == l.tradeCount + 1
              && r.unconvertedFees == l.unconvertedFees + (if t.feeUsdt.None? then 1 else 0)
              && r.fundingPnl == l.fundingPnl && r.interestCost == l.interestCost
              && r.unconvertedInterest == l.unconvertedInterest && r.kind == l.kind && MarkedAt(r, t.price)
  {
    FillTaken(l.kind, if t.leg == SpotLeg then l.spot else l.futures, t.side, t.price, t.amountU, t.quantity, FeeOf(t));
    hide VenueFill, Took, Venue, FifoOk;
  }

  /** The price at which interest paid in the asset enters: its own, else its cost a unit, else the last price. */
  function EntryPrice(l: Ledger, i: Interest): Option<real>
    requires i.spotQuantityDelta != 0.0
  {
    InterestPrice(l.mark, i.conversionPrice, i.costUsdt, i.spotQuantityDelta)
  }

  lemma EntryIsConversion(l: Ledger, i: Interest)
    requires i.spotQuantityDelta != 0.0
    ensures EntryPrice(l, i) == ConversionPrice(l.mark, i)
  {}

  /** The cost and the counts after an interest event. */
  ghost predicate Costed(l: Ledger, r: Ledger, i: Interest) {
    && r.interestCost == l.interestCost + (if i.costUsdt.Some? then i.costUsdt.value else 0.0)
    && r.unconvertedInterest == l.unconvertedInterest + (if i.costUsdt.None? then 1 else 0)
    && r.futures == l.futures && r.futuresQty == l.futuresQty && r.fundingPnl == l.fundingPnl
    && r.volume == l.volume && r.tradeCount == l.tradeCount && r.unconvertedFees == l.unconvertedFees
    && r.kind == l.kind
  }

  function Size(quantity: real): real { if quantity > 0.0 then quantity else -quantity }

  function Towards(quantity: real): Side { if quantity > 0.0 then Buy else Sell }

  lemma SizeIsAbs(quantity: real)
    ensures Abs(quantity) == Size(quantity) && SideOf(quantity) == Towards(quantity)
  {}

  /** The spot venue took the interest quantity at this price. */
  ghost predicate Converts(l: Ledger, r: Ledger, delta: real, price: real) {
    && r.spotQty == l.spotQty + delta && MarkedAt(r, price)
    && (if delta > 0.0 then Took(Absolute, l.spot, r.spot, Buy, price, delta, 0.0)
        else Took(Absolute, l.spot, r.spot, Sell, price, -delta, 0.0))
  }

  /** The spot venue and its marks stay as they are. */
  ghost predicate Leaves(l: Ledger, r: Ledger, delta: real) {
    && r.spot == l.spot && r.mark == l.mark
    && r.spotSnapshot == l.spotSnapshot && r.futuresSnapshot == l.futuresSnapshot
    && r.spotQty == l.spotQty + (if l.kind == Relative then delta else 0.0)
  }

  /** The state once interest has filled the spot venue, or why it was rejected. */
  lemma InterestFills(l: Ledger, i: Interest, price: real, amountU: real, size: real, side: Side)
    requires l.kind == Absolute && i.spotQuantityDelta != 0.0 && EntryPrice(l, i) == Some(price)
    requires size == Size(i.spotQuantityDelta) && side == Towards(i.spotQuantityDelta) && amountU == size * price
    ensures var filled := VenueFill(Absolute, l.spot, side, price, amountU, size, 0.0);
            && (ApplyInterest(l, i).Err? <==> filled.Err?)
            && (filled.Ok? ==>
                  var r := ApplyInterest(l, i).value;
                  && Costed(l, r, i) && r.spot == filled.value && MarkedAt(r, price)
                  && r.spotQty == l.spotQty + i.spotQuantityDelta)
  {
    EntryIsConversion(l, i);
    SizeIsAbs(i.spotQuantityDelta);
    hide VenueFill, Venue, ConversionPrice, EntryPrice, Abs, Size, SideOf, Towards;
  }

  lemma InterestConverts(l: Ledger, i: Interest, price: real)
    requires FifoOk(l.spot) && l.kind == Absolute
    requires i.spotQuantityDelta != 0.0 && EntryPrice(l, i) == Some(price)
    ensures ApplyInterest(l, i).Err? <==> price <= 0.0
    ensures ApplyInterest(l, i).Ok? ==>
              Costed(l, ApplyInterest(l, i).value, i)
              && Converts(l, ApplyInterest(l, i).value, i.spotQuantityDelta, price)
  {
    var size, side := Size(i.spotQuantityDelta), Towards(i.spotQuantityDelta);
    InterestFills(l, i, price, size * price, size, side);
    FillTaken(Absolute, l.spot, side, price, size * price, size, 0.0);
    hide VenueFill, Took, Venue, FifoOk, EntryPrice, ApplyInterest, Costed, MarkedAt;
  }

  lemma InterestLeaves(l: Ledger, i: Interest)
    requires l.kind == Relative || i.spotQuantityDelta == 0.0 || EntryPrice(l, i).None?
    ensures ApplyInterest(l, i).Ok? && Costed(l, ApplyInterest(l, i).value, i)
    ensures Leaves(l, ApplyInterest(l, i).value, i.spotQuantityDelta)
  {
    if i.spotQuantityDelta != 0.0 {
      EntryIsConversion(l, i);
    }
    hide ConversionPrice, EntryPrice, VenueFill;
  }

  /**
   Interest adds its cost. On a quantity-based source an interest quantity also fills the spot venue at its entry price,
   as a buy when it is positive, and moves the reported spot quantity with it; without such a price it does neither. On
   an amount-based source the reported quantity moves alone.
   */
  lemma InterestMoves(l: Ledger, i: Interest)
    requires FifoOk(l.spot) && FifoOk(l.futures)
    ensures var r, delta := ApplyInterest(l, i), i.spotQuantityDelta;
            if l.kind == Absolute && delta != 0.0 && EntryPrice(l, i).Some? then
              var price := EntryPrice(l, i).value;
              && (r.Err? <==> price <= 0.0)
              && (r.Ok? ==> Costed(l, r.value, i) && Converts(l, r.value, delta, price))
            else r.Ok? && Costed(l, r.value, i) && Leaves(l, r.value, delta)
  {
    hide Costed, Converts, Leaves, FifoOk, ApplyInterest, EntryPrice;
    if l.kind == Absolute && i.spotQuantityDelta != 0.0 && EntryPrice(l, i).Some? {
      InterestConverts(l, i, EntryPrice(l, i).value);
    } else {
      InterestLeaves(l, i);
    }
  }

  /** A venue seeded with a quantity: an untouched one when there is next to nothing, else a fill at the mark. */
  ghost predicate Seeded(kind: Measure, before: Fifo, after: Fifo, quantity: real, mark: real) {
    if Abs(quantity) <= F64_EPSILON then after == before
    else
      var side := if quantity > 0.0 then Buy else Sell;
      Took(kind, before, after, side, mark, Counted(kind, Abs(quantity) * mark, Abs(quantity)), 0.0)
  }

  lemma SeedTaken(kind: Measure, s: Fifo, quantity: real, mark: real)
    requires FifoOk(s) && mark > 0.0
    ensures SeedFifo(kind, s, quantity, mark).Ok?
    ensures Seeded(kind, s, SeedFifo(kind, s, quantity, mark).value, quantity, mark)
  {
    if Abs(quantity) > F64_EPSILON {
      PositiveProduct(Abs(quantity), mark);
      FillTaken(kind, s, SideOf(quantity), mark, Abs(quantity) * mark, Abs(quantity), 0.0);
    }
    hide VenueFill, Took, FifoOk, Abs;
  }

  lemma PositiveProduct(x: real, y: real)
    requires x > 0.0 && y > 0.0
    ensures x * y > 0.0
  {}

  /** A seeded position fills each venue with its own quantity at the mark; a mark that is not positive is rejected. */
  lemma SeedMoves(l: Ledger, p: InitialPosition)
    requires FifoOk(l.spot) && FifoOk(l.futures)
    ensures SeedPosition(l, p).Ok? <==> p.markPrice > 0.0
    ensures SeedPosition(l, p).Ok? ==>
              var r := SeedPosition(l, p).value;
              && Seeded(l.kind, l.spot, r.spot, p.spotQuantity, p.markPrice)
              && Seeded(l.kind, l.futures, r.futures, p.futuresQuantity, p.markPrice)
              && r.spotQty == p.spotQuantity && r.futuresQty == p.futuresQuantity && MarkedAt(r, p.markPrice)
              && r.volume == l.volume && r.tradeCount == l.tradeCount
              && r.fundingPnl == l.fundingPnl && r.interestCost == l.interestCost && r.kind == l.kind
  {
    if p.markPrice > 0.0 {
      SeedTaken(l.kind, l.spot, p.spotQuantity, p.markPrice);
      SeedTaken(l.kind, l.futures, p.futuresQuantity, p.markPrice);
    }
    hide SeedFifo, Seeded, Venue, FifoOk;
  }
}
