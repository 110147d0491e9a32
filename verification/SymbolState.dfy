/** The per-symbol state as the mutable object it is. */
module SymbolStates {
  import opened Prelude
  import opened FifoLots
  import opened FifoEquivalence
  import opened SymbolLedger

  class SymbolState {
    const kind: Measure
    var spotFifo: Fifo
    var futuresFifo: Fifo
    var fundingPnlUsdt: real
    var interestCostUsdt: real
    var tradeCount: nat
    var volumeUsdt: real
    var spotPositionQty: real
    var futuresPositionQty: real
    var markPrice: Option<real>
    var unconvertedFeeCount: nat
    var unconvertedInterestCount: nat
    var spotSnapshot: Option<VenueSnapshot>
    var futuresSnapshot: Option<VenueSnapshot>

    function View(): Ledger
      reads this
    {
      Ledger(kind, spotFifo, futuresFifo, fundingPnlUsdt, interestCostUsdt, tradeCount, volumeUsdt,
             spotPositionQty, futuresPositionQty, markPrice, unconvertedFeeCount, unconvertedInterestCount,
             spotSnapshot, futuresSnapshot)
    }

    constructor ForSource(kind: Measure)
      ensures View() == NewLedger(kind)
    {
      this.kind := kind;
      spotFifo, futuresFifo := EMPTY, EMPTY;
      fundingPnlUsdt, interestCostUsdt, volumeUsdt := 0.0, 0.0, 0.0;
      spotPositionQty, futuresPositionQty := 0.0, 0.0;
      tradeCount, unconvertedFeeCount, unconvertedInterestCount := 0, 0, 0;
      markPrice, spotSnapshot, futuresSnapshot := None, None, None;
    }

    method MarkAt(price: real)
      modifies this`markPrice, this`spotSnapshot, this`futuresSnapshot
      ensures View() == Marked(old(View()), price)
    {
      markPrice := Some(price);
      spotSnapshot := Some(Venue(kind, spotFifo, price, price));
      futuresSnapshot := Some(Venue(kind, futuresFifo, price, price));
    }

    method Seed(position: InitialPosition) returns (error: Option<PnlError>)
      modifies this
      ensures error.Some? <==> SeedPosition(old(View()), position).Err?
      ensures error.Some? ==> error.value == SeedPosition(old(View()), position).error
      ensures error.None? ==> View() == SeedPosition(old(View()), position).value
    {
      hide SeedFifo, Venue;
      if position.markPrice <= 0.0 {
        return Some(InvalidInitialMark);
      }
      var spot := SeedFifo(kind, spotFifo, position.spotQuantity, position.markPrice);
      if spot.Err? {
        return Some(spot.error);
      }
      spotFifo := spot.value;
      var futures := SeedFifo(kind, futuresFifo, position.futuresQuantity, position.markPrice);
      if futures.Err? {
        return Some(futures.error);
      }
      futuresFifo := futures.value;
      spotPositionQty, futuresPositionQty := position.spotQuantity, position.futuresQuantity;
      MarkAt(position.markPrice);
      return None;
    }

    /** A rejected trade has still been counted when its fee could not be converted. */
    method Trade(trade: SymbolLedger.Trade) returns (error: Option<PnlError>)
      modifies this
      ensures error.Some? <==> ApplyTrade(old(View()), trade).Err?
      ensures error.Some? ==> error.value == ApplyTrade(old(View()), trade).error
      ensures error.Some? ==>
                View() == old(View()).(unconvertedFees := old(unconvertedFeeCount)
                                         + (if trade.feeUsdt.None? then 1 else 0))
      ensures error.None? ==> View() == ApplyTrade(old(View()), trade).value
    {
      var fee := FeeOf(trade);
      if trade.feeUsdt.None? {
        unconvertedFeeCount := unconvertedFeeCount + 1;
      }
      var filled := VenueFill(kind, if trade.leg == SpotLeg then spotFifo else futuresFifo,
                              trade.side, trade.price, trade.amountU, trade.quantity, fee);
      if filled.Err? {
        return Some(filled.error);
      }
      Book(trade, filled.value);
      MarkAt(trade.price);
      return None;
    }

    /** Books a filled trade; its fee has been looked at already. */
    method Book(trade: SymbolLedger.Trade, filled: Fifo)
      modifies this`spotFifo, this`futuresFifo, this`tradeCount, this`volumeUsdt,
               this`spotPositionQty, this`futuresPositionQty
      ensures View() == Traded(old(View()), trade, filled).(unconvertedFees := old(unconvertedFeeCount))
    {
      tradeCount := tradeCount + 1;
      volumeUsdt := volumeUsdt + trade.amountU;
      var signed := if trade.side == Buy then trade.quantity else -trade.quantity;
      if trade.leg == SpotLeg {
        spotFifo := filled;
        spotPositionQty := spotPositionQty + signed;
      } else {
        futuresFifo := filled;
        futuresPositionQty := futuresPositionQty + signed;
      }
    }

    method AddInterestCost(interest: SymbolLedger.Interest)
      modifies this`interestCostUsdt, this`unconvertedInterestCount
      ensures View() == AddCost(old(View()), interest)
    {
      if interest.costUsdt.Some? {
        interestCostUsdt := interestCostUsdt + interest.costUsdt.value;
      } else {
        unconvertedInterestCount := unconvertedInterestCount + 1;
      }
    }

    method Interest(interest: SymbolLedger.Interest) returns (error: Option<PnlError>)
      modifies this
      ensures error.Some? <==> ApplyInterest(old(View()), interest).Err?
      ensures error.Some? ==> error.value == ApplyInterest(old(View()), interest).error && View() == old(View())
      ensures error.None? ==> View() == ApplyInterest(old(View()), interest).value
    {
      var delta := interest.spotQuantityDelta;
      if delta != 0.0 && kind == Absolute {
        var conversion := ConversionPrice(markPrice, interest);
        if conversion.None? {
          AddInterestCost(interest);
          return None;
        }
        var price := conversion.value;
        var filled := VenueFill(kind, spotFifo, SideOf(delta), price, Abs(delta) * price, Abs(delta), 0.0);
        if filled.Err? {
          return Some(filled.error);
        }
        spotFifo := filled.value;
        MarkAt(price);
      }
      spotPositionQty := spotPositionQty + delta;
      AddInterestCost(interest);
      return None;
    }

    method Funding(funding: SymbolLedger.Funding)
      modifies this`fundingPnlUsdt
      ensures ApplyEvent(old(View()), FundingEvent(funding)) == Ok(View())
    {
      fundingPnlUsdt := fundingPnlUsdt + funding.amountUsdt;
    }
  }
}
