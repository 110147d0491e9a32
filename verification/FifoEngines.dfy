/** The two PnL engines as mutable objects: amounts with cached totals, and base quantities. */
module FifoEngines {
  import opened Prelude
  import opened FifoLots
  import opened FifoEquivalence
  import opened FifoReturns

  function PositiveError(field: string, value: real): Option<FifoError> {
    if value > 0.0 then None else Some(InvalidPositiveValue(field, value))
  }

  function FirstError(a: Option<FifoError>, b: Option<FifoError>): Option<FifoError> {
    if a.Some? then a else b
  }

  function FillError(price: real, amountField: string, amount: real): Option<FifoError> {
    FirstError(PositiveError("price", price), PositiveError(amountField, amount))
  }

  function QuoteError(bid: real, ask: real): Option<FifoError> {
    FirstError(PositiveError("bid", bid), PositiveError("ask", ask))
  }

  /** Closes lots oldest first; `direction` is 1 for long lots and -1 for short lots. */
  method CloseFifo(k: Measure, lots: seq<Lot>, closePrice: real, amount: real, direction: real)
    returns (rest: seq<Lot>, realized: real, remaining: real)
    requires Positive(lots) && amount > 0.0 && (direction == 1.0 || direction == -1.0)
    ensures rest == Rest(lots, amount) && remaining == Unmatched(lots, amount)
    ensures var earned := Pnl(lots, amount, Earn(k, closePrice));
            realized == if direction > 0.0 then earned else -earned
  {
    var w := Earn(k, closePrice);
    rest, realized, remaining := lots, 0.0, amount;
    ghost var earned := 0.0;
    TotalPositive(lots);
    while remaining > 0.0 && rest != []
      invariant Positive(rest) && remaining >= 0.0
      invariant Rest(rest, remaining) == Rest(lots, amount)
      invariant Unmatched(rest, remaining) == Unmatched(lots, amount)
      invariant earned + Pnl(rest, remaining, w) == Pnl(lots, amount, w)
      invariant realized == if direction > 0.0 then earned else -earned
      decreases |rest|, remaining > 0.0
    {
      var lot := rest[0];
      var matched := Min(remaining, lot.amount);
      CloseOneLot(rest, remaining, w);
      hide Rest, Pnl, Unmatched, Positive, Total, Earn;
      realized := realized + (if direction > 0.0 then w(lot.price, matched) else -w(lot.price, matched));
      earned := earned + w(lot.price, matched);
      remaining := remaining - matched;
      if lot.amount - matched == 0.0 {
        rest := rest[1..];
      } else {
        rest := [Lot(lot.price, lot.amount - matched)] + rest[1..];
      }
    }
    TotalPositive(rest);
  }

  /** What one round of the closing loop leaves to be closed. */
  lemma CloseOneLot(lots: seq<Lot>, amount: real, w: Earning)
    requires Positive(lots) && lots != [] && amount > 0.0
    ensures var matched := Min(amount, lots[0].amount);
            var left := if lots[0].amount - matched == 0.0 then lots[1..]
                        else [Lot(lots[0].price, lots[0].amount - matched)] + lots[1..];
            && amount - matched >= 0.0 && Positive(left)
            && (|left| < |lots| || (|left| == |lots| && amount - matched == 0.0))
            && Rest(left, amount - matched) == Rest(lots, amount)
            && Unmatched(left, amount - matched) == Unmatched(lots, amount)
            && w(lots[0].price, matched) + Pnl(left, amount - matched, w) == Pnl(lots, amount, w)
  {
    TotalPositive(lots);
    TotalPositive(lots[1..]);
    var matched := Min(amount, lots[0].amount);
    if lots[0].amount - matched != 0.0 {
      var left := [Lot(lots[0].price, lots[0].amount - matched)] + lots[1..];
      assert left[1..] == lots[1..];
      assert Pnl(lots[1..], 0.0, w) == 0.0 && Pnl(left, 0.0, w) == 0.0;
    }
  }

  /** How a fill moves the totals of both sides. */
  lemma FillTotals(k: Measure, s: Fifo, f: Fill)
    requires FifoOk(s) && Accepts(f)
    ensures var r := ApplyFill(k, s, f);
            var left := Opened(s, f);
            && left >= 0.0
            && Total(r.longs) == Total(s.longs) + (if f.side == Buy then left else left - f.amount)
            && Total(r.shorts) == Total(s.shorts) + (if f.side == Buy then left - f.amount else left)
  {
    RestIsPositive(Closed(s, f), f.amount);
    PushIsPositive(if f.side == Buy then s.longs else s.shorts, f.price, Opened(s, f));
  }

  /** Amounts in quote currency, with cached long and short totals. */
  class FifoPnl {
    var longs: seq<Lot>
    var shorts: seq<Lot>
    var longAmountU: real
    var shortAmountU: real
    var grossRealizedPnl: real
    var cumulativeFees: real

    function View(): Fifo
      reads this
    {
      Fifo(longs, shorts, grossRealizedPnl, cumulativeFees)
    }

    /** Lots are positive and one-sided, and the cached totals are the sums over the lots. */
    ghost predicate Valid()
      reads this
    {
      FifoOk(View()) && longAmountU == Total(longs) && shortAmountU == Total(shorts)
    }

    constructor ()
      ensures Valid() && View() == EMPTY
    {
      longs, shorts, longAmountU, shortAmountU := [], [], 0.0, 0.0;
      grossRealizedPnl, cumulativeFees := 0.0, 0.0;
    }

    method Fill(side: Side, price: real, amountU: real, fee: real) returns (r: Result<FillResult, FifoError>)
      requires Valid()
      modifies this
      ensures Valid()
      ensures var error := FillError(price, "amount_u", amountU);
              if error.Some? then r == Err(error.value) && View() == old(View())
              else var f := FifoLots.Fill(side, price, amountU, fee);
                   r == Ok(Report(Relative, old(View()), f)) && View() == ApplyFill(Relative, old(View()), f)
      ensures r.Ok? ==>
                FilledWith(Relative, old(View()), FifoLots.Fill(side, price, amountU, fee), View(), r.value)
    {
      var error := FillError(price, "amount_u", amountU);
      if error.Some? {
        return Err(error.value);
      }
      FillEarns(Relative, View(), FifoLots.Fill(side, price, amountU, fee));
      hide FilledWith, Report, ApplyFill, FifoOk;
      var report := FillValid(side, price, amountU, fee);
      return Ok(report);
    }

    /** Applies a fill of a positive price and amount. */
    method FillValid(side: Side, price: real, amountU: real, fee: real) returns (r: FillResult)
      requires Valid() && Accepts(FifoLots.Fill(side, price, amountU, fee))
      modifies this
      ensures Valid()
      ensures var f := FifoLots.Fill(side, price, amountU, fee);
              r == Report(Relative, old(View()), f) && View() == ApplyFill(Relative, old(View()), f)
    {
      ghost var f := FifoLots.Fill(side, price, amountU, fee);
      ghost var s := View();
      FillKeepsOk(Relative, s, f);
      FillTotals(Relative, s, f);
      hide Rest, Pnl, Total, Positive, Unmatched, Earn;
      var realized, remaining := CloseOpposite(side, price, amountU);
      hide FifoOk;
      if remaining > 0.0 {
        Open(side, price, remaining);
      }
      grossRealizedPnl := grossRealizedPnl + realized;
      cumulativeFees := cumulativeFees + fee;
      assert View() == ApplyFill(Relative, s, f);
      return FillResult(realized, amountU - remaining, remaining, grossRealizedPnl - cumulativeFees,
                        longAmountU - shortAmountU);
    }

    /** Closes against the other side and takes what it matched off that side's cached total. */
    method CloseOpposite(side: Side, price: real, amountU: real) returns (realized: real, remaining: real)
      requires Positive(if side == Buy then shorts else longs) && amountU > 0.0
      modifies this`longs, this`shorts, this`longAmountU, this`shortAmountU
      ensures var closed := old(if side == Buy then shorts else longs);
              var earned := Pnl(closed, amountU, Earn(Relative, price));
              && remaining == Unmatched(closed, amountU)
              && realized == (if side == Buy then -earned else earned)
              && longs == (if side == Buy then old(longs) else Rest(closed, amountU))
              && shorts == (if side == Buy then Rest(closed, amountU) else old(shorts))
              && longAmountU == old(longAmountU) - (if side == Buy then 0.0 else amountU - remaining)
              && shortAmountU == old(shortAmountU) - (if side == Buy then amountU - remaining else 0.0)
    {
      if side == Buy {
        shorts, realized, remaining := CloseFifo(Relative, shorts, price, amountU, -1.0);
        shortAmountU := shortAmountU - (amountU - remaining);
      } else {
        longs, realized, remaining := CloseFifo(Relative, longs, price, amountU, 1.0);
        longAmountU := longAmountU - (amountU - remaining);
      }
    }

    /** Opens a lot with what was left of a fill. */
    method Open(side: Side, price: real, remaining: real)
      modifies this`longs, this`shorts, this`longAmountU, this`shortAmountU
      ensures longs == (if side == Buy then old(longs) + [Lot(price, remaining)] else old(longs))
      ensures shorts == (if side == Buy then old(shorts) else old(shorts) + [Lot(price, remaining)])
      ensures longAmountU == old(longAmountU) + (if side == Buy then remaining else 0.0)
      ensures shortAmountU == old(shortAmountU) + (if side == Buy then 0.0 else remaining)
    {
      if side == Buy {
        longs := longs + [Lot(price, remaining)];
        longAmountU := longAmountU + remaining;
      } else {
        shorts := shorts + [Lot(price, remaining)];
        shortAmountU := shortAmountU + remaining;
      }
    }

    /** Reads the cached totals; they are those of the lots. */
    method TakeSnapshot(bid: real, ask: real) returns (r: Result<PnlSnapshot, FifoError>)
      requires Valid()
      ensures var error := QuoteError(bid, ask);
              r == if error.Some? then Err(error.value) else Ok(Snapshot(Relative, View(), bid, ask))
      ensures r.Ok? ==> FifoOk(View()) && Shows(Relative, View(), bid, ask, r.value)
    {
      SnapshotEarns(Relative, View(), bid, ask);
      hide Shows;
      var error := QuoteError(bid, ask);
      if error.Some? {
        return Err(error.value);
      }
      var longPnl := ValueLoop(longs, Earn(Relative, ask));
      var shortPnl := ValueLoop(shorts, Earn(Relative, bid));
      var floating := longPnl - shortPnl;
      var realized := grossRealizedPnl - cumulativeFees;
      return Ok(PnlSnapshot(grossRealizedPnl, cumulativeFees, realized, floating, realized + floating,
                            longAmountU, shortAmountU, longAmountU - shortAmountU));
    }
  }

  /** Sums what lots earn, front to back. */
  method ValueLoop(lots: seq<Lot>, w: Earning) returns (sum: real)
    ensures sum == Value(lots, w)
  {
    sum := 0.0;
    var i := 0;
    while i < |lots|
      invariant i <= |lots| && sum + Value(lots[i..], w) == Value(lots, w)
    {
      assert lots[i..][1..] == lots[i + 1..];
      sum := sum + w(lots[i].price, lots[i].amount);
      i := i + 1;
    }
  }

  /** Quantities in base units; only the snapshot reads the lots. */
  class QuantityFifoPnl {
    var longs: seq<Lot>
    var shorts: seq<Lot>
    var grossRealizedPnl: real
    var cumulativeFees: real

    function View(): Fifo
      reads this
    {
      Fifo(longs, shorts, grossRealizedPnl, cumulativeFees)
    }

    ghost predicate Valid()
      reads this
    {
      FifoOk(View())
    }

    constructor ()
      ensures Valid() && View() == EMPTY
    {
      longs, shorts, grossRealizedPnl, cumulativeFees := [], [], 0.0, 0.0;
    }

    method Fill(side: Side, price: real, quantity: real, fee: real) returns (error: Option<FifoError>)
      requires Valid()
      modifies this
      ensures Valid() && error == FillError(price, "quantity", quantity)
      ensures View() == if error.Some? then old(View())
                        else ApplyFill(Absolute, old(View()), FifoLots.Fill(side, price, quantity, fee))
    {
      error := FillError(price, "quantity", quantity);
      if error.Some? {
        return;
      }
      FillKeepsOk(Absolute, View(), FifoLots.Fill(side, price, quantity, fee));
      var realized, remaining;
      if side == Buy {
        shorts, realized, remaining := CloseFifo(Absolute, shorts, price, quantity, -1.0);
      } else {
        longs, realized, remaining := CloseFifo(Absolute, longs, price, quantity, 1.0);
      }
      if remaining > 0.0 {
        if side == Buy {
          longs := longs + [Lot(price, remaining)];
        } else {
          shorts := shorts + [Lot(price, remaining)];
        }
      }
      grossRealizedPnl := grossRealizedPnl + realized;
      cumulativeFees := cumulativeFees + fee;
    }

    method TakeSnapshot(bid: real, ask: real) returns (r: Result<VenueSnapshot, FifoError>)
      requires Valid()
      ensures var error := QuoteError(bid, ask);
              r == if error.Some? then Err(error.value) else Ok(Venue(Absolute, View(), bid, ask))
    {
      var error := QuoteError(bid, ask);
      if error.Some? {
        return Err(error.value);
      }
      var longPnl := ValueLoop(longs, Earn(Absolute, ask));
      var shortPnl := ValueLoop(shorts, Earn(Absolute, bid));
      var floating := longPnl - shortPnl;
      var realized := grossRealizedPnl - cumulativeFees;
      return Ok(VenueSnapshot(grossRealizedPnl, cumulativeFees, realized, floating, realized + floating));
    }
  }
}
