/**
 What a fill and a mark earn, in the units they concern: a fill realizes what the oldest units on the other side are
 now worth less what they were extra at, and a mark shows the same of the units still open.
 */
module FifoReturns {
  import opened Prelude
  import opened FifoLots
  import opened FifoEquivalence

  /** The oldest `amount` units, lot by lot. */
  function Units(lots: seq<Lot>, amount: real): seq<Lot>
    decreases |lots|
  {
    if lots == [] || amount <= 0.0 then [] else
      var taken := Min(amount, lots[0].amount);
      [Lot(lots[0].price, taken)] + Units(lots[1..], amount - taken)
  }

  /** `units` are taken from the front of `lots`, whole lots but for the last one; `left` is what they leave. */
  ghost predicate TakenFrom(units: seq<Lot>, lots: seq<Lot>, left: seq<Lot>) {
    && |units| <= |lots|
    && if units == [] then left == lots else
         var n := |units| - 1;
         && units[..n] == lots[..n] && TakenOf(units[n], lots[n])
         && left == LeftOf(units[n], lots[n]) + lots[n + 1..]
  }

  ghost predicate TakenOf(unit: Lot, lot: Lot) { unit.price == lot.price && 0.0 < unit.amount <= lot.amount }

  function LeftOf(unit: Lot, lot: Lot): seq<Lot> {
    if unit.amount == lot.amount then [] else [Lot(lot.price, lot.amount - unit.amount)]
  }

  lemma TakenCons(head: Lot, units: seq<Lot>, lots: seq<Lot>, left: seq<Lot>)
    requires TakenFrom(units, lots, left) && units != []
    ensures TakenFrom([head] + units, [head] + lots, left)
  {
    var u, l, n := [head] + units, [head] + lots, |units| - 1;
    assert u[..n + 1] == [head] + units[..n] && l[..n + 1] == [head] + lots[..n];
    assert u[n + 1] == units[n] && l[n + 1] == lots[n] && l[n + 2..] == lots[n + 1..];
    hide TakenOf, LeftOf;
  }

  lemma TakenHead(unit: Lot, head: Lot, lots: seq<Lot>)
    requires TakenOf(unit, head)
    ensures TakenFrom([unit], [head] + lots, LeftOf(unit, head) + lots)
  {
    var u, l := [unit], [head] + lots;
    assert u[..0] == l[..0] && l[1..] == lots;
    hide TakenOf, LeftOf;
  }

  /** Closing takes the oldest units and leaves the rest. */
  lemma {:induction false} UnitsAreTaken(lots: seq<Lot>, amount: real)
    requires Positive(lots)
    ensures TakenFrom(Units(lots, amount), lots, Rest(lots, amount))
    decreases |lots|
  {
    if lots != [] && amount > 0.0 {
      var head, more := lots[0], amount - lots[0].amount;
      HeadAndTail(lots);
      assert head.amount > 0.0 && Positive(lots[1..]);
      if head.amount <= amount {
        WholeLot(lots, amount);
        hide Units, Rest, TakenFrom, Positive;
        UnitsAreTaken(lots[1..], more);
        if Units(lots[1..], more) == [] {
          TakenHead(head, head, lots[1..]);
          NoneTaken(lots[1..], more);
        } else {
          TakenCons(head, Units(lots[1..], more), lots[1..], Rest(lots[1..], more));
        }
      } else {
        PartOfLot(lots, amount);
        hide Units, Rest, TakenFrom, Positive;
        TakenHead(Lot(head.price, amount), head, lots[1..]);
      }
    }
  }

  lemma NoneTaken(lots: seq<Lot>, amount: real)
    requires Units(lots, amount) == []
    ensures Rest(lots, amount) == lots
    ensures forall unit: Lot :: LeftOf(unit, unit) + lots == lots
  {}

  lemma WholeLot(lots: seq<Lot>, amount: real)
    requires lots != [] && 0.0 < lots[0].amount <= amount
    ensures Units(lots, amount) == [lots[0]] + Units(lots[1..], amount - lots[0].amount)
    ensures Rest(lots, amount) == Rest(lots[1..], amount - lots[0].amount)
  {}

  lemma UnitsUnfolds(lots: seq<Lot>, amount: real, taken: real)
    requires lots != [] && amount > 0.0 && taken == Min(amount, lots[0].amount)
    ensures Units(lots, amount) == [Lot(lots[0].price, taken)] + Units(lots[1..], amount - taken)
    ensures Units(lots[1..], 0.0) == []
  {}

  lemma PartOfLot(lots: seq<Lot>, amount: real)
    requires lots != [] && 0.0 < amount < lots[0].amount
    ensures Units(lots, amount) == [Lot(lots[0].price, amount)]
    ensures Rest(lots, amount) == LeftOf(Lot(lots[0].price, amount), lots[0]) + lots[1..]
  {
    UnitsUnfolds(lots, amount, amount);
    RestOfPart(lots, amount);
    hide *;
    assert amount - amount == 0.0;
  }

  lemma RestOfPart(lots: seq<Lot>, amount: real)
    requires lots != [] && 0.0 < amount < lots[0].amount
    ensures Rest(lots, amount) == LeftOf(Lot(lots[0].price, amount), lots[0]) + lots[1..]
  {}

  lemma {:induction false} UnitsTotal(lots: seq<Lot>, amount: real)
    requires Positive(lots) && amount >= 0.0
    ensures Total(Units(lots, amount)) == amount - Unmatched(lots, amount)
    decreases |lots|
  {
    TotalPositive(lots);
    if lots != [] && amount > 0.0 {
      TotalPositive(lots[1..]);
      var taken := Min(amount, lots[0].amount);
      UnitsTotal(lots[1..], amount - taken);
      assert Units(lots, amount)[1..] == Units(lots[1..], amount - taken);
    }
  }

  // ---- What units earn

  /** What the quote amounts put into these units have become at `price`. */
  function Worth(units: seq<Lot>, price: real): real
    requires forall i :: 0 <= i < |units| ==> units[i].price > 0.0
  {
    if units == [] then 0.0 else units[0].amount * price / units[0].price + Worth(units[1..], price)
  }

  /** What these base quantities cost. */
  function Cost(units: seq<Lot>): real {
    if units == [] then 0.0 else units[0].amount * units[0].price + Cost(units[1..])
  }

  /**
   What units bought at their prices have earned at `price`: on quote amounts what they are worth less what was put in,
   on base quantities what they sell for less what they cost.
   */
  function Earned(k: Measure, units: seq<Lot>, price: real): real
    requires forall i :: 0 <= i < |units| ==> units[i].price > 0.0
  {
    match k
    case Relative => Worth(units, price) - Total(units)
    case Absolute => Total(units) * price - Cost(units)
  }

  lemma UnitEarns(k: Measure, entry: real, amount: real, price: real)
    requires entry > 0.0
    ensures Earn(k, price)(entry, amount)
            == match k
               case Relative => amount * price / entry - amount
               case Absolute => amount * price - amount * entry
  {
    if k == Relative {
      var g := (price - entry) / entry;
      DivideTimes(price - entry, entry);
      DivideTimes(amount * price, entry);
      assert amount * g * entry == amount * (g * entry);
      assert amount * (price - entry) == amount * price - amount * entry;
      SameQuotient(amount * g, amount * price / entry - amount, entry);
    } else {
      assert amount * (price - entry) == amount * price - amount * entry;
    }
  }

  lemma EarnedHead(k: Measure, unit: Lot, units: seq<Lot>, price: real)
    requires unit.price > 0.0 && forall i :: 0 <= i < |units| ==> units[i].price > 0.0
    ensures forall i :: 0 <= i < |units| + 1 ==> ([unit] + units)[i].price > 0.0
    ensures Earned(k, [unit] + units, price) == Earn(k, price)(unit.price, unit.amount) + Earned(k, units, price)
  {
    WorthHead(unit, units, price);
    if k == Relative {
      RelativeHead(unit, units, price);
    } else {
      AbsoluteHead(unit, units, price);
    }
  }

  lemma RelativeHead(unit: Lot, units: seq<Lot>, price: real)
    requires forall i :: 0 <= i < |units| + 1 ==> ([unit] + units)[i].price > 0.0
    requires unit.price > 0.0 && forall i :: 0 <= i < |units| ==> units[i].price > 0.0
    ensures Earned(Relative, [unit] + units, price)
            == Earn(Relative, price)(unit.price, unit.amount) + Earned(Relative, units, price)
  {
    TotalHead(unit, units);
    WorthHead(unit, units, price);
    UnitEarns(Relative, unit.price, unit.amount, price);
    hide Earn, Worth, Total;
  }

  lemma AbsoluteHead(unit: Lot, units: seq<Lot>, price: real)
    requires forall i :: 0 <= i < |units| + 1 ==> ([unit] + units)[i].price > 0.0
    requires unit.price > 0.0 && forall i :: 0 <= i < |units| ==> units[i].price > 0.0
    ensures Earned(Absolute, [unit] + units, price)
            == Earn(Absolute, price)(unit.price, unit.amount) + Earned(Absolute, units, price)
  {
    TotalHead(unit, units);
    CostHead(unit, units);
    UnitEarns(Absolute, unit.price, unit.amount, price);
    var total := Total([unit] + units);
    TotalTimes(total, unit.amount, Total(units), price);
    hide Earn, Cost, Total;
  }

  lemma TotalTimes(total: real, x: real, y: real, price: real)
    requires total == x + y
    ensures total * price == x * price + y * price
  {
    Distribute(x, y, price);
  }

  lemma TotalHead(unit: Lot, units: seq<Lot>)
    ensures Total([unit] + units) == unit.amount + Total(units)
  {
    assert ([unit] + units)[1..] == units;
  }

  lemma WorthHead(unit: Lot, units: seq<Lot>, price: real)
    requires unit.price > 0.0 && forall i :: 0 <= i < |units| ==> units[i].price > 0.0
    ensures forall i :: 0 <= i < |units| + 1 ==> ([unit] + units)[i].price > 0.0
    ensures Worth([unit] + units, price) == unit.amount * price / unit.price + Worth(units, price)
  {
    var all := [unit] + units;
    assert all[0] == unit && all[1..] == units;
    assert forall i :: 1 <= i < |all| ==> all[i] == units[i - 1];
  }

  lemma CostHead(unit: Lot, units: seq<Lot>)
    ensures Cost([unit] + units) == unit.amount * unit.price + Cost(units)
  {
    var all := [unit] + units;
    assert all[0] == unit && all[1..] == units;
  }

  lemma {:induction false} UnitsPriced(lots: seq<Lot>, amount: real)
    requires Positive(lots)
    ensures forall i :: 0 <= i < |Units(lots, amount)| ==> Units(lots, amount)[i].price > 0.0
    decreases |lots|
  {
    if lots != [] && amount > 0.0 {
      UnitsPriced(lots[1..], amount - Min(amount, lots[0].amount));
    }
  }

  lemma {:induction false} PnlIsEarned(k: Measure, lots: seq<Lot>, amount: real, price: real)
    requires Positive(lots)
    ensures forall i :: 0 <= i < |Units(lots, amount)| ==> Units(lots, amount)[i].price > 0.0
    ensures Pnl(lots, amount, Earn(k, price)) == Earned(k, Units(lots, amount), price)
    decreases |lots|
  {
    UnitsPriced(lots, amount);
    if lots != [] && amount > 0.0 {
      var taken := Min(amount, lots[0].amount);
      var rest := amount - taken;
      assert lots[0].price > 0.0 && Positive(lots[1..]);
      UnitsUnfolds(lots, amount, taken);
      PnlUnfolds(lots, amount, taken, Earn(k, price));
      hide Earn, Earned, Units, Pnl, Min, Positive;
      PnlIsEarned(k, lots[1..], rest, price);
      EarnedHead(k, Lot(lots[0].price, taken), Units(lots[1..], rest), price);
    }
  }

  lemma PnlUnfolds(lots: seq<Lot>, amount: real, taken: real, w: Earning)
    requires lots != [] && amount > 0.0 && taken == Min(amount, lots[0].amount)
    ensures Pnl(lots, amount, w) == w(lots[0].price, taken) + Pnl(lots[1..], amount - taken, w)
  {}

  lemma {:induction false} ValueIsEarned(k: Measure, lots: seq<Lot>, price: real)
    requires Positive(lots)
    ensures Value(lots, Earn(k, price)) == Earned(k, lots, price)
    decreases |lots|
  {
    if lots != [] {
      ValueIsEarned(k, lots[1..], price);
      HeadAndTail(lots);
      EarnedHead(k, lots[0], lots[1..], price);
      hide Earn, Earned;
    }
  }

  // ---- Fills and snapshots

  /** The lots on the side a fill closes. */
  function Against(s: Fifo, f: Fill): seq<Lot> { if f.side == Sell then s.longs else s.shorts }

  /** What a fill reports and leaves behind once it has matched an amount that earned `pnl`, had it been long. */
  ghost predicate Fills(s: Fifo, f: Fill, r: Fifo, report: FillResult, pnl: real, matched: real) {
    var extra := f.amount - matched;
    var earned := if f.side == Sell then pnl else -pnl;
    var lot := if extra > 0.0 then [Lot(f.price, extra)] else [];
    && (if f.side == Sell then r.shorts == s.shorts + lot else r.longs == s.longs + lot)
    && r.gross == s.gross + earned && r.fees == s.fees + f.fee
    && report.realizedPnl == earned
    && report.matchedAmount == matched && report.openedAmount == extra
    && report.cumulativeRealizedPnl == s.gross + earned - (s.fees + f.fee)
    && report.netOpenAmount
       == Total(s.longs) - Total(s.shorts) + (if f.side == Buy then f.amount else -f.amount)
  }

  lemma FillShape(k: Measure, s: Fifo, f: Fill, pnl: real, matched: real)
    requires FifoOk(s) && Accepts(f)
    requires pnl == Pnl(Against(s, f), f.amount, Earn(k, f.price))
    requires matched == f.amount - Unmatched(Against(s, f), f.amount)
    ensures Fills(s, f, ApplyFill(k, s, f), Report(k, s, f), pnl, matched)
    ensures Against(ApplyFill(k, s, f), f) == Rest(Against(s, f), f.amount)
  {
    FillKeepsOk(k, s, f);
    hide Pnl, Rest, Total, Earn, FifoOk, Unmatched;
  }

  /**
   The fill takes the oldest units of the other side, as many as there are up to its amount, realizes what they have
   earned at its price, with the sign of the side they stood on, and opens the rest as a lot of its own.
   */
  ghost predicate FilledWith(k: Measure, s: Fifo, f: Fill, r: Fifo, report: FillResult) {
    var units := Units(Against(s, f), f.amount);
    && (forall i :: 0 <= i < |units| ==> units[i].price > 0.0)
    && TakenFrom(units, Against(s, f), Against(r, f))
    && Total(units) == Min(f.amount, Total(Against(s, f)))
    && Fills(s, f, r, report, Earned(k, units, f.price), Total(units))
  }

  lemma FillEarns(k: Measure, s: Fifo, f: Fill)
    requires FifoOk(s) && Accepts(f)
    ensures FilledWith(k, s, f, ApplyFill(k, s, f), Report(k, s, f))
  {
    var closed := Against(s, f);
    assert Positive(closed) && f.amount > 0.0;
    UnitsPriced(closed, f.amount);
    var units := Units(closed, f.amount);
    hide Units, Earned, TakenFrom, Fills, Total, Unmatched, Rest, Pnl, Against, ApplyFill, Report, FifoOk, Min, Earn;
    PnlIsEarned(k, closed, f.amount, f.price);
    UnitsAreTaken(closed, f.amount);
    UnitsTotal(closed, f.amount);
    MatchedIsLess(closed, f.amount);
    FillShape(k, s, f, Earned(k, units, f.price), Total(units));
  }

  lemma MatchedIsLess(lots: seq<Lot>, amount: real)
    requires Positive(lots)
    ensures amount - Unmatched(lots, amount) == Min(amount, Total(lots))
  {}

  /** Long units marked at `ask`, short units at `bid`. */
  function FloatingPnl(k: Measure, s: Fifo, bid: real, ask: real): real
    requires FifoOk(s)
  {
    Earned(k, s.longs, ask) - Earned(k, s.shorts, bid)
  }

  ghost predicate Shows(k: Measure, s: Fifo, bid: real, ask: real, x: PnlSnapshot)
    requires FifoOk(s)
  {
    var floating := FloatingPnl(k, s, bid, ask);
    && x.floatingPnl == floating && x.grossRealizedPnl == s.gross && x.cumulativeFees == s.fees
    && x.realizedPnl == s.gross - s.fees && x.totalPnl == s.gross - s.fees + floating
    && x.longAmount == Total(s.longs) && x.shortAmount == Total(s.shorts)
    && x.netOpenAmount == Total(s.longs) - Total(s.shorts)
  }

  /** A snapshot of either engine. */
  lemma SnapshotEarns(k: Measure, s: Fifo, bid: real, ask: real)
    requires FifoOk(s)
    ensures Shows(k, s, bid, ask, Snapshot(k, s, bid, ask))
    ensures var floating := FloatingPnl(k, s, bid, ask);
            Venue(k, s, bid, ask)
            == VenueSnapshot(s.gross, s.fees, s.gross - s.fees, floating, s.gross - s.fees + floating)
  {
    ValueIsEarned(k, s.longs, ask);
    ValueIsEarned(k, s.shorts, bid);
    hide Earned, Value, Earn, Total;
  }
}
