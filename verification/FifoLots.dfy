/**
 First-in first-out lots and what closing against them realizes, for both PnL engines: returns on a quote amount
 (`Relative`) or price differences on a base quantity (`Absolute`).
 */
module FifoLots {
  import opened Prelude

  datatype Side = Buy | Sell

  datatype Measure = Relative | Absolute

  datatype Lot = Lot(price: real, amount: real)

  /** PnL of one unit bought at `entry` and valued at `exit`. */
  function Gain(k: Measure, entry: real, exit: real): real {
    match k
    case Absolute => exit - entry
    case Relative => if entry == 0.0 then 0.0 else (exit - entry) / entry
  }

  ghost predicate Positive(lots: seq<Lot>) {
    forall i :: 0 <= i < |lots| ==> lots[i].price > 0.0 && lots[i].amount > 0.0
  }

  function Total(lots: seq<Lot>): real {
    if lots == [] then 0.0 else lots[0].amount + Total(lots[1..])
  }

  /** What a quantity earns by entry price: `earn(entry, quantity)`. Additive in the quantity. */
  type Earning = (real, real) -> real

  function Earn(k: Measure, exit: real): Earning {
    (entry: real, quantity: real) => quantity * Gain(k, entry, exit)
  }

  ghost predicate AdditiveAt(w: Earning, entry: real, x: real, y: real) {
    w(entry, x + y) == w(entry, x) + w(entry, y)
  }

  ghost predicate Additive(w: Earning) {
    forall entry, x, y :: AdditiveAt(w, entry, x, y)
  }

  lemma EarnIsAdditive(k: Measure, exit: real)
    ensures Additive(Earn(k, exit))
  {
    forall entry, x, y ensures AdditiveAt(Earn(k, exit), entry, x, y) {
      Distribute(x, y, Gain(k, entry, exit));
    }
  }

  lemma EarnsNothing(w: Earning, entry: real)
    requires Additive(w)
    ensures w(entry, 0.0) == 0.0
  {
    assert AdditiveAt(w, entry, 0.0, 0.0);
  }

  /** PnL of the oldest `amount` units. */
  function Pnl(lots: seq<Lot>, amount: real, w: Earning): real
    decreases |lots|
  {
    if lots == [] || amount <= 0.0 then 0.0 else
      var matched := Min(amount, lots[0].amount);
      w(lots[0].price, matched) + Pnl(lots[1..], amount - matched, w)
  }

  /** The lots once the oldest `amount` units are gone. */
  function Rest(lots: seq<Lot>, amount: real): seq<Lot>
    decreases |lots|
  {
    if lots == [] || amount <= 0.0 then lots
    else if lots[0].amount <= amount then Rest(lots[1..], amount - lots[0].amount)
    else [Lot(lots[0].price, lots[0].amount - amount)] + lots[1..]
  }

  /** The part of `amount` the lots could not absorb. */
  function Unmatched(lots: seq<Lot>, amount: real): real {
    Max(amount - Total(lots), 0.0)
  }

  /** PnL of all lots. */
  function Value(lots: seq<Lot>, w: Earning): real {
    if lots == [] then 0.0 else w(lots[0].price, lots[0].amount) + Value(lots[1..], w)
  }

  lemma {:induction false} TotalPositive(lots: seq<Lot>)
    requires Positive(lots)
    ensures Total(lots) >= 0.0 && (lots != [] ==> Total(lots) >= lots[0].amount > 0.0)
    ensures Total(lots) == 0.0 <==> lots == []
    decreases |lots|
  {
    if lots != [] {
      TotalPositive(lots[1..]);
    }
  }

  lemma {:induction false} RestIsPositive(lots: seq<Lot>, amount: real)
    requires Positive(lots)
    ensures Positive(Rest(lots, amount))
    ensures amount >= 0.0 ==> Total(Rest(lots, amount)) == Total(lots) - (amount - Unmatched(lots, amount))
    decreases |lots|
  {
    TotalPositive(lots);
    if lots != [] && amount > 0.0 {
      TotalPositive(lots[1..]);
      if lots[0].amount <= amount {
        RestIsPositive(lots[1..], amount - lots[0].amount);
      } else {
        assert Rest(lots, amount)[1..] == lots[1..];
      }
    }
  }

  lemma {:induction false} PnlOfAll(lots: seq<Lot>, amount: real, w: Earning)
    requires Positive(lots) && amount >= Total(lots)
    ensures Pnl(lots, amount, w) == Value(lots, w)
    decreases |lots|
  {
    TotalPositive(lots);
    if lots != [] {
      TotalPositive(lots[1..]);
      PnlOfAll(lots[1..], amount - lots[0].amount, w);
    }
  }

  /** Closing `a` and then `b` earns what closing `a + b` earns. */
  lemma {:induction false} PnlOfRest(lots: seq<Lot>, a: real, b: real, w: Earning)
    requires Positive(lots) && a >= 0.0 && b >= 0.0 && Additive(w)
    ensures Pnl(Rest(lots, a), b, w) == Pnl(lots, a + b, w) - Pnl(lots, a, w)
    decreases |lots|
  {
    if lots != [] && a > 0.0 {
      var head := lots[0];
      if head.amount <= a {
        PnlOfRest(lots[1..], a - head.amount, b, w);
        assert a - head.amount + b == a + b - head.amount;
      } else {
        var left := head.amount - a;
        assert Rest(lots, a)[1..] == lots[1..];
        assert Pnl(lots[1..], 0.0, w) == 0.0;
        assert AdditiveAt(w, head.price, a, Min(b, left));
        assert b - Min(b, left) == a + b - Min(a + b, head.amount);
      }
    }
  }

  /** A lot appended at the back gives the units that everything in front of it could not. */
  lemma {:induction false} PnlOfPush(lots: seq<Lot>, lot: Lot, b: real, w: Earning)
    requires Positive(lots) && lot.amount > 0.0 && Additive(w)
    ensures Pnl(lots + [lot], b, w) == Pnl(lots, b, w) + w(lot.price, Min(Unmatched(lots, b), lot.amount))
    decreases |lots|
  {
    TotalPositive(lots);
    EarnsNothing(w, lot.price);
    if lots == [] {
      assert lots + [lot] == [lot] && [lot][1..] == [];
    } else if b > 0.0 {
      TotalPositive(lots[1..]);
      assert (lots + [lot])[1..] == lots[1..] + [lot];
      PnlOfPush(lots[1..], lot, b - Min(b, lots[0].amount), w);
      assert b < lots[0].amount ==> Unmatched(lots, b) == 0.0;
    }
  }

  lemma {:induction false} ValueOfPush(lots: seq<Lot>, lot: Lot, w: Earning)
    ensures Value(lots + [lot], w) == Value(lots, w) + w(lot.price, lot.amount)
    ensures Total(lots + [lot]) == Total(lots) + lot.amount
    decreases |lots|
  {
    if lots == [] {
      assert lots + [lot] == [lot] && [lot][1..] == [];
    } else {
      assert (lots + [lot])[1..] == lots[1..] + [lot];
      ValueOfPush(lots[1..], lot, w);
    }
  }

  /** What closing takes out of the value of the lots. */
  lemma ValueOfRest(lots: seq<Lot>, a: real, w: Earning)
    requires Positive(lots) && a >= 0.0 && Additive(w)
    ensures Value(Rest(lots, a), w) == Value(lots, w) - Pnl(lots, a, w)
  {
    TotalPositive(lots);
    RestIsPositive(lots, a);
    var b := Total(lots);
    PnlOfRest(lots, a, b, w);
    PnlOfAll(lots, a + b, w);
    PnlOfAll(Rest(lots, a), b, w);
  }

  /** Two earnings that differ by `step` per quantity, whatever the entry, differ by `step` of what is matched. */
  lemma {:induction false} PnlDifference(lots: seq<Lot>, amount: real, w: Earning, v: Earning, step: real -> real)
    requires Positive(lots) && amount >= 0.0
    requires forall entry, q :: w(entry, q) == v(entry, q) + step(q)
    requires Additive(w) && Additive(v)
    ensures Pnl(lots, amount, w) - Pnl(lots, amount, v) == step(amount - Unmatched(lots, amount))
    decreases |lots|
  {
    TotalPositive(lots);
    EarnsNothing(w, 0.0);
    EarnsNothing(v, 0.0);
    if lots != [] && amount > 0.0 {
      TotalPositive(lots[1..]);
      var m := Min(amount, lots[0].amount);
      var n := amount - m - Unmatched(lots[1..], amount - m);
      PnlDifference(lots[1..], amount - m, w, v, step);
      assert AdditiveAt(w, 0.0, m, n) && AdditiveAt(v, 0.0, m, n);
      assert m + n == amount - Unmatched(lots, amount);
    }
  }

  // ---- The engine as a value

  /** Lots still open, gross realized PnL and cumulative fees. */
  datatype Fifo = Fifo(longs: seq<Lot>, shorts: seq<Lot>, gross: real, fees: real)

  datatype Fill = Fill(side: Side, price: real, amount: real, fee: real)

  datatype FifoError = InvalidPositiveValue(field: string, value: real)

  const EMPTY := Fifo([], [], 0.0, 0.0)

  /** Fills the engine accepts. */
  predicate Accepts(f: Fill) { f.price > 0.0 && f.amount > 0.0 }

  /** The lots a fill closes against. */
  function Closed(s: Fifo, f: Fill): seq<Lot> { if f.side == Buy then s.shorts else s.longs }

  function Direction(f: Fill, x: real): real { if f.side == Buy then x else -x }

  function Opened(s: Fifo, f: Fill): real { Unmatched(Closed(s, f), f.amount) }

  function Realized(k: Measure, s: Fifo, f: Fill): real {
    -Direction(f, Pnl(Closed(s, f), f.amount, Earn(k, f.price)))
  }

  function PushIf(lots: seq<Lot>, price: real, amount: real): seq<Lot> {
    if amount > 0.0 then lots + [Lot(price, amount)] else lots
  }

  function ApplyFill(k: Measure, s: Fifo, f: Fill): Fifo {
    var gross := s.gross + Realized(k, s, f);
    match f.side
    case Buy => Fifo(PushIf(s.longs, f.price, Opened(s, f)), Rest(s.shorts, f.amount), gross, s.fees + f.fee)
    case Sell => Fifo(Rest(s.longs, f.amount), PushIf(s.shorts, f.price, Opened(s, f)), gross, s.fees + f.fee)
  }

  /** Open PnL with longs marked at `ask` and shorts at `bid`. */
  function Floating(k: Measure, s: Fifo, bid: real, ask: real): real {
    Value(s.longs, Earn(k, ask)) - Value(s.shorts, Earn(k, bid))
  }

  function NetOpen(s: Fifo): real { Total(s.longs) - Total(s.shorts) }

  /** Positive lots, never on both sides at once. */
  ghost predicate FifoOk(s: Fifo) {
    Positive(s.longs) && Positive(s.shorts) && (s.longs == [] || s.shorts == [])
  }

  lemma RestOfAll(lots: seq<Lot>, amount: real)
    requires Positive(lots) && amount >= 0.0
    ensures Unmatched(lots, amount) > 0.0 ==> Rest(lots, amount) == []
  {
    RestIsPositive(lots, amount);
    TotalPositive(Rest(lots, amount));
  }

  lemma PushIsPositive(lots: seq<Lot>, price: real, amount: real)
    requires Positive(lots) && price > 0.0
    ensures Positive(PushIf(lots, price, amount))
    ensures Total(PushIf(lots, price, amount)) == Total(lots) + Max(amount, 0.0)
  {
    if amount > 0.0 {
      ValueOfPush(lots, Lot(price, amount), Earn(Absolute, price));
    }
  }

  /** Long and short lots never coexist and stay positive; the net amount moves by the fill. */
  lemma FillKeepsOk(k: Measure, s: Fifo, f: Fill)
    requires FifoOk(s) && Accepts(f)
    ensures FifoOk(ApplyFill(k, s, f))
    ensures NetOpen(ApplyFill(k, s, f)) == NetOpen(s) + Direction(f, f.amount)
  {
    RestOfAll(s.longs, f.amount);
    RestOfAll(s.shorts, f.amount);
    RestIsPositive(s.longs, f.amount);
    RestIsPositive(s.shorts, f.amount);
    TotalPositive(s.longs);
    TotalPositive(s.shorts);
    PushIsPositive(s.longs, f.price, Opened(s, f));
    PushIsPositive(s.shorts, f.price, Opened(s, f));
  }

  function Run(k: Measure, s: Fifo, fills: seq<Fill>): Fifo
    decreases |fills|
  {
    if fills == [] then s else Run(k, ApplyFill(k, s, fills[0]), fills[1..])
  }

  ghost predicate AllAccepted(fills: seq<Fill>) { forall i :: 0 <= i < |fills| ==> Accepts(fills[i]) }

  // ---- Marking a fill

  function OpenValue(s: Fifo, w: Earning): real { Value(s.longs, w) - Value(s.shorts, w) }

  /** Gross PnL, realized and floating, at one mark price. */
  function GrossAt(k: Measure, s: Fifo, mark: real): real { s.gross + OpenValue(s, Earn(k, mark)) }

  lemma ValueOfPushIf(lots: seq<Lot>, price: real, amount: real, w: Earning)
    requires amount >= 0.0 && Additive(w)
    ensures Value(PushIf(lots, price, amount), w) == Value(lots, w) + w(price, amount)
  {
    if amount > 0.0 {
      ValueOfPush(lots, Lot(price, amount), w);
    } else {
      EarnsNothing(w, price);
    }
  }

  /** Open value after a fill: what it opens is added and what it closes is taken out, both signed by its side. */
  lemma FillMovesValue(k: Measure, s: Fifo, f: Fill, w: Earning)
    requires FifoOk(s) && Accepts(f) && Additive(w)
    ensures OpenValue(ApplyFill(k, s, f), w)
            == OpenValue(s, w) + Direction(f, w(f.price, Opened(s, f)) + Pnl(Closed(s, f), f.amount, w))
  {
    ValueOfRest(Closed(s, f), f.amount, w);
    ValueOfPushIf(if f.side == Buy then s.longs else s.shorts, f.price, Opened(s, f), w);
  }

  /** At its own price a fill only moves PnL from floating to realized. */
  lemma FillIsNeutralAtOwnPrice(k: Measure, s: Fifo, f: Fill)
    requires FifoOk(s) && Accepts(f)
    ensures GrossAt(k, ApplyFill(k, s, f), f.price) == GrossAt(k, s, f.price)
    ensures ApplyFill(k, s, f).fees == s.fees + f.fee
  {
    EarnIsAdditive(k, f.price);
    FillMovesValue(k, s, f, Earn(k, f.price));
    assert Earn(k, f.price)(f.price, Opened(s, f)) == 0.0;
  }

  /** When the mark shifts every entry alike, a fill earns the shift on its whole amount. */
  lemma FillShift(s: Fifo, f: Fill, w: Earning, v: Earning, step: real -> real)
    requires FifoOk(s) && Accepts(f) && Additive(w) && Additive(v)
    requires forall entry, q :: w(entry, q) == v(entry, q) + step(q)
    requires forall q :: v(f.price, q) == 0.0
    ensures OpenValue(ApplyFill(Absolute, s, f), w) - Direction(f, Pnl(Closed(s, f), f.amount, v))
            == OpenValue(s, w) + Direction(f, step(f.amount))
  {
    var o := Opened(s, f);
    TotalPositive(Closed(s, f));
    PnlDifference(Closed(s, f), f.amount, w, v, step);
    FillMovesValue(Absolute, s, f, w);
    hide Pnl, Value, Positive, Total, ApplyFill, OpenValue;
    assert AdditiveAt(w, f.price, o, f.amount - o);
  }

  /** What `q` units gain when the mark moves. */
  function Shift(move: real): real -> real { (q: real) => q * move }

  lemma ShiftBetween(x: real, y: real)
    ensures Additive(Earn(Absolute, x))
    ensures forall entry, q :: Earn(Absolute, x)(entry, q) == Earn(Absolute, y)(entry, q) + Shift(x - y)(q)
    ensures forall q :: Earn(Absolute, x)(x, q) == 0.0
  {
    EarnIsAdditive(Absolute, x);
    forall entry, q ensures Earn(Absolute, x)(entry, q) == Earn(Absolute, y)(entry, q) + Shift(x - y)(q) {
      Distribute(y - entry, x - y, q);
      assert q * (x - entry) == q * (y - entry) + q * (x - y);
    }
  }

  /** On quantities, a fill earns the move of the mark away from its price on its whole signed quantity. */
  lemma FillCash(s: Fifo, f: Fill, mark: real)
    requires FifoOk(s) && Accepts(f)
    ensures GrossAt(Absolute, ApplyFill(Absolute, s, f), mark)
            == GrossAt(Absolute, s, mark) + Direction(f, Shift(mark - f.price)(f.amount))
  {
    ShiftBetween(mark, f.price);
    ShiftBetween(f.price, f.price);
    FillShift(s, f, Earn(Absolute, mark), Earn(Absolute, f.price), Shift(mark - f.price));
  }
}
