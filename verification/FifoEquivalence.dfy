/**
 Two views of the FIFO engines: splitting a fill cannot be observed by any later fill or mark, and the two
 queues do exactly what scanning one mixed list of lots does.
 */
module FifoEquivalence {
  import opened Prelude
  import opened FifoLots

  // ---- What callers can observe

  datatype FillResult = FillResult(
    realizedPnl: real, matchedAmount: real, openedAmount: real, cumulativeRealizedPnl: real, netOpenAmount: real)

  datatype PnlSnapshot = PnlSnapshot(
    grossRealizedPnl: real, cumulativeFees: real, realizedPnl: real, floatingPnl: real, totalPnl: real,
    longAmount: real, shortAmount: real, netOpenAmount: real)

  function Report(k: Measure, s: Fifo, f: Fill): FillResult {
    var r := ApplyFill(k, s, f);
    FillResult(Realized(k, s, f), f.amount - Opened(s, f), Opened(s, f), r.gross - r.fees, NetOpen(r))
  }

  function Reports(k: Measure, s: Fifo, fills: seq<Fill>): seq<FillResult>
    decreases |fills|
  {
    if fills == [] then [] else [Report(k, s, fills[0])] + Reports(k, ApplyFill(k, s, fills[0]), fills[1..])
  }

  function Snapshot(k: Measure, s: Fifo, bid: real, ask: real): PnlSnapshot {
    var floating := Floating(k, s, bid, ask);
    PnlSnapshot(s.gross, s.fees, s.gross - s.fees, floating, s.gross - s.fees + floating,
                Total(s.longs), Total(s.shorts), NetOpen(s))
  }

  /** The part of a snapshot both engines report. */
  datatype VenueSnapshot = VenueSnapshot(
    grossRealizedPnl: real, cumulativeFees: real, realizedPnl: real, floatingPnl: real, totalPnl: real)

  function Venue(k: Measure, s: Fifo, bid: real, ask: real): VenueSnapshot {
    var floating := Floating(k, s, bid, ask);
    VenueSnapshot(s.gross, s.fees, s.gross - s.fees, floating, s.gross - s.fees + floating)
  }

  // ---- Lots that no caller can tell apart

  ghost predicate SameAt(l: seq<Lot>, m: seq<Lot>, a: real, w: Earning) { Pnl(l, a, w) == Pnl(m, a, w) }

  /** The same total, and the same PnL for every closed amount under every additive earning. */
  ghost predicate SameLots(l: seq<Lot>, m: seq<Lot>) {
    && Positive(l) && Positive(m) && Total(l) == Total(m)
    && (forall a: real, w: Earning :: Additive(w) ==> SameAt(l, m, a, w))
  }

  lemma SelfSame(l: seq<Lot>)
    requires Positive(l)
    ensures SameLots(l, l)
  {
    forall a: real, w: Earning ensures SameAt(l, l, a, w) {}
  }

  lemma SameValue(l: seq<Lot>, m: seq<Lot>, w: Earning)
    requires SameLots(l, m) && Additive(w)
    ensures Value(l, w) == Value(m, w)
  {
    PnlOfAll(l, Total(l), w);
    PnlOfAll(m, Total(l), w);
    assert SameAt(l, m, Total(l), w);
  }

  lemma SameRest(l: seq<Lot>, m: seq<Lot>, a: real)
    requires SameLots(l, m) && a >= 0.0
    ensures SameLots(Rest(l, a), Rest(m, a))
  {
    RestIsPositive(l, a);
    RestIsPositive(m, a);
    forall b: real, w: Earning | Additive(w) ensures SameAt(Rest(l, a), Rest(m, a), b, w) {
      if b >= 0.0 {
        PnlOfRest(l, a, b, w);
        PnlOfRest(m, a, b, w);
        assert SameAt(l, m, a, w) && SameAt(l, m, a + b, w);
      }
    }
  }

  lemma SamePush(l: seq<Lot>, m: seq<Lot>, price: real, amount: real)
    requires SameLots(l, m) && price > 0.0
    ensures SameLots(PushIf(l, price, amount), PushIf(m, price, amount))
  {
    PushIsPositive(l, price, amount);
    PushIsPositive(m, price, amount);
    if amount > 0.0 {
      var lot := Lot(price, amount);
      forall b: real, w: Earning | Additive(w) ensures SameAt(l + [lot], m + [lot], b, w) {
        PnlOfPush(l, lot, b, w);
        PnlOfPush(m, lot, b, w);
        assert SameAt(l, m, b, w);
      }
    }
  }

  ghost predicate Same(s: Fifo, t: Fifo) {
    FifoOk(s) && FifoOk(t) && SameLots(s.longs, t.longs) && SameLots(s.shorts, t.shorts)
    && s.gross == t.gross && s.fees == t.fees
  }

  lemma SameRealized(k: Measure, s: Fifo, t: Fifo, f: Fill)
    requires Same(s, t)
    ensures Realized(k, s, f) == Realized(k, t, f) && Opened(s, f) == Opened(t, f)
  {
    EarnIsAdditive(k, f.price);
    assert SameAt(Closed(s, f), Closed(t, f), f.amount, Earn(k, f.price));
  }

  lemma SameLotsAfter(k: Measure, s: Fifo, t: Fifo, f: Fill)
    requires Same(s, t) && Accepts(f)
    ensures SameLots(ApplyFill(k, s, f).longs, ApplyFill(k, t, f).longs)
    ensures SameLots(ApplyFill(k, s, f).shorts, ApplyFill(k, t, f).shorts)
  {
    SameRealized(k, s, t, f);
    hide SameLots, Rest, PushIf, Opened;
    SameRest(Closed(s, f), Closed(t, f), f.amount);
    if f.side == Buy {
      SamePush(s.longs, t.longs, f.price, Opened(s, f));
    } else {
      SamePush(s.shorts, t.shorts, f.price, Opened(s, f));
    }
  }

  lemma SameFill(k: Measure, s: Fifo, t: Fifo, f: Fill)
    requires Same(s, t) && Accepts(f)
    ensures Same(ApplyFill(k, s, f), ApplyFill(k, t, f))
    ensures Report(k, s, f) == Report(k, t, f)
  {
    var r, q := ApplyFill(k, s, f), ApplyFill(k, t, f);
    assert FifoOk(r) && FifoOk(q) by {
      FillKeepsOk(k, s, f);
      FillKeepsOk(k, t, f);
    }
    assert Realized(k, s, f) == Realized(k, t, f) && Opened(s, f) == Opened(t, f) by {
      SameRealized(k, s, t, f);
    }
    SameLotsAfter(k, s, t, f);
    assert r.gross == q.gross && r.fees == q.fees;
    assert NetOpen(r) == NetOpen(q);
  }

  lemma SameSnapshot(k: Measure, s: Fifo, t: Fifo, bid: real, ask: real)
    requires Same(s, t)
    ensures Snapshot(k, s, bid, ask) == Snapshot(k, t, bid, ask)
  {
    EarnIsAdditive(k, ask);
    EarnIsAdditive(k, bid);
    SameValue(s.longs, t.longs, Earn(k, ask));
    SameValue(s.shorts, t.shorts, Earn(k, bid));
  }

  lemma {:induction false} SameRun(k: Measure, s: Fifo, t: Fifo, fills: seq<Fill>)
    requires Same(s, t) && AllAccepted(fills)
    ensures Same(Run(k, s, fills), Run(k, t, fills)) && Reports(k, s, fills) == Reports(k, t, fills)
    decreases |fills|
  {
    if fills != [] {
      SameFill(k, s, t, fills[0]);
      SameRun(k, ApplyFill(k, s, fills[0]), ApplyFill(k, t, fills[0]), fills[1..]);
    }
  }

  // ---- Splitting a fill

  lemma {:induction false} RestOfRest(lots: seq<Lot>, a: real, b: real)
    requires Positive(lots) && a >= 0.0 && b >= 0.0
    ensures Rest(Rest(lots, a), b) == Rest(lots, a + b)
    decreases |lots|
  {
    if lots != [] && a > 0.0 {
      if lots[0].amount <= a {
        RestOfRest(lots[1..], a - lots[0].amount, b);
        assert a - lots[0].amount + b == a + b - lots[0].amount;
      } else {
        assert Rest(lots, a)[1..] == lots[1..];
        assert b - (lots[0].amount - a) == a + b - lots[0].amount;
      }
    }
  }

  lemma SplitUnmatched(lots: seq<Lot>, a: real, b: real)
    requires Positive(lots) && a >= 0.0 && b >= 0.0
    ensures Unmatched(lots, a) + Unmatched(Rest(lots, a), b) == Unmatched(lots, a + b)
  {
    RestIsPositive(lots, a);
    TotalPositive(lots);
    TotalPositive(Rest(lots, a));
  }

  /** Two lots opened back to back at one price are as good as one. */
  lemma PushTwice(lots: seq<Lot>, price: real, x: real, y: real)
    requires Positive(lots) && price > 0.0 && x >= 0.0 && y >= 0.0
    ensures SameLots(PushIf(lots, price, x + y), PushIf(PushIf(lots, price, x), price, y))
  {
    PushIsPositive(lots, price, x);
    PushIsPositive(lots, price, x + y);
    PushIsPositive(PushIf(lots, price, x), price, y);
    if x > 0.0 && y > 0.0 {
      var one, two := lots + [Lot(price, x + y)], lots + [Lot(price, x)] + [Lot(price, y)];
      forall b: real, w: Earning | Additive(w) ensures SameAt(one, two, b, w) {
        PnlOfPush(lots, Lot(price, x + y), b, w);
        PnlOfPush(lots, Lot(price, x), b, w);
        PnlOfPush(lots + [Lot(price, x)], Lot(price, y), b, w);
        ValueOfPush(lots, Lot(price, x), w);
        assert AdditiveAt(w, price, Min(Unmatched(lots, b), x), Min(Unmatched(lots + [Lot(price, x)], b), y));
      }
    } else {
      assert PushIf(lots, price, x + y) == PushIf(PushIf(lots, price, x), price, y);
      SelfSame(PushIf(lots, price, x + y));
    }
  }

  /** What the two parts close and open together is what the whole fill does. */
  lemma SplitClosing(closed: seq<Lot>, price: real, a: real, b: real, w: Earning)
    requires Positive(closed) && a > 0.0 && b > 0.0 && Additive(w)
    ensures Rest(Rest(closed, a), b) == Rest(closed, a + b)
    ensures Pnl(closed, a, w) + Pnl(Rest(closed, a), b, w) == Pnl(closed, a + b, w)
    ensures Unmatched(closed, a) + Unmatched(Rest(closed, a), b) == Unmatched(closed, a + b)
  {
    PnlOfRest(closed, a, b, w);
    RestOfRest(closed, a, b);
    SplitUnmatched(closed, a, b);
  }

  /** Two engines with the same closed lots, one with lots pushed at once and one with them pushed in two parts. */
  ghost predicate Pieces(
    one: Fifo, two: Fifo, side: Side, rest: seq<Lot>, own: seq<Lot>, price: real, x: real, y: real)
  {
    && Positive(own) && price > 0.0 && x >= 0.0 && y >= 0.0
    && one.gross == two.gross && one.fees == two.fees
    && (if side == Buy then one.shorts == two.shorts == rest else one.longs == two.longs == rest)
    && (if side == Buy then one.longs else one.shorts) == PushIf(own, price, x + y)
    && (if side == Buy then two.longs else two.shorts) == PushIf(PushIf(own, price, x), price, y)
  }

  /** The engines after the whole fill and after its two parts, piece by piece. */
  lemma SplitPieces(k: Measure, s: Fifo, whole: Fill, first: Fill, second: Fill)
    requires FifoOk(s) && Accepts(whole) && Accepts(first) && Accepts(second)
    requires whole.side == first.side == second.side && whole.price == first.price == second.price
    requires whole.amount == first.amount + second.amount && whole.fee == first.fee + second.fee
    ensures var closed, own := Closed(s, whole), if whole.side == Buy then s.longs else s.shorts;
            Pieces(ApplyFill(k, s, whole), ApplyFill(k, ApplyFill(k, s, first), second), whole.side,
                   Rest(closed, whole.amount), own, whole.price, Opened(s, first),
                   Unmatched(Rest(closed, first.amount), second.amount))
  {
    var closed := Closed(s, whole);
    EarnIsAdditive(k, whole.price);
    SplitClosing(closed, whole.price, first.amount, second.amount, Earn(k, whole.price));
    assert Unmatched(closed, first.amount) >= 0.0 && Unmatched(Rest(closed, first.amount), second.amount) >= 0.0;
    hide Pnl, Rest, Positive, Unmatched, PushIf, Earn;
  }

  lemma SamePieces(one: Fifo, two: Fifo, side: Side, rest: seq<Lot>, own: seq<Lot>, price: real, x: real, y: real)
    requires FifoOk(one) && FifoOk(two) && Pieces(one, two, side, rest, own, price, x, y)
    ensures Same(one, two)
  {
    assert Positive(rest);
    hide FifoOk, SameLots, PushIf, Positive;
    SelfSame(rest);
    PushTwice(own, price, x, y);
  }

  lemma SplitOk(k: Measure, s: Fifo, whole: Fill, first: Fill, second: Fill)
    requires FifoOk(s) && Accepts(whole) && Accepts(first) && Accepts(second)
    ensures FifoOk(ApplyFill(k, s, whole)) && FifoOk(ApplyFill(k, ApplyFill(k, s, first), second))
  {
    hide *;
    FillKeepsOk(k, s, whole);
    FillKeepsOk(k, s, first);
    FillKeepsOk(k, ApplyFill(k, s, first), second);
  }

  lemma SplitFill(k: Measure, s: Fifo, side: Side, price: real, a: real, b: real, feeA: real, feeB: real)
    requires FifoOk(s) && price > 0.0 && a > 0.0 && b > 0.0
    ensures Same(ApplyFill(k, s, Fill(side, price, a + b, feeA + feeB)),
                 ApplyFill(k, ApplyFill(k, s, Fill(side, price, a, feeA)), Fill(side, price, b, feeB)))
  {
    var whole, first := Fill(side, price, a + b, feeA + feeB), Fill(side, price, a, feeA);
    var second := Fill(side, price, b, feeB);
    assert Accepts(whole) && Accepts(first) && Accepts(second);
    SplitSame(k, s, whole, first, second);
  }

  lemma SplitSame(k: Measure, s: Fifo, whole: Fill, first: Fill, second: Fill)
    requires FifoOk(s) && Accepts(whole) && Accepts(first) && Accepts(second)
    requires whole.side == first.side == second.side && whole.price == first.price == second.price
    requires whole.amount == first.amount + second.amount && whole.fee == first.fee + second.fee
    ensures Same(ApplyFill(k, s, whole), ApplyFill(k, ApplyFill(k, s, first), second))
  {
    hide *;
    SplitOk(k, s, whole, first, second);
    SplitPieces(k, s, whole, first, second);
    var closed, own := Closed(s, whole), if whole.side == Buy then s.longs else s.shorts;
    SamePieces(ApplyFill(k, s, whole), ApplyFill(k, ApplyFill(k, s, first), second), whole.side,
               Rest(closed, whole.amount), own, whole.price, Opened(s, first),
               Unmatched(Rest(closed, first.amount), second.amount));
  }

  /**
   One fill or two at the same price with amounts and fees that add up: whatever is traded afterwards, every
   later fill reports the same and every later snapshot is the same, for both engines.
   */
  lemma SplitIsUnobservable(
    k: Measure, s: Fifo, side: Side, price: real, a: real, b: real, feeA: real, feeB: real,
    later: seq<Fill>, bid: real, ask: real)
    requires FifoOk(s) && price > 0.0 && a > 0.0 && b > 0.0 && AllAccepted(later)
    ensures var one := ApplyFill(k, s, Fill(side, price, a + b, feeA + feeB));
            var two := ApplyFill(k, ApplyFill(k, s, Fill(side, price, a, feeA)), Fill(side, price, b, feeB));
            && Reports(k, one, later) == Reports(k, two, later)
            && Snapshot(k, Run(k, one, later), bid, ask) == Snapshot(k, Run(k, two, later), bid, ask)
  {
    SplitFill(k, s, side, price, a, b, feeA, feeB);
    var one := ApplyFill(k, s, Fill(side, price, a + b, feeA + feeB));
    var two := ApplyFill(k, ApplyFill(k, s, Fill(side, price, a, feeA)), Fill(side, price, b, feeB));
    SameRun(k, one, two, later);
    SameSnapshot(k, Run(k, one, later), Run(k, two, later), bid, ask);
  }

  lemma PushTwiceDiffers(lots: seq<Lot>, price: real, x: real, y: real)
    requires x >= 0.0 && y > 0.0
    ensures PushIf(lots, price, x + y) == PushIf(PushIf(lots, price, x), price, y) <==> x == 0.0
  {
    if x > 0.0 {
      assert |PushIf(lots, price, x + y)| == |lots| + 1 && |PushIf(PushIf(lots, price, x), price, y)| == |lots| + 2;
    }
  }

  /** Once the first part opens a lot, all of the second part opens another. */
  lemma OpensTwice(closed: seq<Lot>, a: real, b: real)
    requires Positive(closed) && a > 0.0 && b > 0.0 && Unmatched(closed, a) > 0.0
    ensures Unmatched(Rest(closed, a), b) == b
  {
    RestOfAll(closed, a);
  }

  /** The lots themselves differ after a split exactly when the first part already opened a lot of its own. */
  lemma SplitShowsIff(k: Measure, s: Fifo, side: Side, price: real, a: real, b: real, feeA: real, feeB: real)
    requires FifoOk(s) && price > 0.0 && a > 0.0 && b > 0.0
    ensures var first := Fill(side, price, a, feeA);
            ApplyFill(k, s, Fill(side, price, a + b, feeA + feeB))
            == ApplyFill(k, ApplyFill(k, s, first), Fill(side, price, b, feeB))
            <==> Opened(s, first) == 0.0
  {
    var whole, first := Fill(side, price, a + b, feeA + feeB), Fill(side, price, a, feeA);
    var closed := Closed(s, whole);
    var own := if side == Buy then s.longs else s.shorts;
    var x, y := Opened(s, first), Unmatched(Rest(closed, a), b);
    EarnIsAdditive(k, price);
    SplitClosing(closed, price, a, b, Earn(k, price));
    assert Unmatched(closed, a + b) == x + y;
    if x > 0.0 {
      OpensTwice(closed, a, b);
      PushTwiceDiffers(own, price, x, y);
    } else {
      assert PushIf(own, price, x + y) == PushIf(PushIf(own, price, x), price, y);
    }
    hide Pnl, Rest, Unmatched, PushIf, Earn, FifoOk;
  }

  // ---- The notebook's single list

  datatype ListLot = ListLot(side: Side, price: real, amount: real)

  /** What a lot of the list earns at a price. */
  function ListGain(k: Measure, side: Side, entry: real, amount: real, price: real): real {
    match k
    case Relative =>
      if entry == 0.0 then 0.0
      else if side == Buy then (price - entry) / entry * amount
      else (entry - price) / entry * amount
    case Absolute => if side == Buy then (price - entry) * amount else (entry - price) * amount
  }

  /** Scans the list once, closing opposite lots until nothing remains of the fill. */
  function Scan(k: Measure, lots: seq<ListLot>, f: Fill, remaining: real): (r: (seq<ListLot>, real, real))
    decreases |lots|
  {
    if lots == [] then ([], 0.0, remaining)
    else if lots[0].side == f.side || remaining == 0.0 then
      var (kept, realized, left) := Scan(k, lots[1..], f, remaining);
      ([lots[0]] + kept, realized, left)
    else
      var matched := Min(remaining, lots[0].amount);
      var earned := ListGain(k, lots[0].side, lots[0].price, matched, f.price);
      var (kept, realized, left) := Scan(k, lots[1..], f, remaining - matched);
      var rest := lots[0].amount - matched;
      ((if rest > 0.0 then [lots[0].(amount := rest)] else []) + kept, earned + realized, left)
  }

  function ListApply(k: Measure, lots: seq<ListLot>, f: Fill): (seq<ListLot>, real) {
    var (kept, realized, left) := Scan(k, lots, f, f.amount);
    (if left > 0.0 then kept + [ListLot(f.side, f.price, left)] else kept, realized)
  }

  function ListFloating(k: Measure, lots: seq<ListLot>, bid: real, ask: real): real {
    if lots == [] then 0.0 else
      ListGain(k, lots[0].side, lots[0].price, lots[0].amount, if lots[0].side == Buy then ask else bid)
      + ListFloating(k, lots[1..], bid, ask)
  }

  /** The list's arithmetic is the engines'. */
  lemma ListGainIsEarn(k: Measure, side: Side, entry: real, amount: real, price: real)
    ensures ListGain(k, side, entry, amount, price)
            == if side == Buy then Earn(k, price)(entry, amount) else -Earn(k, price)(entry, amount)
  {
    if k == Relative && entry != 0.0 {
      NegatedQuotient(price - entry, entry, amount);
    }
  }

  lemma NegatedQuotient(x: real, d: real, amount: real)
    requires d != 0.0
    ensures -x / d * amount == -(amount * (x / d))
  {
    assert -x / d == -(x / d);
  }

  function ListNet(lots: seq<ListLot>): real {
    if lots == [] then 0.0 else
      (if lots[0].side == Buy then lots[0].amount else -lots[0].amount) + ListNet(lots[1..])
  }

  function Tag(side: Side, lots: seq<Lot>): (r: seq<ListLot>)
    ensures |r| == |lots|
  {
    if lots == [] then [] else [ListLot(side, lots[0].price, lots[0].amount)] + Tag(side, lots[1..])
  }

  /** The list that holds what the two queues hold. */
  function Listed(s: Fifo): seq<ListLot> { Tag(Buy, s.longs) + Tag(Sell, s.shorts) }

  lemma {:induction false} ScanKeeps(k: Measure, lots: seq<Lot>, side: Side, f: Fill, remaining: real)
    requires side == f.side || remaining == 0.0
    ensures Scan(k, Tag(side, lots), f, remaining) == (Tag(side, lots), 0.0, remaining)
    decreases |lots|
  {
    if lots != [] {
      assert Tag(side, lots)[1..] == Tag(side, lots[1..]);
      ScanKeeps(k, lots[1..], side, f, remaining);
    }
  }

  /** One step of the scan over a lot of the other side. */
  lemma ScanStep(k: Measure, lots: seq<Lot>, side: Side, f: Fill, remaining: real, matched: real)
    requires lots != [] && side != f.side && remaining > 0.0 && matched == Min(remaining, lots[0].amount)
    ensures var (kept, realized, left) := Scan(k, Tag(side, lots[1..]), f, remaining - matched);
            var rest := lots[0].amount - matched;
            var (kept', realized', left') := Scan(k, Tag(side, lots), f, remaining);
            && kept' == (if rest > 0.0 then [ListLot(side, lots[0].price, rest)] + kept else kept)
            && realized' == -Direction(f, Earn(k, f.price)(lots[0].price, matched)) + realized
            && left' == left
  {
    var r := Scan(k, Tag(side, lots[1..]), f, remaining - matched);
    ListGainIsEarn(k, side, lots[0].price, matched, f.price);
    hide Earn, ListGain;
    assert Tag(side, lots)[0] == ListLot(side, lots[0].price, lots[0].amount);
    assert Tag(side, lots)[1..] == Tag(side, lots[1..]);
    assert [] + r.0 == r.0;
  }

  lemma ScanClosesWithin(k: Measure, lots: seq<Lot>, side: Side, f: Fill, remaining: real)
    requires Positive(lots) && lots != [] && side != f.side && 0.0 < remaining < lots[0].amount
    ensures Scan(k, Tag(side, lots), f, remaining)
            == (Tag(side, Rest(lots, remaining)), -Direction(f, Pnl(lots, remaining, Earn(k, f.price))),
                Unmatched(lots, remaining))
  {
    TotalPositive(lots);
    ScanStep(k, lots, side, f, remaining, remaining);
    ScanKeeps(k, lots[1..], side, f, 0.0);
    TagHead(side, Lot(lots[0].price, lots[0].amount - remaining), lots[1..]);
    assert Pnl(lots[1..], 0.0, Earn(k, f.price)) == 0.0;
  }

  /** Closing a whole head lot moves on to the lots behind it. */
  lemma CloseHead(w: Earning, lots: seq<Lot>, remaining: real)
    requires Positive(lots) && lots != [] && remaining >= lots[0].amount
    ensures Positive(lots[1..]) && Rest(lots, remaining) == Rest(lots[1..], remaining - lots[0].amount)
    ensures Pnl(lots, remaining, w)
            == w(lots[0].price, lots[0].amount) + Pnl(lots[1..], remaining - lots[0].amount, w)
    ensures Unmatched(lots, remaining) == Unmatched(lots[1..], remaining - lots[0].amount)
  {}

  ghost predicate ScansAsClosing(k: Measure, lots: seq<Lot>, side: Side, f: Fill, remaining: real) {
    var (kept, realized, left) := Scan(k, Tag(side, lots), f, remaining);
    && kept == Tag(side, Rest(lots, remaining))
    && realized == -Direction(f, Pnl(lots, remaining, Earn(k, f.price)))
    && left == Unmatched(lots, remaining)
  }

  lemma ScanClosesHead(k: Measure, lots: seq<Lot>, side: Side, f: Fill, remaining: real)
    requires Positive(lots) && side != f.side && lots != [] && remaining >= lots[0].amount > 0.0
    requires ScansAsClosing(k, lots[1..], side, f, remaining - lots[0].amount)
    ensures ScansAsClosing(k, lots, side, f, remaining)
  {
    ScanStep(k, lots, side, f, remaining, lots[0].amount);
    CloseHead(Earn(k, f.price), lots, remaining);
    hide Scan, Tag, Pnl, Rest, Unmatched, Positive;
  }

  /** Scanning lots of the other side is closing them first in, first out. */
  lemma {:induction false} ScanCloses(k: Measure, lots: seq<Lot>, side: Side, f: Fill, remaining: real)
    requires Positive(lots) && side != f.side && remaining >= 0.0
    ensures ScansAsClosing(k, lots, side, f, remaining)
    decreases |lots|
  {
    TotalPositive(lots);
    if remaining == 0.0 {
      ScanKeeps(k, lots, side, f, remaining);
    } else if lots != [] && remaining < lots[0].amount {
      ScanClosesWithin(k, lots, side, f, remaining);
    } else if lots != [] {
      ScanCloses(k, lots[1..], side, f, remaining - lots[0].amount);
      ScanClosesHead(k, lots, side, f, remaining);
    }
  }

  lemma TagHead(side: Side, lot: Lot, lots: seq<Lot>)
    ensures Tag(side, [lot] + lots) == [ListLot(side, lot.price, lot.amount)] + Tag(side, lots)
  {
    assert ([lot] + lots)[1..] == lots;
  }

  lemma {:induction false} TagPush(side: Side, lots: seq<Lot>, lot: Lot)
    ensures Tag(side, lots + [lot]) == Tag(side, lots) + [ListLot(side, lot.price, lot.amount)]
    decreases |lots|
  {
    if lots == [] {
      assert lots + [lot] == [lot] && [lot][1..] == [];
    } else {
      assert (lots + [lot])[1..] == lots[1..] + [lot];
      TagPush(side, lots[1..], lot);
    }
  }

  /** The list holds lots of one side only. */
  lemma ListedSide(s: Fifo, f: Fill, w: Earning)
    requires FifoOk(s) && Accepts(f)
    ensures Closed(s, f) == [] ==> Listed(s) == Tag(f.side, if f.side == Buy then s.longs else s.shorts)
    ensures Closed(s, f) == [] ==> Pnl(Closed(s, f), f.amount, w) == 0.0 && Opened(s, f) == f.amount
    ensures Closed(s, f) != [] ==> Listed(s) == Tag(if f.side == Buy then Sell else Buy, Closed(s, f))
    ensures Positive(Closed(s, f)) && f.amount > 0.0
  {
    assert Tag(Buy, []) == [] && Tag(Sell, []) == [];
  }

  /** The list once a fill has closed what it can. */
  function Kept(s: Fifo, f: Fill): seq<ListLot> {
    if Closed(s, f) == [] then Tag(f.side, if f.side == Buy then s.longs else s.shorts)
    else Tag(if f.side == Buy then Sell else Buy, Rest(Closed(s, f), f.amount))
  }

  lemma ListedScan(k: Measure, s: Fifo, f: Fill)
    requires FifoOk(s) && Accepts(f)
    ensures var (kept, realized, left) := Scan(k, Listed(s), f, f.amount);
            kept == Kept(s, f) && realized == Realized(k, s, f) && left == Opened(s, f)
  {
    ListedSide(s, f, Earn(k, f.price));
    hide FifoOk, Listed, Tag, Pnl, Rest, Positive, Scan, Unmatched, Earn;
    if Closed(s, f) == [] {
      ScanKeeps(k, if f.side == Buy then s.longs else s.shorts, f.side, f, f.amount);
    } else {
      ScanCloses(k, Closed(s, f), if f.side == Buy then Sell else Buy, f, f.amount);
    }
  }

  /** Opening a lot at the back of a list of one side. */
  lemma ListedAfter(k: Measure, s: Fifo, f: Fill)
    requires FifoOk(s) && Accepts(f)
    ensures Listed(ApplyFill(k, s, f))
            == if Opened(s, f) > 0.0 then Kept(s, f) + [ListLot(f.side, f.price, Opened(s, f))] else Kept(s, f)
  {
    var own := if f.side == Buy then s.longs else s.shorts;
    var closed := Closed(s, f);
    RestOfAll(closed, f.amount);
    TagPush(f.side, own, Lot(f.price, Opened(s, f)));
    assert closed == [] ==> Rest(closed, f.amount) == [] && Opened(s, f) > 0.0;
    assert Tag(Buy, []) == [] && Tag(Sell, []) == [];
    hide Tag, Rest, Unmatched, Positive;
    assert closed != [] ==> own == [];
  }

  lemma ListApplied(k: Measure, lots: seq<ListLot>, f: Fill)
    ensures var (kept, realized, left) := Scan(k, lots, f, f.amount);
            ListApply(k, lots, f) == (if left > 0.0 then kept + [ListLot(f.side, f.price, left)] else kept, realized)
  {}

  /** One fill: the list scan realizes what the queues realize and ends with the same lots. */
  lemma FillRefinesScan(k: Measure, s: Fifo, f: Fill)
    requires FifoOk(s) && Accepts(f)
    ensures ListApply(k, Listed(s), f) == (Listed(ApplyFill(k, s, f)), Realized(k, s, f))
  {
    hide *;
    ListedScan(k, s, f);
    ListedAfter(k, s, f);
    ListApplied(k, Listed(s), f);
  }

  lemma {:induction false} ListFloatingTag(k: Measure, side: Side, lots: seq<Lot>, bid: real, ask: real)
    ensures ListFloating(k, Tag(side, lots), bid, ask)
            == if side == Buy then Value(lots, Earn(k, ask)) else -Value(lots, Earn(k, bid))
    ensures ListNet(Tag(side, lots)) == if side == Buy then Total(lots) else -Total(lots)
    decreases |lots|
  {
    if lots != [] {
      assert Tag(side, lots)[1..] == Tag(side, lots[1..]);
      ListGainIsEarn(k, side, lots[0].price, lots[0].amount, if side == Buy then ask else bid);
      hide Earn, ListGain;
      ListFloatingTag(k, side, lots[1..], bid, ask);
    }
  }

  lemma ListedMarks(k: Measure, s: Fifo, bid: real, ask: real)
    requires FifoOk(s)
    ensures ListFloating(k, Listed(s), bid, ask) == Floating(k, s, bid, ask)
    ensures ListNet(Listed(s)) == NetOpen(s)
  {
    ListFloatingTag(k, Buy, s.longs, bid, ask);
    ListFloatingTag(k, Sell, s.shorts, bid, ask);
    assert Listed(s) == if s.shorts == [] then Tag(Buy, s.longs) else Tag(Sell, s.shorts);
  }

  function ListRun(k: Measure, lots: seq<ListLot>, fills: seq<Fill>): (seq<ListLot>, seq<real>)
    decreases |fills|
  {
    if fills == [] then (lots, []) else
      var (next, realized) := ListApply(k, lots, fills[0]);
      var (end, rest) := ListRun(k, next, fills[1..]);
      (end, [realized] + rest)
  }

  function RealizedOf(reports: seq<FillResult>): seq<real> {
    if reports == [] then [] else [reports[0].realizedPnl] + RealizedOf(reports[1..])
  }

  /** Every fill sequence: realized PnL fill by fill, floating PnL and net amount agree with the list scan. */
  lemma {:induction false} RefinesListScan(k: Measure, s: Fifo, fills: seq<Fill>, bid: real, ask: real)
    requires FifoOk(s) && AllAccepted(fills)
    ensures var (lots, realized) := ListRun(k, Listed(s), fills);
            && realized == RealizedOf(Reports(k, s, fills))
            && ListFloating(k, lots, bid, ask) == Floating(k, Run(k, s, fills), bid, ask)
            && ListNet(lots) == NetOpen(Run(k, s, fills))
            && FifoOk(Run(k, s, fills))
    decreases |fills|
  {
    if fills == [] {
      ListedMarks(k, s, bid, ask);
    } else {
      FillRefinesScan(k, s, fills[0]);
      FillKeepsOk(k, s, fills[0]);
      var r := ApplyFill(k, s, fills[0]);
      RefinesListScan(k, r, fills[1..], bid, ask);
      var reports := Reports(k, s, fills);
      assert reports[1..] == Reports(k, r, fills[1..]);
    }
  }
}
