/** Who gets what: funding and interest go to the open lots in proportion to their notional, and change nothing else. */
module ComboShares {
  import opened Prelude
  import opened ComboFifo

  // ---- Funding

  /** Every lot is as before but for its funding. */
  ghost predicate OnlyFunding(before: seq<OpenLot>, after: seq<OpenLot>) {
    |after| == |before|
    && forall i :: 0 <= i < |before| ==> after[i] == before[i].(funding := after[i].funding)
  }

  /** What two lots got is as their futures notionals. */
  ghost predicate FundingShared(x: OpenLot, x': OpenLot, y: OpenLot, y': OpenLot) {
    (x'.funding - x.funding) * (y.remaining * y.futuresPrice)
    == (y'.funding - y.funding) * (x.remaining * x.futuresPrice)
  }

  /** The lots of a symbol, whichever side they stand on. */
  function LotsOf(s: Lots): seq<OpenLot> { s.positive + s.reverse }

  function Given(lot: OpenLot, share: real -> real): OpenLot {
    lot.(funding := lot.funding + share(lot.remaining * lot.futuresPrice))
  }

  lemma {:induction false} AddFundingAt(lots: seq<OpenLot>, share: real -> real, i: nat)
    requires i < |lots|
    ensures |AddFunding(lots, share)| == |lots| && AddFunding(lots, share)[i] == Given(lots[i], share)
  {
    var rest := AddFunding(lots[1..], share);
    assert AddFunding(lots, share) == [Given(lots[0], share)] + rest;
    hide Given;
    if i > 0 {
      AddFundingAt(lots[1..], share, i - 1);
    } else if |lots| > 1 {
      AddFundingAt(lots[1..], share, 0);
    }
  }

  lemma ShareTimes(amount: real, total: real, x: real)
    requires total != 0.0
    ensures Share(amount, total)(x) * total == amount * x
  {
    DivideTimes(amount * x, total);
  }

  /** Shares are as what they are shares of. */
  lemma ShareOfBoth(amount: real, total: real, x: real, y: real, p: real, q: real)
    requires total != 0.0 && p * total == amount * x && q * total == amount * y
    ensures p * y == q * x
  {
    assert p * y * total == p * total * y && q * x * total == q * total * x;
    assert amount * x * y == amount * y * x;
    SameQuotient(p * y, q * x, total);
  }

  lemma AddFundingOnly(lots: seq<OpenLot>, share: real -> real)
    ensures OnlyFunding(lots, AddFunding(lots, share))
  {
    if lots != [] {
      AddFundingAt(lots, share, 0);
    }
    forall i | 0 <= i < |lots|
      ensures AddFunding(lots, share)[i] == lots[i].(funding := AddFunding(lots, share)[i].funding)
    {
      AddFundingAt(lots, share, i);
    }
  }

  function Funded(s: Lots, share: real -> real): Lots {
    Lots(AddFunding(s.positive, share), AddFunding(s.reverse, share))
  }

  /** The lot got its share of an amount by futures notional. */
  ghost predicate FundedBy(x: OpenLot, x': OpenLot, amount: real, total: real) {
    (x'.funding - x.funding) * total == amount * (x.remaining * x.futuresPrice)
  }

  lemma GivenIsFunded(x: OpenLot, amount: real, total: real)
    requires total != 0.0
    ensures FundedBy(x, Given(x, Share(amount, total)), amount, total)
  {
    ShareTimes(amount, total, x.remaining * x.futuresPrice);
    hide Share;
  }

  lemma FundedShared(x: OpenLot, x': OpenLot, y: OpenLot, y': OpenLot, amount: real, total: real)
    requires total != 0.0 && FundedBy(x, x', amount, total) && FundedBy(y, y', amount, total)
    ensures FundingShared(x, x', y, y')
  {
    ShareOfBoth(amount, total, x.remaining * x.futuresPrice, y.remaining * y.futuresPrice,
                x'.funding - x.funding, y'.funding - y.funding);
  }

  /** One lot of a symbol and what it got. */
  lemma FundedAt(s: Lots, amount: real, total: real, i: nat)
    requires i < |LotsOf(s)| && total != 0.0
    ensures var r := Funded(s, Share(amount, total));
            |LotsOf(r)| == |LotsOf(s)| && FundedBy(LotsOf(s)[i], LotsOf(r)[i], amount, total)
  {
    var share := Share(amount, total);
    AddFundingOnly(s.positive, share);
    AddFundingOnly(s.reverse, share);
    var lots := if i < |s.positive| then s.positive else s.reverse;
    var at := if i < |s.positive| then i else i - |s.positive|;
    assert LotsOf(s)[i] == lots[at];
    AddFundingAt(lots, share, at);
    GivenIsFunded(lots[at], amount, total);
    hide AddFunding, Share, FundedBy, Given;
    assert LotsOf(Funded(s, share))[i] == AddFunding(lots, share)[at];
  }

  lemma FundedBoth(s: Lots, amount: real, total: real, i: nat, j: nat)
    requires i < |LotsOf(s)| && j < |LotsOf(s)| && total != 0.0
    ensures var r := Funded(s, Share(amount, total));
            && |LotsOf(r)| == |LotsOf(s)|
            && FundingShared(LotsOf(s)[i], LotsOf(r)[i], LotsOf(s)[j], LotsOf(r)[j])
  {
    hide *;
    FundedAt(s, amount, total, i);
    FundedAt(s, amount, total, j);
    var r := Funded(s, Share(amount, total));
    FundedShared(LotsOf(s)[i], LotsOf(r)[i], LotsOf(s)[j], LotsOf(r)[j], amount, total);
  }

  /**
   All open lots of the symbol, on both sides, got shares as quantity times futures price. No lot moved or changed
   otherwise, and no other symbol was touched.
   */
  ghost predicate FundingSplit(states: States, r: States, symbol: string) {
    && r.Keys == states.Keys && (forall k :: k in states && k != symbol ==> r[k] == states[k])
    && (symbol in states ==>
          && OnlyFunding(states[symbol].positive, r[symbol].positive)
          && OnlyFunding(states[symbol].reverse, r[symbol].reverse)
          && forall i, j :: 0 <= i < |LotsOf(states[symbol])| && 0 <= j < |LotsOf(states[symbol])| ==>
               FundingShared(LotsOf(states[symbol])[i], LotsOf(r[symbol])[i],
                             LotsOf(states[symbol])[j], LotsOf(r[symbol])[j]))
  }

  /** A funding amount is split over the open lots of its symbol, or changes nothing. */
  lemma FundingByNotional(states: States, symbol: string, amount: real)
    ensures FundingSplit(states, AllocateFunding(states, symbol, amount), symbol)
    ensures !TakesFunding(states, symbol) ==> AllocateFunding(states, symbol, amount) == states
  {
    if TakesFunding(states, symbol) {
      var s, r := states[symbol], AllocateFunding(states, symbol, amount)[symbol];
      var total := OpenFutures(s);
      var share := Share(amount, total);
      assert r == Funded(s, share);
      AddFundingOnly(s.positive, share);
      AddFundingOnly(s.reverse, share);
      hide Share, FundingShared, OnlyFunding, OpenFutures, AddFunding, LotsOf;
      forall i, j | 0 <= i < |LotsOf(s)| && 0 <= j < |LotsOf(s)|
        ensures |LotsOf(r)| == |LotsOf(s)| && FundingShared(LotsOf(s)[i], LotsOf(r)[i], LotsOf(s)[j], LotsOf(r)[j])
      {
        FundedBoth(s, amount, total, i, j);
      }
    } else if symbol in states {
      Untouched(states[symbol]);
    }
  }

  lemma Untouched(s: Lots)
    ensures OnlyFunding(s.positive, s.positive) && OnlyFunding(s.reverse, s.reverse)
    ensures OnlyInterest(s.positive, s.positive) && OnlyInterest(s.reverse, s.reverse)
    ensures forall i, j :: 0 <= i < |LotsOf(s)| && 0 <= j < |LotsOf(s)| ==>
              FundingShared(LotsOf(s)[i], LotsOf(s)[i], LotsOf(s)[j], LotsOf(s)[j])
  {}

  // ---- Interest

  /** Every lot is as before but for its interest. */
  ghost predicate OnlyInterest(before: seq<OpenLot>, after: seq<OpenLot>) {
    |after| == |before|
    && forall i :: 0 <= i < |before| ==> after[i] == before[i].(interest := after[i].interest)
  }

  /** What two lots were charged is as their spot notionals. */
  ghost predicate InterestShared(x: OpenLot, x': OpenLot, y: OpenLot, y': OpenLot) {
    (x'.interest - x.interest) * (y.remaining * y.spotPrice)
    == (y'.interest - y.interest) * (x.remaining * x.spotPrice)
  }

  function Charged(lot: OpenLot, share: real -> real): OpenLot {
    lot.(interest := lot.interest + share(lot.remaining * lot.spotPrice))
  }

  lemma {:induction false} AddInterestAt(lots: seq<OpenLot>, share: real -> real, i: nat)
    requires i < |lots|
    ensures |AddInterest(lots, share)| == |lots| && AddInterest(lots, share)[i] == Charged(lots[i], share)
  {
    var rest := AddInterest(lots[1..], share);
    assert AddInterest(lots, share) == [Charged(lots[0], share)] + rest;
    hide Charged;
    if i > 0 {
      AddInterestAt(lots[1..], share, i - 1);
    } else if |lots| > 1 {
      AddInterestAt(lots[1..], share, 0);
    }
  }

  lemma AddInterestOnly(lots: seq<OpenLot>, share: real -> real)
    ensures OnlyInterest(lots, AddInterest(lots, share))
  {
    if lots != [] {
      AddInterestAt(lots, share, 0);
    }
    forall i | 0 <= i < |lots|
      ensures AddInterest(lots, share)[i] == lots[i].(interest := AddInterest(lots, share)[i].interest)
    {
      AddInterestAt(lots, share, i);
    }
  }

  /** The lot was charged its share of a cost by spot notional. */
  ghost predicate ChargedBy(x: OpenLot, x': OpenLot, cost: real, total: real) {
    (x'.interest - x.interest) * total == cost * (x.remaining * x.spotPrice)
  }

  lemma ChargedIsCharged(x: OpenLot, cost: real, total: real)
    requires total != 0.0
    ensures ChargedBy(x, Charged(x, Share(cost, total)), cost, total)
  {
    ShareTimes(cost, total, x.remaining * x.spotPrice);
    hide Share;
  }

  lemma ChargedShared(x: OpenLot, x': OpenLot, y: OpenLot, y': OpenLot, cost: real, total: real)
    requires total != 0.0 && ChargedBy(x, x', cost, total) && ChargedBy(y, y', cost, total)
    ensures InterestShared(x, x', y, y')
  {
    ShareOfBoth(cost, total, x.remaining * x.spotPrice, y.remaining * y.spotPrice,
                x'.interest - x.interest, y'.interest - y.interest);
  }

  /** Two charged lots, of whichever symbols. */
  lemma ChargedBoth(xs: seq<OpenLot>, i: nat, ys: seq<OpenLot>, j: nat, cost: real, total: real)
    requires i < |xs| && j < |ys| && total != 0.0
    ensures var share := Share(cost, total);
            && |AddInterest(xs, share)| == |xs| && |AddInterest(ys, share)| == |ys|
            && InterestShared(xs[i], AddInterest(xs, share)[i], ys[j], AddInterest(ys, share)[j])
  {
    hide *;
    var share := Share(cost, total);
    AddInterestAt(xs, share, i);
    AddInterestAt(ys, share, j);
    ChargedIsCharged(xs[i], cost, total);
    ChargedIsCharged(ys[j], cost, total);
    ChargedShared(xs[i], AddInterest(xs, share)[i], ys[j], AddInterest(ys, share)[j], cost, total);
  }

  /** Interest of one symbol: spread over its reverse lots, in proportion to quantity times spot price. */
  lemma SymbolInterestByNotional(states: States, symbol: string, cost: Option<real>)
    ensures var r := AllocateInterest(states, Some(symbol), cost);
            && r.Keys == states.Keys && (forall k :: k in states && k != symbol ==> r[k] == states[k])
            && (!TakesInterest(states, Some(symbol), cost) ==> r == states)
            && (symbol in states ==>
                  var before, after := states[symbol], r[symbol];
                  && after.positive == before.positive && OnlyInterest(before.reverse, after.reverse)
                  && forall i, j :: 0 <= i < |before.reverse| && 0 <= j < |before.reverse| ==>
                       InterestShared(before.reverse[i], after.reverse[i], before.reverse[j], after.reverse[j]))
  {
    if TakesInterest(states, Some(symbol), cost) {
      var lots, total := states[symbol].reverse, InterestBase(states, Some(symbol));
      AddInterestOnly(lots, Share(cost.value, total));
      forall i, j | 0 <= i < |lots| && 0 <= j < |lots|
        ensures InterestShared(lots[i], AddInterest(lots, Share(cost.value, total))[i],
                               lots[j], AddInterest(lots, Share(cost.value, total))[j])
      {
        ChargedBoth(lots, i, lots, j, cost.value, total);
      }
    }
  }

  /** The same, for a cost without a symbol: spread over the positive lots of all symbols. */
  lemma SharedInterestByNotional(states: States, cost: Option<real>)
    ensures var r := AllocateInterest(states, None, cost);
            && r.Keys == states.Keys
            && (!TakesInterest(states, None, cost) ==> r == states)
            && (forall k :: k in states ==>
                  r[k].reverse == states[k].reverse && OnlyInterest(states[k].positive, r[k].positive))
            && (forall k, l, i, j ::
                  k in states && l in states && 0 <= i < |states[k].positive| && 0 <= j < |states[l].positive| ==>
                    InterestShared(states[k].positive[i], r[k].positive[i], states[l].positive[j], r[l].positive[j]))
  {
    var r := AllocateInterest(states, None, cost);
    if TakesInterest(states, None, cost) {
      var total := InterestBase(states, None);
      var share := Share(cost.value, total);
      forall k | k in states ensures OnlyInterest(states[k].positive, r[k].positive) {
        AddInterestOnly(states[k].positive, share);
      }
      forall k, l, i, j | k in states && l in states && 0 <= i < |states[k].positive| && 0 <= j < |states[l].positive|
        ensures InterestShared(states[k].positive[i], r[k].positive[i], states[l].positive[j], r[l].positive[j])
      {
        ChargedBoth(states[k].positive, i, states[l].positive, j, cost.value, total);
      }
    }
  }
}
