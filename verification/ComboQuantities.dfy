/** What an order closes: quantities are conserved, lots close oldest first, and carry is released evenly. */
module ComboQuantities {
  import opened Prelude
  import opened ComboFifo

  /** Open lots always hold more than the quantity that counts as nothing. */
  ghost predicate Open(lots: seq<OpenLot>) {
    forall i :: 0 <= i < |lots| ==> lots[i].remaining > QUANTITY_EPSILON
  }

  function Held(lots: seq<OpenLot>): real {
    if lots == [] then 0.0 else lots[0].remaining + Held(lots[1..])
  }

  function Matched(matches: seq<Match>): real
    decreases |matches|
  {
    if matches == [] then 0.0 else Matched(matches[..|matches| - 1]) + matches[|matches| - 1].quantity
  }

  /** At most one residue too small to count for each of `n` matches. */
  ghost predicate Dust(x: real, n: int) { 0.0 <= x <= QUANTITY_EPSILON * n as real }

  lemma DustAdds(x: real, y: real, n: int, m: int)
    requires Dust(x, n) && Dust(y, m)
    ensures Dust(x + y, n + m)
  {
    assert (n + m) as real == n as real + m as real;
  }

  /** Match `i` is the one `order` made against lot `i` of `lots`. */
  ghost predicate OldestFirst(lots: seq<OpenLot>, order: Order, before: seq<Match>, after: seq<Match>) {
    && |before| <= |after| <= |before| + |lots| && after[..|before|] == before
    && forall i :: 0 <= i < |after| - |before| ==>
         after[|before| + i].openFkey == lots[i].fkey && after[|before| + i].closeFkey == order.fkey
  }

  lemma OldestFirstCons(lots: seq<OpenLot>, order: Order, before: seq<Match>, m: Match, after: seq<Match>)
    requires lots != [] && m.openFkey == lots[0].fkey && m.closeFkey == order.fkey
    requires OldestFirst(lots[1..], order, before + [m], after)
    ensures OldestFirst(lots, order, before, after)
  {
    assert after[|before|] == (before + [m])[|before|];
    assert after[..|before|] == (before + [m])[..|before|];
    forall i | 0 <= i < |after| - |before|
      ensures after[|before| + i].openFkey == lots[i].fkey && after[|before| + i].closeFkey == order.fkey
    {
      if i > 0 {
        assert after[|before + [m]| + (i - 1)].openFkey == lots[1..][i - 1].fkey;
      }
    }
  }

  lemma MatchedAppend(matches: seq<Match>, m: Match)
    ensures Matched(matches + [m]) == Matched(matches) + m.quantity
  {
    assert (matches + [m])[..|matches|] == matches;
  }

  lemma HeldHead(lot: OpenLot, lots: seq<OpenLot>)
    ensures Held([lot] + lots) == lot.remaining + Held(lots)
  {
    assert ([lot] + lots)[1..] == lots;
  }

  /** The quantity matched between two states of a closing. */
  function MatchedBetween(k: Closing, r: Closing): real { Matched(r.matches) - Matched(k.matches) }

  /** The lots gave what the matches took, within one dust a match. */
  ghost predicate LotsConserved(k: Closing, r: Closing) {
    |r.matches| >= |k.matches|
    && Dust(Held(k.lots) - Held(r.lots) - MatchedBetween(k, r), |r.matches| - |k.matches|)
  }

  /** The order gave what the matches took; it loses dust only by being done. */
  ghost predicate OrderConserved(k: Closing, r: Closing) {
    if r.remaining > QUANTITY_EPSILON then r.remaining == k.remaining - MatchedBetween(k, r)
    else r.remaining == 0.0 && Dust(k.remaining - MatchedBetween(k, r), 1)
  }

  lemma LotsConservedChain(k: Closing, n: Closing, r: Closing)
    requires LotsConserved(k, n) && LotsConserved(n, r)
    ensures LotsConserved(k, r)
  {
    hide Matched, Held;
    DustAdds(Held(k.lots) - Held(n.lots) - MatchedBetween(k, n), Held(n.lots) - Held(r.lots) - MatchedBetween(n, r),
             |n.matches| - |k.matches|, |r.matches| - |n.matches|);
  }

  lemma OrderConservedChain(k: Closing, n: Closing, r: Closing)
    requires OrderConserved(k, n) && OrderConserved(n, r) && n.remaining > QUANTITY_EPSILON
    ensures OrderConserved(k, r)
  {
    hide Matched;
  }

  lemma CloseStepQuantities(k: Closing, order: Order, rates: Rates)
    requires k.remaining > QUANTITY_EPSILON && k.lots != [] && Open(k.lots)
    ensures var r := CloseStep(k, order, rates);
            && Open(r.lots) && LotsConserved(k, r) && OrderConserved(k, r)
            && |r.matches| == |k.matches| + 1 && MatchedBetween(k, r) > QUANTITY_EPSILON
  {
    var open := k.lots[0];
    var matched := Min(k.remaining, open.remaining);
    var left := Reduced(open, matched);
    MatchedAppend(k.matches, MatchOf(open, order, matched, rates));
    assert [open] + k.lots[1..] == k.lots;
    HeldHead(open, k.lots[1..]);
    HeldHead(left, k.lots[1..]);
  }

  /** Matches go through the lots from the oldest on, one each. */
  lemma {:induction false} CloseLoopOldestFirst(k: Closing, order: Order, rates: Rates)
    ensures OldestFirst(k.lots, order, k.matches, CloseLoop(k, order, rates).matches)
    decreases |k.lots|, k.remaining > QUANTITY_EPSILON
  {
    if k.remaining > QUANTITY_EPSILON && k.lots != [] {
      var n := CloseStep(k, order, rates);
      var matched := Min(k.remaining, k.lots[0].remaining);
      var m := MatchOf(k.lots[0], order, matched, rates);
      assert n.matches == k.matches + [m] && m.openFkey == k.lots[0].fkey && m.closeFkey == order.fkey;
      if n.lots == k.lots[1..] {
        CloseLoopOldestFirst(n, order, rates);
        OldestFirstCons(k.lots, order, k.matches, m, CloseLoop(n, order, rates).matches);
      } else {
        assert CloseLoop(n, order, rates) == n;
        OldestFirstCons(k.lots, order, k.matches, m, n.matches);
      }
    }
  }

  /**
   Closing is complete and conserves quantity: the order is used up or no lot is left, and the matches took what
   the order and the lots gave, up to residues that count as nothing.
   */
  lemma {:induction false} CloseLoopQuantities(k: Closing, order: Order, rates: Rates)
    requires Open(k.lots) && (k.remaining > QUANTITY_EPSILON || k.remaining == 0.0)
    ensures var r := CloseLoop(k, order, rates);
            && Open(r.lots) && (r.remaining == 0.0 || r.lots == [])
            && LotsConserved(k, r) && OrderConserved(k, r)
    decreases |k.lots|, k.remaining > QUANTITY_EPSILON
  {
    if k.remaining > QUANTITY_EPSILON && k.lots != [] {
      var n := CloseStep(k, order, rates);
      CloseStepQuantities(k, order, rates);
      assert n.remaining > QUANTITY_EPSILON || n.remaining == 0.0;
      hide CloseStep, Open, LotsConserved, OrderConserved;
      CloseLoopQuantities(n, order, rates);
      LotsConservedChain(k, n, CloseLoop(n, order, rates));
      if n.remaining > QUANTITY_EPSILON {
        OrderConservedChain(k, n, CloseLoop(n, order, rates));
      }
    }
  }

  // ---- Every run keeps its lots open

  ghost predicate StatesOpen(states: States) {
    forall k :: k in states ==> Open(states[k].positive) && Open(states[k].reverse)
  }

  lemma {:induction false} CloseLoopKeepsOpen(k: Closing, order: Order, rates: Rates)
    requires Open(k.lots)
    ensures Open(CloseLoop(k, order, rates).lots)
    decreases |k.lots|, k.remaining > QUANTITY_EPSILON
  {
    if k.remaining > QUANTITY_EPSILON && k.lots != [] {
      CloseStepQuantities(k, order, rates);
      CloseLoopKeepsOpen(CloseStep(k, order, rates), order, rates);
    }
  }

  lemma {:induction false} AllocationKeepsOpen(lots: seq<OpenLot>, share: real -> real)
    requires Open(lots)
    ensures Open(AddFunding(lots, share)) && Open(AddInterest(lots, share))
    decreases |lots|
  {
    if lots != [] {
      AllocationKeepsOpen(lots[1..], share);
    }
  }

  lemma StepKeepsOpen(a: Analysis, ev: CarryEvent, rates: Rates)
    requires StatesOpen(a.states)
    ensures StatesOpen(Step(a, ev, rates).states)
  {
    match ev
    case OrderEvent(o) =>
      if o.symbol in a.states {
        var s := a.states[o.symbol];
        var lots := if o.direction == Positive then s.reverse else s.positive;
        CloseLoopKeepsOpen(Closing(lots, o.quantity, []), o, rates);
      }
    case FundingEvent(symbol, amount) =>
      if TakesFunding(a.states, symbol) {
        var share := Share(amount, OpenFutures(a.states[symbol]));
        AllocationKeepsOpen(a.states[symbol].positive, share);
        AllocationKeepsOpen(a.states[symbol].reverse, share);
      }
    case InterestEvent(scope, cost) =>
      if TakesInterest(a.states, scope, cost) {
        var share := Share(cost.value, InterestBase(a.states, scope));
        forall k | k in a.states
          ensures Open(AddInterest(a.states[k].positive, share)) && Open(AddInterest(a.states[k].reverse, share))
        {
          AllocationKeepsOpen(a.states[k].positive, share);
          AllocationKeepsOpen(a.states[k].reverse, share);
        }
      }
  }

  /** No run leaves a lot with a quantity that counts as nothing. */
  lemma {:induction false} RunKeepsOpen(a: Analysis, events: seq<CarryEvent>, rates: Rates)
    requires StatesOpen(a.states)
    ensures StatesOpen(Run(a, events, rates).states)
    decreases |events|
  {
    if events != [] {
      RunKeepsOpen(a, events[..|events| - 1], rates);
      StepKeepsOpen(Run(a, events[..|events| - 1], rates), events[|events| - 1], rates);
    }
  }

  /** What a partial match leaves behind carries as much per unit as before. */
  lemma ReleaseIsProportional(held: real, matched: real, remaining: real)
    requires 0.0 < matched && matched + QUANTITY_EPSILON < remaining
    ensures Released(held, matched, remaining) * remaining == held * matched
    ensures (held - Released(held, matched, remaining)) * remaining == held * (remaining - matched)
  {
    var x := held * matched;
    DivideTimes(x, remaining);
    assert Released(held, matched, remaining) == x / remaining;
    assert held * (remaining - matched) == held * remaining - x;
  }

  /** Releasing in two matches gives what one match of both quantities gives. */
  lemma ReleaseInParts(held: real, first: real, second: real, remaining: real)
    requires 0.0 < first && 0.0 < second && first + QUANTITY_EPSILON < remaining && first + second <= remaining
    ensures var out := Released(held, first, remaining);
            out + Released(held - out, second, remaining - first) == Released(held, first + second, remaining)
  {
    var out := Released(held, first, remaining);
    if first + second + QUANTITY_EPSILON < remaining {
      var left := remaining - first;
      var rest := Released(held - out, second, left);
      var whole := Released(held, first + second, remaining);
      ReleaseIsProportional(held, first, remaining);
      ReleaseIsProportional(held, first + second, remaining);
      ReleaseIsProportional(held - out, second, left);
      SecondPart(held, held - out, first, second, remaining, rest);
      hide Released;
      assert held * (first + second) == held * first + held * second;
      assert (out + rest) * remaining == out * remaining + rest * remaining;
      SameQuotient(out + rest, whole, remaining);
    }
  }

  lemma SecondPart(held: real, kept: real, first: real, second: real, remaining: real, rest: real)
    requires kept * remaining == held * (remaining - first) && rest * (remaining - first) == kept * second
    requires first < remaining
    ensures rest * remaining == held * second
  {
    var left := remaining - first;
    assert rest * remaining * left == rest * left * remaining;
    assert kept * second * remaining == kept * remaining * second;
    assert held * left * second == held * second * left;
    SameQuotient(rest * remaining, held * second, left);
  }
}
