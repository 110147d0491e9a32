/** Window summaries: differences of metrics, additive over adjacent windows up to the cleaning of tiny values. */
module PnlWindows {
  import opened Prelude
  import opened FifoLots
  import opened FifoEquivalence
  import opened SymbolLedger
  import opened PnlSweep

  const NO_SNAPSHOT := VenueSnapshot(0.0, 0.0, 0.0, 0.0, 0.0)

  datatype Metrics = Metrics(
    tradeCount: nat, volume: real, feeBefore: real, tradingFee: real, feeAfter: real, funding: real, interest: real,
    floating: real, total: real, unconvertedFees: nat, unconvertedInterest: nat)

  function OrEmpty(s: Option<VenueSnapshot>): VenueSnapshot { if s.Some? then s.value else NO_SNAPSHOT }

  function MetricsOf(l: Ledger): Metrics {
    var spot, futures := OrEmpty(l.spotSnapshot), OrEmpty(l.futuresSnapshot);
    Metrics(l.tradeCount, l.volume,
            spot.grossRealizedPnl + futures.grossRealizedPnl, spot.cumulativeFees + futures.cumulativeFees,
            spot.realizedPnl + futures.realizedPnl, l.fundingPnl, l.interestCost,
            spot.floatingPnl + futures.floatingPnl, TotalPnl(l), l.unconvertedFees, l.unconvertedInterest)
  }

  function Saturating(a: nat, b: nat): nat { if a >= b then a - b else 0 }

  function Difference(m: Metrics, base: Metrics): Metrics {
    Metrics(Saturating(m.tradeCount, base.tradeCount), CleanZero(m.volume - base.volume),
            CleanZero(m.feeBefore - base.feeBefore), CleanZero(m.tradingFee - base.tradingFee),
            CleanZero(m.feeAfter - base.feeAfter), CleanZero(m.funding - base.funding),
            CleanZero(m.interest - base.interest), CleanZero(m.floating - base.floating),
            CleanZero(m.total - base.total),
            Saturating(m.unconvertedFees, base.unconvertedFees),
            Saturating(m.unconvertedInterest, base.unconvertedInterest))
  }

  const TOLERANCE := 0.000000000003

  ghost predicate Near(x: real, y: real) { Abs(x - y) < TOLERANCE }

  /** Counts add up exactly, amounts up to three cleanings. */
  ghost predicate AddsUp(x: Metrics, y: Metrics, whole: Metrics) {
    && x.tradeCount + y.tradeCount == whole.tradeCount
    && x.unconvertedFees + y.unconvertedFees == whole.unconvertedFees
    && x.unconvertedInterest + y.unconvertedInterest == whole.unconvertedInterest
    && Near(x.volume + y.volume, whole.volume) && Near(x.feeBefore + y.feeBefore, whole.feeBefore)
    && Near(x.tradingFee + y.tradingFee, whole.tradingFee) && Near(x.feeAfter + y.feeAfter, whole.feeAfter)
    && Near(x.funding + y.funding, whole.funding) && Near(x.interest + y.interest, whole.interest)
    && Near(x.floating + y.floating, whole.floating) && Near(x.total + y.total, whole.total)
  }

  ghost predicate CountsUp(a: Metrics, b: Metrics) {
    a.tradeCount <= b.tradeCount && a.unconvertedFees <= b.unconvertedFees
    && a.unconvertedInterest <= b.unconvertedInterest
  }

  lemma CleaningAdds(a: real, m: real, b: real)
    ensures Near(CleanZero(m - a) + CleanZero(b - m), CleanZero(b - a))
  {}

  lemma DifferencesAdd(a: Metrics, m: Metrics, b: Metrics)
    requires CountsUp(a, m) && CountsUp(m, b)
    ensures AddsUp(Difference(m, a), Difference(b, m), Difference(b, a))
  {
    hide CleanZero, Near;
    CleaningAdds(a.volume, m.volume, b.volume);
    CleaningAdds(a.feeBefore, m.feeBefore, b.feeBefore);
    CleaningAdds(a.tradingFee, m.tradingFee, b.tradingFee);
    CleaningAdds(a.feeAfter, m.feeAfter, b.feeAfter);
    CleaningAdds(a.funding, m.funding, b.funding);
    CleaningAdds(a.interest, m.interest, b.interest);
    CleaningAdds(a.floating, m.floating, b.floating);
    CleaningAdds(a.total, m.total, b.total);
  }

  lemma EventCountsUp(states: States, ev: PnlEvent, symbol: string)
    requires ApplyTo(states, ev).Ok? && symbol in states
    ensures symbol in ApplyTo(states, ev).value
    ensures CountsUp(MetricsOf(states[symbol]), MetricsOf(ApplyTo(states, ev).value[symbol]))
  {}

  lemma {:induction false} ReplayCountsUp(initial: States, events: seq<PnlEvent>, n: nat, symbol: string)
    requires n <= |events| && Replay(initial, events).Ok? && symbol in initial
    ensures Replay(initial, events[..n]).Ok?
    ensures var before, after := Replay(initial, events[..n]).value, Replay(initial, events).value;
            symbol in before && symbol in after && CountsUp(MetricsOf(before[symbol]), MetricsOf(after[symbol]))
    decreases |events|
  {
    ReplayKeys(initial, events);
    if n == |events| {
      assert events[..n] == events;
    } else {
      var init := events[..|events| - 1];
      assert init[..n] == events[..n];
      ReplayCountsUp(initial, init, n, symbol);
      EventCountsUp(Replay(initial, init).value, events[|events| - 1], symbol);
    }
  }

  /** The events up to an earlier time are a prefix of those up to a later one. */
  lemma UpToUpTo(events: seq<PnlEvent>, s: int, t: int)
    requires ByTime(events) && s <= t
    ensures |UpTo(events, s)| <= |UpTo(events, t)| && UpTo(events, s) == UpTo(events, t)[..|UpTo(events, s)|]
  {
    var n := CutAt(events, s);
    var m := CutAt(events, t);
    assert n <= m by {
      assert n > 0 ==> events[n - 1].Ts() <= s;
    }
    assert events[..n] == events[..m][..n];
  }

  ghost predicate Replayable(initial: States, events: seq<PnlEvent>, t: int, symbol: string) {
    symbol in initial && Replay(initial, UpTo(events, t)).Ok?
  }

  lemma ReplayableEarlier(initial: States, events: seq<PnlEvent>, s: int, t: int, symbol: string)
    requires ByTime(events) && s <= t && Replayable(initial, events, t, symbol)
    ensures Replayable(initial, events, s, symbol)
    ensures CountsUp(At(initial, events, s, symbol), At(initial, events, t, symbol))
  {
    UpToUpTo(events, s, t);
    ReplayCountsUp(initial, UpTo(events, t), |UpTo(events, s)|, symbol);
  }

  /** The metrics of a symbol after the events at or before `t`. */
  ghost function At(initial: States, events: seq<PnlEvent>, t: int, symbol: string): Metrics {
    var r := Replay(initial, UpTo(events, t));
    if r.Ok? && symbol in r.value then MetricsOf(r.value[symbol]) else MetricsOf(NewLedger(Absolute))
  }

  /** What a symbol's summary over `[startMs, endMs]` is meant to be. */
  ghost function Window(initial: States, events: seq<PnlEvent>, startMs: int, endMs: int, symbol: string): Metrics {
    Difference(At(initial, events, endMs, symbol), At(initial, events, startMs - 1, symbol))
  }

  /** The sweep's summary of one symbol. */
  method Summarize(initial: States, events: seq<PnlEvent>, startMs: int, endMs: int, symbol: string)
    returns (r: Result<Metrics, PnlError>)
    requires ByTime(events) && symbol in initial && startMs <= endMs
    ensures r.Ok? <==> Replayable(initial, events, endMs, symbol)
    ensures r.Ok? ==> r.value == Window(initial, events, startMs, endMs, symbol)
  {
    var swept := Sweep(initial, events, {symbol}, [], startMs, endMs);
    if swept.Err? {
      return Err(swept.error);
    }
    ReplayKeys(initial, UpTo(events, endMs));
    ReplayKeys(initial, UpTo(events, startMs - 1));
    return Ok(Difference(MetricsOf(swept.value.end[symbol]), MetricsOf(swept.value.baselines[symbol])));
  }

  /** Adjacent windows: the summaries of `[a, m - 1]` and `[m, b]` add up to that of `[a, b]`. */
  lemma AdjacentWindowsAdd(initial: States, events: seq<PnlEvent>, a: int, m: int, b: int, symbol: string)
    requires ByTime(events) && a <= m <= b && Replayable(initial, events, b, symbol)
    ensures AddsUp(Window(initial, events, a, m - 1, symbol), Window(initial, events, m, b, symbol),
                   Window(initial, events, a, b, symbol))
  {
    ReplayableEarlier(initial, events, m - 1, b, symbol);
    ReplayableEarlier(initial, events, a - 1, m - 1, symbol);
    DifferencesAdd(At(initial, events, a - 1, symbol), At(initial, events, m - 1, symbol),
                   At(initial, events, b, symbol));
  }
}
