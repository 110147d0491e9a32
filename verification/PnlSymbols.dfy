/**
 What a replay does to each symbol: its own events, all of them and in their order. From that follow what the sweep
 reports in terms of the events themselves: cash accounts of the selected symbols, and what a window's events added.
 */
module PnlSymbols {
  import opened Prelude
  import opened MapSum
  import opened FifoLots
  import opened FifoEquivalence
  import opened FifoReturns
  import opened SymbolLedger
  import opened PnlSweep
  import opened PnlWindows

  // ---- One symbol of a replay

  /** The events of one symbol, in their order. */
  function EventsOf(events: seq<PnlEvent>, symbol: string): seq<PnlEvent>
    decreases |events|
  {
    if events == [] then [] else
      var ev := events[|events| - 1];
      EventsOf(events[..|events| - 1], symbol) + (if ev.Symbol() == symbol then [ev] else [])
  }

  /** One ledger through some events; a rejected one stops it. */
  function Fold(l: Ledger, events: seq<PnlEvent>): Result<Ledger, PnlError>
    decreases |events|
  {
    if events == [] then Ok(l) else
      var before := Fold(l, events[..|events| - 1]);
      if before.Err? then before else ApplyEvent(before.value, events[|events| - 1])
  }

  lemma FoldAppend(l: Ledger, events: seq<PnlEvent>, ev: PnlEvent)
    ensures Fold(l, events + [ev])
            == if Fold(l, events).Err? then Fold(l, events) else ApplyEvent(Fold(l, events).value, ev)
  {
    assert (events + [ev])[..|events|] == events;
  }

  lemma EventsOfAppend(events: seq<PnlEvent>, ev: PnlEvent, symbol: string)
    ensures EventsOf(events + [ev], symbol)
            == if ev.Symbol() == symbol then EventsOf(events, symbol) + [ev] else EventsOf(events, symbol)
  {
    assert (events + [ev])[..|events|] == events;
  }

  lemma ReplayAppend(initial: States, events: seq<PnlEvent>, ev: PnlEvent)
    ensures Replay(initial, events + [ev])
            == if Replay(initial, events).Err? then Replay(initial, events)
               else ApplyTo(Replay(initial, events).value, ev)
  {
    assert (events + [ev])[..|events|] == events;
  }

  /** Every symbol has gone through its own events, and its events only. */
  ghost predicate BySymbol(initial: States, events: seq<PnlEvent>, states: States) {
    states.Keys == initial.Keys
    && forall s :: s in initial ==> Fold(initial[s], EventsOf(events, s)) == Ok(states[s])
  }

  /** Every event names a symbol, which takes all of its events. */
  ghost predicate TakesAll(initial: States, events: seq<PnlEvent>) {
    && (forall i :: 0 <= i < |events| ==> events[i].Symbol() in initial)
    && (forall s :: s in initial ==> TakesOwn(initial[s], events, s))
  }

  ghost predicate TakesOwn(l: Ledger, events: seq<PnlEvent>, symbol: string) { Fold(l, EventsOf(events, symbol)).Ok? }

  /** One symbol after one more event. */
  lemma NextOf(initial: States, events: seq<PnlEvent>, ev: PnlEvent, states: States, s: string)
    requires BySymbol(initial, events, states) && s in initial
    ensures Fold(initial[s], EventsOf(events + [ev], s))
            == if ev.Symbol() == s then ApplyEvent(states[s], ev) else Ok(states[s])
  {
    EventsOfAppend(events, ev, s);
    FoldAppend(initial[s], EventsOf(events, s), ev);
    hide Fold, EventsOf, ApplyEvent;
  }

  lemma OneMoreBySymbol(initial: States, events: seq<PnlEvent>, ev: PnlEvent, states: States)
    requires BySymbol(initial, events, states) && ApplyTo(states, ev).Ok?
    ensures BySymbol(initial, events + [ev], ApplyTo(states, ev).value)
  {
    hide Fold, EventsOf, ApplyEvent;
    var r := ApplyTo(states, ev).value;
    forall s | s in initial ensures Fold(initial[s], EventsOf(events + [ev], s)) == Ok(r[s]) {
      NextOf(initial, events, ev, states, s);
    }
  }

  /** A replay takes each symbol through its own events. */
  lemma {:induction false} ReplayBySymbol(initial: States, events: seq<PnlEvent>)
    requires Replay(initial, events).Ok?
    ensures BySymbol(initial, events, Replay(initial, events).value)
    decreases |events|
  {
    if events != [] {
      var init, ev := events[..|events| - 1], events[|events| - 1];
      InitAndLast(events);
      ReplayAppend(initial, init, ev);
      hide Replay, BySymbol, ApplyTo;
      ReplayBySymbol(initial, init);
      OneMoreBySymbol(initial, init, ev, Replay(initial, init).value);
    }
  }

  lemma NextTakes(initial: States, events: seq<PnlEvent>, ev: PnlEvent, states: States, s: string)
    requires BySymbol(initial, events, states) && s in initial
    ensures s in states
    ensures TakesOwn(initial[s], events + [ev], s) <==> ev.Symbol() == s ==> ApplyEvent(states[s], ev).Ok?
  {
    NextOf(initial, events, ev, states, s);
    hide Fold, EventsOf, ApplyEvent;
  }

  lemma SymbolsMore(initial: States, events: seq<PnlEvent>, ev: PnlEvent)
    requires TakesAll(initial, events)
    ensures TakesAll(initial, events + [ev])
            <==> ev.Symbol() in initial && forall s :: s in initial ==> TakesOwn(initial[s], events + [ev], s)
  {
    hide TakesOwn;
    var all := events + [ev];
    assert all[|events|] == ev && forall i :: 0 <= i < |events| ==> all[i] == events[i];
  }

  lemma TakesMore(initial: States, events: seq<PnlEvent>, ev: PnlEvent, states: States)
    requires BySymbol(initial, events, states) && TakesAll(initial, events)
    ensures TakesAll(initial, events + [ev]) <==> ApplyTo(states, ev).Ok?
  {
    assert states.Keys == initial.Keys;
    SymbolsMore(initial, events, ev);
    hide TakesAll, TakesOwn, ApplyEvent, BySymbol;
    forall s | s in initial
      ensures s in states
      ensures TakesOwn(initial[s], events + [ev], s) <==> ev.Symbol() == s ==> ApplyEvent(states[s], ev).Ok?
    {
      NextTakes(initial, events, ev, states, s);
    }
  }

  lemma TookBefore(initial: States, events: seq<PnlEvent>, ev: PnlEvent)
    requires TakesAll(initial, events + [ev])
    ensures TakesAll(initial, events)
  {
    var all := events + [ev];
    assert forall i :: 0 <= i < |events| ==> all[i] == events[i];
    forall s | s in initial ensures TakesOwn(initial[s], events, s) {
      EventsOfAppend(events, ev, s);
      FoldAppend(initial[s], EventsOf(events, s), ev);
      assert TakesOwn(initial[s], all, s);
    }
  }

  /** A replay fails exactly when an event names a symbol that is not there, or is rejected by it. */
  lemma {:induction false} ReplaysIff(initial: States, events: seq<PnlEvent>)
    ensures Replay(initial, events).Ok? <==> TakesAll(initial, events)
    decreases |events|
  {
    if events != [] {
      var init, ev := events[..|events| - 1], events[|events| - 1];
      InitAndLast(events);
      ReplayAppend(initial, init, ev);
      hide Replay, TakesAll, ApplyTo, BySymbol;
      ReplaysIff(initial, init);
      if TakesAll(initial, events) {
        TookBefore(initial, init, ev);
      }
      if Replay(initial, init).Ok? {
        ReplayBySymbol(initial, init);
        TakesMore(initial, init, ev, Replay(initial, init).value);
      }
    }
  }

  // ---- Cash accounts of the selected symbols

  function Items(events: seq<PnlEvent>): (r: seq<HistoryItem>)
    ensures |r| == |events| && forall i :: 0 <= i < |r| ==> r[i] == Event(events[i])
  {
    seq(|events|, i requires 0 <= i < |events| => Event(events[i]))
  }

  lemma HistoryAppend(kind: Measure, history: seq<HistoryItem>, ev: PnlEvent)
    ensures LedgerOf(kind, history + [Event(ev)])
            == if LedgerOf(kind, history).Err? then LedgerOf(kind, history)
               else ApplyEvent(LedgerOf(kind, history).value, ev)
  {
    assert (history + [Event(ev)])[..|history|] == history;
    hide ApplyEvent;
  }

  lemma ItemsAppend(history: seq<HistoryItem>, events: seq<PnlEvent>, ev: PnlEvent)
    ensures history + Items(events + [ev]) == history + Items(events) + [Event(ev)]
  {}

  lemma NoItems(history: seq<HistoryItem>)
    ensures history + Items([]) == history
  {}

  /** Going on from a history is the longer history. */
  lemma {:induction false} FoldIsHistory(kind: Measure, history: seq<HistoryItem>, events: seq<PnlEvent>)
    requires LedgerOf(kind, history).Ok?
    ensures LedgerOf(kind, history + Items(events)) == Fold(LedgerOf(kind, history).value, events)
    decreases |events|
  {
    if events == [] {
      NoItems(history);
    } else {
      var init, ev := events[..|events| - 1], events[|events| - 1];
      InitAndLast(events);
      hide *;
      FoldIsHistory(kind, history, init);
      ItemsAppend(history, init, ev);
      HistoryAppend(kind, history + Items(init), ev);
      FoldAppend(LedgerOf(kind, history).value, init, ev);
    }
  }

  /** What a cash account comes to at its last price. */
  function Balance(c: Cash): real {
    c.net * (if c.mark.Some? then c.mark.value else 0.0) - c.spent - c.fees + c.funding - c.interest
  }

  function BalanceOf(): Cash -> real { (c: Cash) => Balance(c) }

  /** Each symbol starts from a history of its own. */
  ghost predicate StartsFrom(initial: States, histories: map<string, seq<HistoryItem>>) {
    initial.Keys == histories.Keys
    && forall s :: s in initial ==> LedgerOf(Absolute, histories[s]) == Ok(initial[s])
  }

  /** The cash accounts once each symbol has seen its own events. */
  function Accounts(histories: map<string, seq<HistoryItem>>, events: seq<PnlEvent>): map<string, Cash> {
    map s | s in histories :: CashOf(histories[s] + Items(EventsOf(events, s)))
  }

  lemma HistoryTotal(history: seq<HistoryItem>)
    requires LedgerOf(Absolute, history).Ok?
    ensures TotalPnl(LedgerOf(Absolute, history).value) == Balance(CashOf(history))
  {
    TotalIsCash(history);
    hide LedgerOf, CashOf, TotalPnl;
  }

  lemma SymbolTotal(
    initial: States, histories: map<string, seq<HistoryItem>>, events: seq<PnlEvent>, states: States, s: string)
    requires StartsFrom(initial, histories) && BySymbol(initial, events, states) && s in initial
    ensures TotalPnl(states[s]) == Balance(Accounts(histories, events)[s])
  {
    assert LedgerOf(Absolute, histories[s]) == Ok(initial[s]) && Fold(initial[s], EventsOf(events, s)) == Ok(states[s]);
    FoldIsHistory(Absolute, histories[s], EventsOf(events, s));
    HistoryTotal(histories[s] + Items(EventsOf(events, s)));
    hide Fold, LedgerOf, CashOf, TotalPnl, Balance, Items, EventsOf;
  }

  lemma {:induction false} SumsAgree(states: States, accounts: map<string, Cash>, keys: set<string>)
    requires keys <= states.Keys && keys <= accounts.Keys
    requires forall s :: s in keys ==> TotalPnl(states[s]) == Balance(accounts[s])
    ensures SumKeys(states, keys, PnlSweep.Total()) == SumKeys(accounts, keys, BalanceOf())
    decreases |keys|
  {
    if keys != {} {
      var s :| s in keys;
      SumSplit(states, keys, PnlSweep.Total(), s);
      SumSplit(accounts, keys, BalanceOf(), s);
      hide SumKeys, TotalPnl, Balance;
      SumsAgree(states, accounts, keys - {s});
    }
  }

  /**
   The selected total after a replay is the sum of the cash accounts of the selected symbols, each over its own history
   and its own events.
   */
  lemma SelectedIsCash(
    initial: States, histories: map<string, seq<HistoryItem>>, events: seq<PnlEvent>, selected: set<string>)
    requires StartsFrom(initial, histories) && Replay(initial, events).Ok? && selected <= initial.Keys
    ensures selected <= Replay(initial, events).value.Keys
    ensures SelectedPnl(Replay(initial, events).value, selected)
            == SumKeys(Accounts(histories, events), selected, BalanceOf())
  {
    ReplayBySymbol(initial, events);
    var states := Replay(initial, events).value;
    assert states.Keys == initial.Keys == histories.Keys;
    forall s | s in selected ensures TotalPnl(states[s]) == Balance(Accounts(histories, events)[s]) {
      SymbolTotal(initial, histories, events, states, s);
    }
    hide Replay, BySymbol, StartsFrom, TotalPnl, Balance, SumKeys;
    SumsAgree(states, Accounts(histories, events), selected);
  }

  /** So is what the sweep records at a boundary, and with it what a rolling window reports. */
  lemma ReplayedIsCash(
    initial: States, histories: map<string, seq<HistoryItem>>, events: seq<PnlEvent>, selected: set<string>, t: int)
    requires StartsFrom(initial, histories) && selected <= initial.Keys && Replay(initial, UpTo(events, t)).Ok?
    ensures ReplayedPnl(initial, events, selected, t)
            == Some(SumKeys(Accounts(histories, UpTo(events, t)), selected, BalanceOf()))
  {
    SelectedIsCash(initial, histories, UpTo(events, t), selected);
    hide StartsFrom, Replay, UpTo, SelectedPnl, SumKeys, Accounts;
  }

  // ---- What a window's events add

  /** Figures that only grow by what each event brings. */
  datatype Flow = Volumes | FundingAmounts | InterestCosts | Fees | TradeCounts | MissingFees | MissingCosts

  /** What one event brings. */
  function Brings(f: Flow, ev: PnlEvent): real {
    match f
    case Volumes => if ev.TradeEvent? then ev.trade.amountU else 0.0
    case FundingAmounts => if ev.FundingEvent? then ev.funding.amountUsdt else 0.0
    case InterestCosts => if ev.InterestEvent? && ev.interest.costUsdt.Some? then ev.interest.costUsdt.value else 0.0
    case Fees => if ev.TradeEvent? && ev.trade.feeUsdt.Some? then ev.trade.feeUsdt.value else 0.0
    case TradeCounts => if ev.TradeEvent? then 1.0 else 0.0
    case MissingFees => if ev.TradeEvent? && ev.trade.feeUsdt.None? then 1.0 else 0.0
    case MissingCosts => if ev.InterestEvent? && ev.interest.costUsdt.None? then 1.0 else 0.0
  }

  /** The figure in a summary. */
  function Figure(f: Flow, m: Metrics): real {
    match f
    case Volumes => m.volume
    case FundingAmounts => m.funding
    case InterestCosts => m.interest
    case Fees => m.tradingFee
    case TradeCounts => m.tradeCount as real
    case MissingFees => m.unconvertedFees as real
    case MissingCosts => m.unconvertedInterest as real
  }

  predicate Counts(f: Flow) { f.TradeCounts? || f.MissingFees? || f.MissingCosts? }

  function Brought(f: Flow, events: seq<PnlEvent>): real
    decreases |events|
  {
    if events == [] then 0.0 else Brought(f, events[..|events| - 1]) + Brings(f, events[|events| - 1])
  }

  lemma BroughtAppend(f: Flow, events: seq<PnlEvent>, ev: PnlEvent)
    ensures Brought(f, events + [ev]) == Brought(f, events) + Brings(f, ev)
  {
    assert (events + [ev])[..|events|] == events;
  }

  lemma FreshMetrics(l: Ledger)
    requires SnapshotsFresh(l)
    ensures MetricsOf(l).tradingFee == l.spot.fees + l.futures.fees
    ensures MetricsOf(l).feeBefore == l.spot.gross + l.futures.gross
    ensures MetricsOf(l).feeAfter == l.spot.gross + l.futures.gross - (l.spot.fees + l.futures.fees)
    ensures var m := MetricsOf(l); m.total == m.feeAfter + m.floating + m.funding - m.interest
  {
    hide Floating;
  }

  /**
   The figures of a symbol: realized PnL and fees of both venues, what the units open in both have earned at the last
   price, and the total of all that with funding and without interest.
   */
  lemma MetricsAre(l: Ledger, mark: real)
    requires SnapshotsFresh(l) && l.mark == Some(mark) && FifoOk(l.spot) && FifoOk(l.futures)
    ensures var m := MetricsOf(l);
            && m.feeBefore == l.spot.gross + l.futures.gross && m.tradingFee == l.spot.fees + l.futures.fees
            && m.feeAfter == m.feeBefore - m.tradingFee
            && m.floating == FloatingPnl(l.kind, l.spot, mark, mark) + FloatingPnl(l.kind, l.futures, mark, mark)
            && m.funding == l.fundingPnl && m.interest == l.interestCost
            && m.total == m.feeAfter + m.floating + m.funding - m.interest
  {
    FreshMetrics(l);
    SnapshotEarns(l.kind, l.spot, mark, mark);
    SnapshotEarns(l.kind, l.futures, mark, mark);
    hide FloatingPnl, Venue, Shows, Snapshot, FifoOk;
  }

  /** The figure in the ledger itself. */
  function Stands(f: Flow, l: Ledger): real {
    match f
    case Volumes => l.volume
    case FundingAmounts => l.fundingPnl
    case InterestCosts => l.interestCost
    case Fees => l.spot.fees + l.futures.fees
    case TradeCounts => l.tradeCount as real
    case MissingFees => l.unconvertedFees as real
    case MissingCosts => l.unconvertedInterest as real
  }

  lemma ShownAsStands(l: Ledger, f: Flow)
    requires SnapshotsFresh(l)
    ensures Figure(f, MetricsOf(l)) == Stands(f, l)
  {
    FreshMetrics(l);
    hide SnapshotsFresh;
  }

  lemma FillFees(k: Measure, s: Fifo, f: Fill)
    ensures ApplyFill(k, s, f).fees == s.fees + f.fee
  {}

  lemma TradeStands(l: Ledger, t: Trade, f: Flow)
    requires ApplyTrade(l, t).Ok?
    ensures Stands(f, ApplyTrade(l, t).value) == Stands(f, l) + Brings(f, TradeEvent(t))
  {
    var fill := Fill(t.side, t.price, if l.kind == Relative then t.amountU else t.quantity, FeeOf(t));
    FillFees(l.kind, if t.leg == SpotLeg then l.spot else l.futures, fill);
    hide ApplyFill, Venue;
  }

  lemma InterestStands(l: Ledger, i: Interest, f: Flow)
    requires ApplyInterest(l, i).Ok?
    ensures Stands(f, ApplyInterest(l, i).value) == Stands(f, l) + Brings(f, InterestEvent(i))
  {
    var delta := i.spotQuantityDelta;
    if delta != 0.0 && ConversionPrice(l.mark, i).Some? {
      FillFees(l.kind, l.spot, Fill(SideOf(delta), ConversionPrice(l.mark, i).value, Abs(delta), 0.0));
    }
    hide ApplyFill, Venue, ConversionPrice;
  }

  lemma EventKeepsFresh(l: Ledger, ev: PnlEvent)
    requires SnapshotsFresh(l) && ApplyEvent(l, ev).Ok?
    ensures SnapshotsFresh(ApplyEvent(l, ev).value)
  {
    hide ApplyFill, Venue, ConversionPrice;
  }

  lemma EventStands(l: Ledger, ev: PnlEvent, f: Flow)
    requires ApplyEvent(l, ev).Ok?
    ensures Stands(f, ApplyEvent(l, ev).value) == Stands(f, l) + Brings(f, ev)
  {
    match ev {
      case TradeEvent(t) => TradeStands(l, t, f);
      case FundingEvent(_) =>
      case InterestEvent(i) => InterestStands(l, i, f);
    }
    hide ApplyTrade, ApplyInterest;
  }

  lemma EventBrings(l: Ledger, ev: PnlEvent, f: Flow)
    requires SnapshotsFresh(l) && ApplyEvent(l, ev).Ok?
    ensures var r := ApplyEvent(l, ev).value;
            SnapshotsFresh(r) && Figure(f, MetricsOf(r)) == Figure(f, MetricsOf(l)) + Brings(f, ev)
  {
    hide *;
    EventKeepsFresh(l, ev);
    EventStands(l, ev, f);
    ShownAsStands(l, f);
    ShownAsStands(ApplyEvent(l, ev).value, f);
  }

  lemma {:induction false} FoldBrings(l: Ledger, events: seq<PnlEvent>, f: Flow)
    requires SnapshotsFresh(l) && Fold(l, events).Ok?
    ensures var r := Fold(l, events).value;
            SnapshotsFresh(r) && Figure(f, MetricsOf(r)) == Figure(f, MetricsOf(l)) + Brought(f, events)
    decreases |events|
  {
    if events != [] {
      var init, ev := events[..|events| - 1], events[|events| - 1];
      hide SnapshotsFresh, ApplyEvent, MetricsOf, Figure, Brings;
      FoldBrings(l, init, f);
      EventBrings(Fold(l, init).value, ev, f);
    }
  }

  /** The events of one symbol inside a window, both ends included. */
  function Inside(events: seq<PnlEvent>, startMs: int, endMs: int, symbol: string): seq<PnlEvent>
    decreases |events|
  {
    if events == [] then [] else
      var ev := events[|events| - 1];
      Inside(events[..|events| - 1], startMs, endMs, symbol)
      + (if ev.Symbol() == symbol && startMs <= ev.Ts() <= endMs then [ev] else [])
  }

  /** What one more event brings up to some time, and inside a window. */
  lemma BroughtUpTo(events: seq<PnlEvent>, ev: PnlEvent, t: int, symbol: string, f: Flow)
    ensures Brought(f, EventsOf(UpTo(events + [ev], t), symbol))
            == Brought(f, EventsOf(UpTo(events, t), symbol))
               + (if ev.Symbol() == symbol && ev.Ts() <= t then Brings(f, ev) else 0.0)
  {
    assert (events + [ev])[..|events|] == events;
    assert UpTo(events + [ev], t) == UpTo(events, t) + (if ev.Ts() <= t then [ev] else []);
    hide UpTo, Brings;
    if ev.Ts() <= t {
      EventsOfAppend(UpTo(events, t), ev, symbol);
      BroughtAppend(f, EventsOf(UpTo(events, t), symbol), ev);
    } else {
      assert UpTo(events, t) + [] == UpTo(events, t);
    }
  }

  lemma BroughtInsideMore(
    events: seq<PnlEvent>, ev: PnlEvent, startMs: int, endMs: int, symbol: string, f: Flow)
    ensures Brought(f, Inside(events + [ev], startMs, endMs, symbol))
            == Brought(f, Inside(events, startMs, endMs, symbol))
               + (if ev.Symbol() == symbol && startMs <= ev.Ts() <= endMs then Brings(f, ev) else 0.0)
  {
    var inside := Inside(events, startMs, endMs, symbol);
    assert (events + [ev])[..|events|] == events;
    BroughtAppend(f, inside, ev);
    assert inside + [] == inside;
    hide Brings, Brought;
  }

  /** What comes up to the end of a window came before it or inside it. */
  lemma {:induction false} BroughtInside(
    events: seq<PnlEvent>, startMs: int, endMs: int, symbol: string, f: Flow)
    requires startMs <= endMs
    ensures Brought(f, EventsOf(UpTo(events, endMs), symbol))
            == Brought(f, EventsOf(UpTo(events, startMs - 1), symbol))
               + Brought(f, Inside(events, startMs, endMs, symbol))
    decreases |events|
  {
    if events != [] {
      var init, ev := events[..|events| - 1], events[|events| - 1];
      InitAndLast(events);
      hide *;
      BroughtInside(init, startMs, endMs, symbol, f);
      BroughtUpTo(init, ev, endMs, symbol, f);
      BroughtUpTo(init, ev, startMs - 1, symbol, f);
      BroughtInsideMore(init, ev, startMs, endMs, symbol, f);
    }
  }

  lemma FigureAt(initial: States, events: seq<PnlEvent>, t: int, symbol: string, f: Flow)
    requires Replayable(initial, events, t, symbol) && SnapshotsFresh(initial[symbol])
    ensures Figure(f, At(initial, events, t, symbol))
            == Figure(f, MetricsOf(initial[symbol])) + Brought(f, EventsOf(UpTo(events, t), symbol))
  {
    var own := UpTo(events, t);
    ReplayBySymbol(initial, own);
    FoldBrings(initial[symbol], EventsOf(own, symbol), f);
    hide SnapshotsFresh, MetricsOf, Figure, Brought, EventsOf, Replay, Fold, UpTo;
  }

  lemma FigureDifference(f: Flow, m: Metrics, base: Metrics)
    requires CountsUp(base, m)
    ensures Figure(f, Difference(m, base))
            == if Counts(f) then Figure(f, m) - Figure(f, base) else CleanZero(Figure(f, m) - Figure(f, base))
  {
    hide CleanZero;
  }

  /**
   The summary of a symbol over a window shows what the events of that symbol inside the window bring: traded volume,
   funding, interest cost and fees, cleaned, and how many trades, unconverted fees and unconverted costs there were.
   */
  lemma WindowBrings(
    initial: States, events: seq<PnlEvent>, startMs: int, endMs: int, symbol: string, f: Flow)
    requires ByTime(events) && startMs <= endMs
    requires Replayable(initial, events, endMs, symbol) && SnapshotsFresh(initial[symbol])
    ensures var brought := Brought(f, Inside(events, startMs, endMs, symbol));
            Figure(f, Window(initial, events, startMs, endMs, symbol))
            == if Counts(f) then brought else CleanZero(brought)
  {
    hide SnapshotsFresh, Figure, Brought, EventsOf, UpTo, Inside, At, Replayable, CountsUp, CleanZero, Difference;
    ReplayableEarlier(initial, events, startMs - 1, endMs, symbol);
    FigureAt(initial, events, endMs, symbol, f);
    FigureAt(initial, events, startMs - 1, symbol, f);
    BroughtInside(events, startMs, endMs, symbol, f);
    FigureDifference(f, At(initial, events, endMs, symbol), At(initial, events, startMs - 1, symbol));
  }

  lemma TotalAt(
    initial: States, histories: map<string, seq<HistoryItem>>, events: seq<PnlEvent>, t: int, symbol: string)
    requires StartsFrom(initial, histories) && Replayable(initial, events, t, symbol)
    ensures symbol in Accounts(histories, UpTo(events, t))
    ensures At(initial, events, t, symbol).total == Balance(Accounts(histories, UpTo(events, t))[symbol])
  {
    var own := UpTo(events, t);
    ReplayBySymbol(initial, own);
    assert symbol in histories;
    SymbolTotal(initial, histories, own, Replay(initial, own).value, symbol);
    hide StartsFrom, Replay, UpTo, Balance, TotalPnl, Accounts;
  }

  /** The total of a window is what its events added to the cash account of the symbol. */
  lemma WindowTotalIsCash(
    initial: States, histories: map<string, seq<HistoryItem>>, events: seq<PnlEvent>,
    startMs: int, endMs: int, symbol: string)
    requires ByTime(events) && startMs <= endMs && StartsFrom(initial, histories)
    requires Replayable(initial, events, endMs, symbol)
    ensures var before := Accounts(histories, UpTo(events, startMs - 1));
            var after := Accounts(histories, UpTo(events, endMs));
            && symbol in before && symbol in after
            && Window(initial, events, startMs, endMs, symbol).total
               == CleanZero(Balance(after[symbol]) - Balance(before[symbol]))
  {
    hide StartsFrom, Replayable, UpTo, Balance, CleanZero, Accounts, ByTime, CountsUp, At;
    ReplayableEarlier(initial, events, startMs - 1, endMs, symbol);
    TotalAt(initial, histories, events, endMs, symbol);
    TotalAt(initial, histories, events, startMs - 1, symbol);
  }
}
