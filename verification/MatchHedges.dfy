/**
 Hedge metadata does not depend on arrival order: whether an order comes before, between or after the hedges
 that name it, it ends up showing its earliest hedge, its latest fill and the number of its hedge orders.
 */
module MatchHedges {
  import opened Prelude
  import opened StableSorting
  import opened MatchBook
  import opened MatchRun
  import opened MatchReachable

  /** A hedge order seen for `fkey`, from history or from an event. */
  datatype Sighting = Sighting(fkey: int, timing: HedgeTiming, fill: Option<int>)

  function SightingsIn(events: seq<MatchEvent>): set<Sighting> {
    set ev | ev in events && ev.Futures? && ev.futures.mainFkey.Some?
      :: Sighting(ev.futures.mainFkey.value, TimingOf(ev.futures), ev.futures.fillTs)
  }

  function HistorySightings(history: seq<HedgeHistory>): set<Sighting> {
    set h | h in history :: Sighting(h.mainFkey, h.firstOrder, h.lastFillTs)
  }

  /** The distinct hedge order ids seen for `fkey`. */
  function IdsOf(seen: set<Sighting>, fkey: int): set<int> {
    set s | s in seen && s.fkey == fkey :: s.timing.clientOrderId
  }

  /** `shown` are the timestamps of the least hedge by sort key, or nothing when there was no hedge. */
  ghost predicate ShowsFirst(shown: HedgeInfo, seen: set<Sighting>, fkey: int) {
    if forall s :: s in seen ==> s.fkey != fkey
    then shown.hts.None? && shown.newTs.None? && shown.terminalTs.None?
    else exists first :: first in seen && first.fkey == fkey
           && (forall s :: s in seen && s.fkey == fkey ==> KeyLe(TimingKey(first.timing), TimingKey(s.timing)))
           && shown.hts == Some(first.timing.createTs)
           && shown.newTs == first.timing.newTs && shown.terminalTs == first.timing.terminalTs
  }

  /** `shown` is the latest fill time, or nothing when no hedge filled. */
  ghost predicate ShowsLastFill(shown: HedgeInfo, seen: set<Sighting>, fkey: int) {
    match shown.fts
    case None => forall s :: s in seen && s.fkey == fkey ==> s.fill.None?
    case Some(t) =>
      && (exists s :: s in seen && s.fkey == fkey && s.fill == Some(t))
      && (forall s :: s in seen && s.fkey == fkey && s.fill.Some? ==> s.fill.value <= t)
  }

  // ---- The log against the sightings

  ghost predicate FirstOk(log: HedgeLog, seen: set<Sighting>, f: int) {
    if f in log.first
    then (exists s :: s in seen && s.fkey == f && s.timing == log.first[f])
         && (forall s :: s in seen && s.fkey == f ==> KeyLe(TimingKey(log.first[f]), TimingKey(s.timing)))
    else forall s :: s in seen ==> s.fkey != f
  }

  ghost predicate FillOk(log: HedgeLog, seen: set<Sighting>, f: int) {
    if f in log.lastFill
    then (exists s :: s in seen && s.fkey == f && s.fill == Some(log.lastFill[f]))
         && (forall s :: s in seen && s.fkey == f && s.fill.Some? ==> s.fill.value <= log.lastFill[f])
    else forall s :: s in seen && s.fkey == f ==> s.fill.None?
  }

  function Shown(log: HedgeLog, f: int): HedgeInfo {
    var i := if f in log.first then ShowTiming(NO_HEDGE, log.first[f]) else NO_HEDGE;
    i.(fts := FillOf(log, f))
  }

  ghost predicate ShowsLog(e: Engine, f: int) {
    f in e.book.orders && e.book.orders[f].hedge.(closeCount := 0) == Shown(e.log, f)
  }

  ghost predicate LogOk(e: Engine, seen: set<Sighting>) {
    && (forall f: int :: FirstOk(e.log, seen, f))
    && (forall f: int :: FillOk(e.log, seen, f))
    && (forall f :: f in e.book.orders ==> ShowsLog(e, f))
  }

  /** The hedge order ids seen, each with the order it names. */
  function PairsOf(seen: set<Sighting>): set<(int, int)> {
    set s | s in seen :: (s.fkey, s.timing.clientOrderId)
  }

  /** Without seeded history the counts are those of the distinct ids seen. */
  ghost predicate CountOk(e: Engine, seen: set<Sighting>) {
    && e.log.seen == PairsOf(seen)
    && (forall f: int :: CountOf(e.log, f) == |IdsOf(seen, f)|)
    && (forall f :: f in e.book.orders ==> e.book.orders[f].hedge.closeCount == CountOf(e.log, f))
  }

  ghost predicate KeepsHedges(b: Book, r: Book) {
    b.orders.Keys <= r.orders.Keys && forall f :: f in b.orders ==> r.orders[f].hedge == b.orders[f].hedge
  }

  lemma {:induction false} NetLoopKeepsHedges(b: Book, fkey: int, k: QueueKey)
    requires CanNet(b, fkey, k)
    ensures KeepsHedges(b, NetLoop(b, fkey, k))
    decreases |Queue(b, k)|, b.orders[fkey].remaining > b.epsilon
  {
    if Queue(b, k) != [] && b.orders[fkey].remaining > b.epsilon {
      assert KeepsHedges(b, NetStep(b, fkey, k));
      NetLoopKeepsHedges(NetStep(b, fkey, k), fkey, k);
    }
  }

  lemma {:induction false} HedgeLoopKeepsHedges(h: Hedging, f: FuturesOrder, k: QueueKey)
    requires CanHedge(h.book, k)
    ensures KeepsHedges(h.book, HedgeLoop(h, f, k).book)
    decreases |Queue(h.book, k)|, h.left > h.book.epsilon
  {
    if h.left > h.book.epsilon && Queue(h.book, k) != [] {
      assert KeepsHedges(h.book, HedgeStep(h, f, k).book);
      HedgeLoopKeepsHedges(HedgeStep(h, f, k), f, k);
    }
  }

  lemma AddMarginKeepsHedges(b: Book, o: MarginOrder)
    requires Linked(b) && !RejectsMargin(b, o)
    ensures KeepsHedges(b, AddMargin(b, o)) && AddMargin(b, o).orders[o.fkey].hedge == o.hedge
  {
    var b1 := b.(orders := b.orders[o.fkey := Fresh(o)]);
    var k := (o.symbol, o.side.Opposite());
    assert Queue(b1, k) == Queue(b, k);
    NetLoopKeepsHedges(b1, o.fkey, k);
    assert forall f :: f in b.orders ==> b1.orders[f] == b.orders[f];
  }

  lemma FirstStep(first: map<int, HedgeTiming>, e: Engine, seen: set<Sighting>, s: Sighting)
    requires forall f: int :: FirstOk(e.log, seen, f)
    requires first == RecordTiming(e, s.fkey, s.timing).log.first
    ensures forall f: int :: FirstOk(e.log.(first := first), seen + {s}, f)
  {
    var log := e.log.(first := first);
    forall f: int ensures FirstOk(log, seen + {s}, f) {
      assert FirstOk(e.log, seen, f);
      assert s in seen + {s};
      if f in first && first[f] != s.timing {
        var x :| x in seen && x.fkey == f && x.timing == first[f];
        assert x in seen + {s};
      }
    }
  }

  lemma FillStep(log: HedgeLog, seen: set<Sighting>, s: Sighting)
    requires forall f: int :: FillOk(log, seen, f)
    ensures forall f: int :: FillOk(log.(lastFill := LaterFill(log.lastFill, s.fkey, s.fill)), seen + {s}, f)
  {
    var after := log.(lastFill := LaterFill(log.lastFill, s.fkey, s.fill));
    forall f: int ensures FillOk(after, seen + {s}, f) {
      assert FillOk(log, seen, f);
      assert s in seen + {s};
      if f in log.lastFill {
        var x :| x in seen && x.fkey == f && x.fill == Some(log.lastFill[f]);
        assert x in seen + {s};
      }
    }
  }

  lemma FirstAndFillStep(e: Engine, log: HedgeLog, seen: set<Sighting>, s: Sighting)
    requires forall f: int :: FirstOk(e.log, seen, f)
    requires forall f: int :: FillOk(e.log, seen, f)
    requires log.first == RecordTiming(e, s.fkey, s.timing).log.first
    requires log.lastFill == LaterFill(e.log.lastFill, s.fkey, s.fill)
    ensures forall f: int :: FirstOk(log, seen + {s}, f) && FillOk(log, seen + {s}, f)
  {
    FirstStep(log.first, e, seen, s);
    FillStep(e.log, seen, s);
    forall f: int ensures FirstOk(log, seen + {s}, f) && FillOk(log, seen + {s}, f) {
      assert FirstOk(e.log.(first := log.first), seen + {s}, f);
      assert FillOk(e.log.(lastFill := log.lastFill), seen + {s}, f);
    }
  }

  lemma RecordHedgeLogs(e: Engine, seen: set<Sighting>, f: FuturesOrder, fkey: int)
    requires LogOk(e, seen)
    ensures LogOk(RecordHedge(e, fkey, f), seen + {Sighting(fkey, TimingOf(f), f.fillTs)})
  {
    FirstAndFillStep(e, RecordHedge(e, fkey, f).log, seen, Sighting(fkey, TimingOf(f), f.fillTs));
    hide FirstOk, FillOk, TimingOf, KeyLe, TimingKey;
    assert forall g :: g in RecordHedge(e, fkey, f).book.orders ==> ShowsLog(e, g);
  }

  lemma SeedOneLogs(e: Engine, seen: set<Sighting>, h: HedgeHistory)
    requires LogOk(e, seen)
    ensures LogOk(SeedOne(e, h), seen + {Sighting(h.mainFkey, h.firstOrder, h.lastFillTs)})
  {
    FirstAndFillStep(e, SeedOne(e, h).log, seen, Sighting(h.mainFkey, h.firstOrder, h.lastFillTs));
    hide FirstOk, FillOk, KeyLe, TimingKey;
    assert forall g :: g in SeedOne(e, h).book.orders ==> ShowsLog(e, g);
  }

  lemma IdsOfNew(seen: set<Sighting>, s: Sighting, g: int)
    ensures IdsOf(seen + {s}, g) == if g == s.fkey then IdsOf(seen, g) + {s.timing.clientOrderId} else IdsOf(seen, g)
  {
    var after := IdsOf(seen + {s}, g);
    forall id | id in IdsOf(seen, g) ensures id in after {
      var x :| x in seen && x.fkey == g && x.timing.clientOrderId == id;
      assert x in seen + {s};
    }
    if g == s.fkey {
      assert s in seen + {s};
    }
  }

  lemma SeenIds(e: Engine, seen: set<Sighting>, fkey: int, id: int)
    requires CountOk(e, seen)
    ensures (fkey, id) in e.log.seen <==> id in IdsOf(seen, fkey)
  {
    if (fkey, id) in e.log.seen {
      var s :| s in seen && (s.fkey, s.timing.clientOrderId) == (fkey, id);
      assert s.timing.clientOrderId in IdsOf(seen, fkey);
    }
  }

  lemma PairsOfNew(seen: set<Sighting>, s: Sighting)
    ensures PairsOf(seen + {s}) == PairsOf(seen) + {(s.fkey, s.timing.clientOrderId)}
  {
    var after := PairsOf(seen + {s});
    assert s in seen + {s};
    forall p | p in PairsOf(seen) ensures p in after {
      var x :| x in seen && p == (x.fkey, x.timing.clientOrderId);
      assert x in seen + {s};
    }
  }

  lemma RecordHedgeLog(e: Engine, f: FuturesOrder, fkey: int)
    ensures var log := RecordHedge(e, fkey, f).log;
            && log.seen == e.log.seen + {(fkey, f.clientOrderId)}
            && forall g: int :: CountOf(log, g) == CountOf(e.log, g)
                 + if g == fkey && (fkey, f.clientOrderId) !in e.log.seen then 1 else 0
  {
    hide ShowTiming, TimingOf, KeyLe, TimingKey;
  }

  lemma RecordHedgeShows(e: Engine, f: FuturesOrder, fkey: int, g: int)
    requires g in e.book.orders && e.book.orders[g].hedge.closeCount == CountOf(e.log, g)
    ensures var r := RecordHedge(e, fkey, f);
            g in r.book.orders && r.book.orders[g].hedge.closeCount == CountOf(r.log, g)
  {
    hide TimingOf, KeyLe, TimingKey;
  }

  lemma OneMoreId(ids: set<int>, id: int)
    ensures |ids + {id}| == |ids| + (if id in ids then 0 else 1)
  {
    assert id in ids ==> ids + {id} == ids;
  }

  /** The number of ids seen for one order grows as its count does. */
  lemma CountStep(e: Engine, seen: set<Sighting>, s: Sighting, g: int)
    requires CountOk(e, seen)
    ensures |IdsOf(seen + {s}, g)|
            == CountOf(e.log, g)
               + (if g == s.fkey && (s.fkey, s.timing.clientOrderId) !in e.log.seen then 1 else 0)
  {
    SeenIds(e, seen, s.fkey, s.timing.clientOrderId);
    assert CountOf(e.log, g) == |IdsOf(seen, g)|;
    hide CountOk, IdsOf, CountOf, PairsOf;
    IdsOfNew(seen, s, g);
    OneMoreId(IdsOf(seen, s.fkey), s.timing.clientOrderId);
  }

  /** Orders keep showing their counts. */
  lemma CountsShown(e: Engine, f: FuturesOrder, fkey: int)
    requires forall g :: g in e.book.orders ==> e.book.orders[g].hedge.closeCount == CountOf(e.log, g)
    ensures var r := RecordHedge(e, fkey, f);
            forall g :: g in r.book.orders ==> r.book.orders[g].hedge.closeCount == CountOf(r.log, g)
  {
    var r := RecordHedge(e, fkey, f);
    assert r.book.orders.Keys == e.book.orders.Keys;
    hide RecordHedge, CountOf;
    forall g | g in r.book.orders ensures r.book.orders[g].hedge.closeCount == CountOf(r.log, g) {
      assert g in e.book.orders;
      RecordHedgeShows(e, f, fkey, g);
    }
  }

  lemma RecordHedgeCounts(e: Engine, seen: set<Sighting>, f: FuturesOrder, fkey: int)
    requires CountOk(e, seen)
    ensures CountOk(RecordHedge(e, fkey, f), seen + {Sighting(fkey, TimingOf(f), f.fillTs)})
  {
    var s := Sighting(fkey, TimingOf(f), f.fillTs);
    var r := RecordHedge(e, fkey, f);
    assert s.timing.clientOrderId == f.clientOrderId;
    hide RecordHedge, CountOf, PairsOf, IdsOf, TimingOf;
    RecordHedgeLog(e, f, fkey);
    PairsOfNew(seen, s);
    CountsShown(e, f, fkey);
    forall g: int ensures CountOf(r.log, g) == |IdsOf(seen + {s}, g)| {
      CountStep(e, seen, s, g);
    }
  }

  /** Incoming margin orders know nothing of their hedges yet. */
  predicate UnhedgedEvent(ev: MatchEvent) { ev.Margin? ==> ev.margin.hedge == NO_HEDGE }

  lemma StepMarginLogs(e: Engine, seen: set<Sighting>, o: MarginOrder)
    requires Linked(e.book) && o.hedge == NO_HEDGE && LogOk(e, seen)
    requires !RejectsMargin(e.book, WithKnownHedges(e.log, o))
    ensures var r := Engine(AddMargin(e.book, WithKnownHedges(e.log, o)), e.log);
            LogOk(r, seen) && (CountOk(e, seen) ==> CountOk(r, seen))
  {
    var o1 := WithKnownHedges(e.log, o);
    AddMarginKeepsHedges(e.book, o1);
    hide AddMargin, FirstOk, FillOk, PairsOf, IdsOf;
    var r := Engine(AddMargin(e.book, o1), e.log);
    forall f | f in r.book.orders ensures ShowsLog(r, f) {
      assert f != o.fkey ==> ShowsLog(e, f);
    }
  }

  lemma AddFuturesKeepsHedges(b: Book, f: FuturesOrder)
    requires Linked(b)
    ensures KeepsHedges(b, AddFutures(b, f).0)
  {
    HedgeLoopKeepsHedges(HedgeStart(b, f), f, (f.symbol, f.side.Opposite()));
  }

  /** Matching amounts leaves the shown hedges alone. */
  lemma KeepingHedgesLogs(e: Engine, r: Engine, seen: set<Sighting>)
    requires LogOk(e, seen) && KeepsHedges(e.book, r.book)
    requires r.log == e.log && r.book.orders.Keys == e.book.orders.Keys
    ensures LogOk(r, seen) && (CountOk(e, seen) ==> CountOk(r, seen))
  {
    hide FirstOk, FillOk, PairsOf, IdsOf;
    forall f | f in r.book.orders ensures ShowsLog(r, f) {
      assert ShowsLog(e, f);
    }
  }

  lemma LoggedLogs(e: Engine, seen: set<Sighting>, f: FuturesOrder)
    requires LogOk(e, seen)
    ensures LogOk(Logged(e, f), seen + SightingsIn([Futures(f)]))
    ensures CountOk(e, seen) ==> CountOk(Logged(e, f), seen + SightingsIn([Futures(f)]))
  {
    SightingsInOne(Futures(f));
    if f.mainFkey.Some? {
      RecordHedgeLogs(e, seen, f, f.mainFkey.value);
      if CountOk(e, seen) {
        RecordHedgeCounts(e, seen, f, f.mainFkey.value);
      }
    } else {
      assert seen + SightingsIn([Futures(f)]) == seen;
    }
  }

  lemma SightingsInOne(ev: MatchEvent)
    ensures SightingsIn([ev]) == if ev.Futures? && ev.futures.mainFkey.Some?
              then {Sighting(ev.futures.mainFkey.value, TimingOf(ev.futures), ev.futures.fillTs)} else {}
  {
    assert ev in [ev];
  }

  lemma StepLogs(p: Progress, seen: set<Sighting>, ev: MatchEvent)
    requires Linked(p.engine.book) && UnhedgedEvent(ev) && LogOk(p.engine, seen)
    requires p.error.None? && Step(p, ev).error.None?
    ensures LogOk(Step(p, ev).engine, seen + SightingsIn([ev]))
    ensures CountOk(p.engine, seen) ==> CountOk(Step(p, ev).engine, seen + SightingsIn([ev]))
  {
    var e := p.engine;
    hide LogOk, CountOk, AddMargin, AddFutures, Logged, SightingsIn;
    match ev
    case Margin(o) =>
      SightingsInOne(ev);
      assert seen + SightingsIn([ev]) == seen;
      StepMarginLogs(e, seen, o);
    case Futures(f) =>
      LoggedLogs(e, seen, f);
      SameQueuesLinked(e.book, Logged(e, f).book);
      AddFuturesKeepsHedges(Logged(e, f).book, f);
      KeepingHedgesLogs(Logged(e, f), Step(p, ev).engine, seen + SightingsIn([ev]));
  }

  lemma {:induction false} RunLogs(p: Progress, seen: set<Sighting>, events: seq<MatchEvent>)
    requires Linked(p.engine.book) && LogOk(p.engine, seen) && forall ev :: ev in events ==> UnhedgedEvent(ev)
    requires p.error.None? && Run(p, events).error.None?
    ensures LogOk(Run(p, events).engine, seen + SightingsIn(events))
    ensures CountOk(p.engine, seen) ==> CountOk(Run(p, events).engine, seen + SightingsIn(events))
    decreases |events|
  {
    hide LogOk, CountOk, Step;
    if events == [] {
      assert seen + SightingsIn(events) == seen;
    } else {
      var n := Step(p, events[0]);
      if n.error.Some? {
        RunStopped(n, events[1..]);
      }
      StepLogs(p, seen, events[0]);
      RunLogs(n, seen + SightingsIn([events[0]]), events[1..]);
      assert events == [events[0]] + events[1..];
      assert seen + SightingsIn(events) == seen + SightingsIn([events[0]]) + SightingsIn(events[1..]);
    }
  }

  lemma {:induction false} SeedLogs(epsilon: real, history: seq<HedgeHistory>)
    ensures LogOk(SeedAll(EmptyEngine(epsilon), history), HistorySightings(history))
    decreases |history|
  {
    if history != [] {
      var init := history[..|history| - 1];
      var h := history[|history| - 1];
      SeedLogs(epsilon, init);
      SeedOneLogs(SeedAll(EmptyEngine(epsilon), init), HistorySightings(init), h);
      assert history == init + [h];
      assert HistorySightings(history) == HistorySightings(init) + {Sighting(h.mainFkey, h.firstOrder, h.lastFillTs)};
    }
  }

  lemma {:induction false} BatchesLog(e: Engine, seen: set<Sighting>, batches: seq<seq<MatchEvent>>)
    requires Linked(e.book) && LogOk(e, seen) && forall ev :: ev in Flatten(batches) ==> UnhedgedEvent(ev)
    requires ApplyBatches(e, batches).error.None?
    ensures LogOk(ApplyBatches(e, batches).engine, seen + SightingsIn(Flatten(batches)))
    ensures CountOk(e, seen) ==> CountOk(ApplyBatches(e, batches).engine, seen + SightingsIn(Flatten(batches)))
    decreases |batches|
  {
    if batches == [] {
      assert seen + SightingsIn(Flatten(batches)) == seen;
    } else {
      var init := batches[..|batches| - 1];
      var last := batches[|batches| - 1];
      BatchesLog(e, seen, init);
      var p := ApplyBatches(e, init);
      var sorted := StableSort(last, EventLe());
      SortPermutes(last, EventLe());
      assert SightingsIn(sorted) == SightingsIn(last);
      var before := seen + SightingsIn(Flatten(init));
      RunLogs(Progress(p.engine, [], None), before, sorted);
      assert seen + SightingsIn(Flatten(batches)) == before + SightingsIn(sorted);
    }
  }

  /**
   After any batches, in any order, over seeded history: every order shows the least hedge by sort key among
   those seeded or seen for it and the greatest fill time; without history it counts its distinct hedge orders.
   */
  lemma HedgesShownRegardlessOfArrival(
    epsilon: real, history: seq<HedgeHistory>, batches: seq<seq<MatchEvent>>, f: int)
    requires epsilon >= 0.0 && forall ev :: ev in Flatten(batches) ==> UnhedgedEvent(ev)
    requires ApplyBatches(SeedAll(EmptyEngine(epsilon), history), batches).error.None?
    requires f in ApplyBatches(SeedAll(EmptyEngine(epsilon), history), batches).engine.book.orders
    ensures var h := ApplyBatches(SeedAll(EmptyEngine(epsilon), history), batches).engine.book.orders[f].hedge;
            var seen := HistorySightings(history) + SightingsIn(Flatten(batches));
            && ShowsFirst(h, seen, f)
            && ShowsLastFill(h, seen, f)
            && (history == [] ==> h.closeCount == |IdsOf(seen, f)|)
  {
    var e := SeedAll(EmptyEngine(epsilon), history);
    SeedLogs(epsilon, history);
    BatchesLog(e, HistorySightings(history), batches);
    var r := ApplyBatches(e, batches).engine;
    var seen := HistorySightings(history) + SightingsIn(Flatten(batches));
    assert FirstOk(r.log, seen, f) && FillOk(r.log, seen, f);
    assert ShowsLog(r, f);
    var h := r.book.orders[f].hedge;
    assert h.fts == FillOf(r.log, f) && h.hts == Shown(r.log, f).hts;
    if history == [] {
      assert CountOk(e, HistorySightings(history)) by {
        assert HistorySightings(history) == {};
        assert forall g: int :: IdsOf({}, g) == {};
      }
    }
    if f in r.log.first {
      var s :| s in seen && s.fkey == f && s.timing == r.log.first[f];
      assert h.newTs == s.timing.newTs && h.terminalTs == s.timing.terminalTs;
    } else {
      assert h.newTs == None && h.terminalTs == None;
    }
  }
}
