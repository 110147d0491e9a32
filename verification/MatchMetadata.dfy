/**
 Hedge metadata across restarts. The job stores what each order shows about its hedges and, for orders that arrive in
 a batch, reads back a summary of the hedges stored before. What it stores is what a never-restarted engine shows,
 for every order that is still pending; a finished order goes stale exactly when a later batch hedges against it.
 */
module MatchMetadata {
  import opened Prelude
  import opened StableSorting
  import opened MatchBook
  import opened MatchInvariants
  import opened MatchRun
  import opened MatchReachable
  import opened MatchHedges
  import opened MatchRestart

  ghost predicate Named(ev: MatchEvent, f: int) { ev.Futures? && ev.futures.mainFkey == Some(f) }

  /** Client order ids identify futures orders. */
  ghost predicate UniqueIds(events: seq<MatchEvent>) {
    forall i, j :: 0 <= i < j < |events| && events[i].Futures? && events[j].Futures? ==>
      events[i].futures.clientOrderId != events[j].futures.clientOrderId
  }

  /** Source timestamps are later than the one a loaded timing is given. */
  predicate Proper(ev: MatchEvent) { ev.Futures? ==> ev.futures.sourceTs > I64_MIN }

  // ---- What a log says about one order

  /** What an order shows once its log is known. */
  function Show(log: HedgeLog, f: int): HedgeInfo { Shown(log, f).(closeCount := CountOf(log, f)) }

  ghost predicate Displays(e: Engine, f: int) {
    CountOf(e.log, f) >= 0 && (f in e.book.orders ==> e.book.orders[f].hedge == Show(e.log, f))
  }

  /** Both logs show the same, though their stored timings may differ. */
  ghost predicate SameShow(full: HedgeLog, live: HedgeLog, f: int) {
    Show(full, f) == Show(live, f) && (f in full.first <==> f in live.first)
  }

  /** An event to come neither precedes the first hedge nor has been counted. */
  ghost predicate Settled(log: HedgeLog, f: int, o: FuturesOrder) {
    && (f in log.first ==> KeyLe(TimingKey(log.first[f]), TimingKey(TimingOf(o))))
    && (f, o.clientOrderId) !in log.seen
  }

  ghost predicate SettledFor(log: HedgeLog, f: int, events: seq<MatchEvent>) {
    forall ev :: ev in events && Named(ev, f) ==> Settled(log, f, ev.futures)
  }

  /** The two logs agree about `f` at present and will over `events`. */
  ghost predicate Agreed(full: Engine, live: Engine, f: int, events: seq<MatchEvent>) {
    && SameShow(full.log, live.log, f) && Displays(full, f) && Displays(live, f)
    && SettledFor(full.log, f, events) && SettledFor(live.log, f, events)
  }

  // ---- One event

  /** A settled hedge never replaces the first one; it adds to the count and may move the last fill. */
  lemma RecordSettled(e: Engine, f: int, o: FuturesOrder)
    requires Settled(e.log, f, o)
    ensures var r := RecordHedge(e, f, o).log;
            && f in r.first && r.first[f] == (if f in e.log.first then e.log.first[f] else TimingOf(o))
            && CountOf(r, f) == CountOf(e.log, f) + 1
            && r.lastFill == LaterFill(e.log.lastFill, f, o.fillTs)
            && r.seen == e.log.seen + {(f, o.clientOrderId)}
  {
    RecordHedgeLog(e, o, f);
    hide KeyLe, TimingKey, TimingOf;
  }

  lemma RecordDisplays(e: Engine, f: int, o: FuturesOrder)
    requires Displays(e, f)
    ensures Displays(RecordHedge(e, f, o), f)
  {
    RecordHedgeLog(e, o, f);
    hide KeyLe, TimingKey, TimingOf;
  }

  /** A hedge naming another order leaves `f` alone. */
  lemma RecordOther(e: Engine, f: int, g: int, o: FuturesOrder)
    requires g != f
    ensures var r := RecordHedge(e, g, o);
            && Show(r.log, f) == Show(e.log, f) && (f in r.log.first <==> f in e.log.first)
            && (f in r.log.first ==> r.log.first[f] == e.log.first[f])
            && (forall id :: (f, id) in r.log.seen <==> (f, id) in e.log.seen)
            && (f in e.book.orders ==> f in r.book.orders && r.book.orders[f].hedge == e.book.orders[f].hedge)
            && (f in r.book.orders ==> f in e.book.orders)
  {
    hide KeyLe, TimingKey, TimingOf;
  }

  lemma RecordSameShow(full: Engine, live: Engine, f: int, o: FuturesOrder)
    requires SameShow(full.log, live.log, f) && Settled(full.log, f, o) && Settled(live.log, f, o)
    ensures SameShow(RecordHedge(full, f, o).log, RecordHedge(live, f, o).log, f)
  {
    RecordSettled(full, f, o);
    RecordSettled(live, f, o);
    assert FillOf(full.log, f) == Show(full.log, f).fts && FillOf(live.log, f) == Show(live.log, f).fts;
    hide RecordHedge, KeyLe, Settled;
  }

  /** What a log settled for a sorted batch keeps once its first event is recorded. */
  lemma SettledStep(e: Engine, f: int, ev: MatchEvent, later: seq<MatchEvent>)
    requires SettledFor(e.log, f, [ev] + later) && AllLe([ev], later, EventLe()) && UniqueIds([ev] + later)
    requires ev.Futures?
    ensures SettledFor(Logged(e, ev.futures).log, f, later)
  {
    var o := ev.futures;
    var r := Logged(e, o).log;
    forall l | l in later && Named(l, f) ensures Settled(r, f, l.futures) {
      assert l in [ev] + later && Settled(e.log, f, l.futures);
      if o.mainFkey == Some(f) {
        assert ev in [ev] + later && Named(ev, f) && Settled(e.log, f, o);
        RecordSettled(e, f, o);
        assert ev in [ev] && EventLe()(ev, l);
        DifferentIds(ev, later, l);
        TimingFollows(o, l.futures);
      } else if o.mainFkey.Some? {
        RecordOther(e, f, o.mainFkey.value, o);
      }
    }
  }

  lemma TimingFollows(o: FuturesOrder, p: FuturesOrder)
    requires KeyLe(EventKey(Futures(o)), EventKey(Futures(p)))
    ensures KeyLe(TimingKey(TimingOf(o)), TimingKey(TimingOf(p)))
  {}

  lemma DifferentIds(ev: MatchEvent, later: seq<MatchEvent>, l: MatchEvent)
    requires UniqueIds([ev] + later) && ev.Futures? && l in later && l.Futures?
    ensures ev.futures.clientOrderId != l.futures.clientOrderId
  {
    var j :| 0 <= j < |later| && later[j] == l;
    assert ([ev] + later)[0] == ev && ([ev] + later)[j + 1] == l;
  }

  /** An arriving order shows what is known of its hedges. */
  lemma ArrivalDisplays(e: Engine, o: MarginOrder, f: int)
    requires Linked(e.book) && o.hedge == NO_HEDGE && Displays(e, f)
    requires !RejectsMargin(e.book, WithKnownHedges(e.log, o))
    ensures Displays(Engine(AddMargin(e.book, WithKnownHedges(e.log, o)), e.log), f)
  {
    var o1 := WithKnownHedges(e.log, o);
    AddMarginKeepsHedges(e.book, o1);
    if o.fkey == f {
      KnownIsShown(e.log, o);
    }
    hide AddMargin, Show;
  }

  lemma KnownIsShown(log: HedgeLog, o: MarginOrder)
    requires o.hedge == NO_HEDGE && CountOf(log, o.fkey) >= 0
    ensures WithKnownHedges(log, o).hedge == Show(log, o.fkey)
  {}

  lemma HedgedDisplays(e: Engine, o: FuturesOrder, f: int)
    requires Linked(e.book) && Displays(e, f)
    ensures Displays(Engine(AddFutures(e.book, o).0, e.log), f)
  {
    AddFuturesKeepsHedges(e.book, o);
    hide AddFutures, Show;
  }

  lemma LoggedDisplays(e: Engine, o: FuturesOrder, f: int)
    requires Displays(e, f)
    ensures Displays(Logged(e, o), f)
  {
    if o.mainFkey == Some(f) {
      RecordDisplays(e, f, o);
    } else if o.mainFkey.Some? {
      RecordOther(e, f, o.mainFkey.value, o);
      ShowCount(RecordHedge(e, o.mainFkey.value, o).log, f);
      ShowCount(e.log, f);
    }
  }

  lemma ShowCount(log: HedgeLog, f: int)
    ensures Show(log, f).closeCount == CountOf(log, f)
  {}

  lemma LoggedSameShow(full: Engine, live: Engine, o: FuturesOrder, f: int)
    requires SameShow(full.log, live.log, f)
    requires o.mainFkey == Some(f) ==> Settled(full.log, f, o) && Settled(live.log, f, o)
    ensures SameShow(Logged(full, o).log, Logged(live, o).log, f)
  {
    if o.mainFkey == Some(f) {
      RecordSameShow(full, live, f, o);
    } else if o.mainFkey.Some? {
      RecordOther(full, f, o.mainFkey.value, o);
      RecordOther(live, f, o.mainFkey.value, o);
    }
  }

  lemma StepAgrees(p: Progress, q: Progress, ev: MatchEvent, later: seq<MatchEvent>, f: int)
    requires Linked(p.engine.book) && Linked(q.engine.book) && Agreed(p.engine, q.engine, f, [ev] + later)
    requires p.error.None? && q.error.None? && Step(p, ev).error.None? && Step(q, ev).error.None?
    requires UnhedgedEvent(ev) && AllLe([ev], later, EventLe()) && UniqueIds([ev] + later)
    ensures Agreed(Step(p, ev).engine, Step(q, ev).engine, f, later)
  {
    var full, live := p.engine, q.engine;
    assert forall l :: l in later ==> l in [ev] + later;
    match ev
    case Margin(o) =>
      ArrivalDisplays(full, o, f);
      ArrivalDisplays(live, o, f);
      hide AddMargin, Displays, SameShow, Settled;
    case Futures(o) =>
      assert ev in [ev] + later;
      assert o.mainFkey == Some(f) ==> Named(ev, f);
      LoggedSameShow(full, live, o, f);
      LoggedDisplays(full, o, f);
      LoggedDisplays(live, o, f);
      SettledStep(full, f, ev, later);
      SettledStep(live, f, ev, later);
      SameQueuesLinked(full.book, Logged(full, o).book);
      SameQueuesLinked(live.book, Logged(live, o).book);
      HedgedDisplays(Logged(full, o), o, f);
      HedgedDisplays(Logged(live, o), o, f);
      hide AddFutures, Logged, Displays, SameShow, Settled, SettledFor;
  }

  /** Lockstep over a sorted batch. */
  lemma {:induction false} RunAgrees(p: Progress, q: Progress, events: seq<MatchEvent>, f: int)
    requires Linked(p.engine.book) && Linked(q.engine.book) && Agreed(p.engine, q.engine, f, events)
    requires p.error.None? && q.error.None? && Run(p, events).error.None? && Run(q, events).error.None?
    requires (forall ev :: ev in events ==> UnhedgedEvent(ev)) && Sorted(events, EventLe()) && UniqueIds(events)
    ensures Agreed(Run(p, events).engine, Run(q, events).engine, f, [])
    decreases |events|
  {
    if events == [] {
      assert events == [];
    } else {
      var ev, later := events[0], events[1..];
      NextRuns(p, events);
      NextRuns(q, events);
      FirstAndLater(events);
      hide Step, Agreed, UnhedgedEvent;
      StepAgrees(p, q, ev, later, f);
      RunAgrees(Step(p, ev), Step(q, ev), later, f);
    }
  }

  lemma NextRuns(p: Progress, events: seq<MatchEvent>)
    requires Linked(p.engine.book) && events != [] && Run(p, events).error.None?
    ensures Step(p, events[0]).error.None? && Run(p, events) == Run(Step(p, events[0]), events[1..])
  {
    if Step(p, events[0]).error.Some? {
      RunStopped(Step(p, events[0]), events[1..]);
    }
  }

  lemma FirstAndLater(events: seq<MatchEvent>)
    requires events != [] && Sorted(events, EventLe()) && UniqueIds(events)
    ensures [events[0]] + events[1..] == events
    ensures Sorted(events[1..], EventLe()) && UniqueIds(events[1..]) && AllLe([events[0]], events[1..], EventLe())
  {
    hide EventLe;
    forall x, y | x in [events[0]] && y in events[1..] ensures EventLe()(x, y) {
      var j :| 0 <= j < |events[1..]| && events[1..][j] == y;
      assert events[j + 1] == y;
    }
  }

  // ---- What an engine knows after loading and seeding

  /** The timing a loaded order is given. */
  function LoadedTiming(h: HedgeInfo): HedgeTiming
    requires h.hts.Some?
  {
    HedgeTiming(0, h.hts.value, h.newTs, h.terminalTs, I64_MIN)
  }

  /** Nothing is known of `f`. */
  ghost predicate Unknown(e: Engine, f: int) {
    && f !in e.log.first && f !in e.log.lastFill && f !in e.log.counts && f !in e.book.orders
    && e.log.seen == {}
  }

  /** `f` was loaded showing `h`. */
  ghost predicate LoadedAs(e: Engine, f: int, h: HedgeInfo) {
    && f in e.book.orders && e.book.orders[f].hedge == h
    && (if h.hts.Some? then f in e.log.first && e.log.first[f] == LoadedTiming(h) else f !in e.log.first)
    && FillOf(e.log, f) == h.fts && CountOf(e.log, f) == h.closeCount
    && e.log.seen == {}
  }

  lemma {:induction false} LoadUnknown(epsilon: real, pending: seq<MarginOrder>, f: int)
    requires epsilon >= 0.0 && LoadAll(epsilon, pending).Ok?
    requires forall i :: 0 <= i < |pending| ==> pending[i].fkey != f
    ensures Unknown(LoadAll(epsilon, pending).value, f)
    decreases |pending|
  {
    if pending != [] {
      LoadUnknown(epsilon, pending[..|pending| - 1], f);
    }
  }

  lemma LoadOneAs(e: Engine, o: MarginOrder)
    requires Unknown(e, o.fkey)
    ensures LoadedAs(LoadOne(e, o), o.fkey, o.hedge)
  {}

  lemma LoadOneOther(e: Engine, o: MarginOrder, f: int, h: HedgeInfo)
    requires LoadedAs(e, f, h) && o.fkey != f
    ensures LoadedAs(LoadOne(e, o), f, h)
  {}

  lemma {:induction false} LoadAs(epsilon: real, pending: seq<MarginOrder>, i: nat)
    requires epsilon >= 0.0 && LoadAll(epsilon, pending).Ok? && i < |pending|
    requires forall a, b :: 0 <= a < b < |pending| ==> pending[a].fkey != pending[b].fkey
    ensures LoadedAs(LoadAll(epsilon, pending).value, pending[i].fkey, pending[i].hedge)
    decreases |pending|
  {
    var init, last := pending[..|pending| - 1], pending[|pending| - 1];
    var e := LoadAll(epsilon, init).value;
    hide LoadedAs, LoadOne, Unknown;
    if i == |init| {
      LoadUnknown(epsilon, init, last.fkey);
      LoadOneAs(e, last);
    } else {
      LoadAs(epsilon, init, i);
      LoadOneOther(e, last, pending[i].fkey, pending[i].hedge);
    }
  }

  lemma {:induction false} SeedUnknown(e: Engine, history: seq<HedgeHistory>, f: int)
    requires Unknown(e, f) && forall k :: 0 <= k < |history| ==> history[k].mainFkey != f
    ensures Unknown(SeedAll(e, history), f)
    decreases |history|
  {
    if history != [] {
      SeedUnknown(e, history[..|history| - 1], f);
    }
  }

  lemma {:induction false} SeedLoaded(e: Engine, history: seq<HedgeHistory>, f: int, h: HedgeInfo)
    requires LoadedAs(e, f, h) && forall k :: 0 <= k < |history| ==> history[k].mainFkey != f
    ensures LoadedAs(SeedAll(e, history), f, h)
    decreases |history|
  {
    if history != [] {
      SeedLoaded(e, history[..|history| - 1], f, h);
    }
  }

  /** All that is known of `f` is the summary of its stored hedges. */
  ghost predicate SeededAs(e: Engine, h: HedgeHistory) {
    var f := h.mainFkey;
    && f in e.log.first && e.log.first[f] == h.firstOrder && FillOf(e.log, f) == h.lastFillTs
    && CountOf(e.log, f) == MaxInt(0, h.orderCount) && f !in e.book.orders
    && e.log.seen == {}
  }

  lemma SeedOneAs(e: Engine, h: HedgeHistory)
    requires Unknown(e, h.mainFkey)
    ensures SeededAs(SeedOne(e, h), h)
  {}

  lemma SeedOneOther(e: Engine, h: HedgeHistory, g: HedgeHistory)
    requires SeededAs(e, h) && g.mainFkey != h.mainFkey
    ensures SeededAs(SeedOne(e, g), h)
  {}

  lemma {:induction false} SeedAs(e: Engine, history: seq<HedgeHistory>, k: nat)
    requires k < |history| && Unknown(e, history[k].mainFkey)
    requires forall a, b :: 0 <= a < b < |history| ==> history[a].mainFkey != history[b].mainFkey
    ensures SeededAs(SeedAll(e, history), history[k])
    decreases |history|
  {
    var init, last := history[..|history| - 1], history[|history| - 1];
    hide SeededAs, SeedOne;
    if k == |init| {
      SeedUnknown(e, init, last.mainFkey);
      SeedOneAs(SeedAll(e, init), last);
    } else {
      SeedAs(e, init, k);
      SeedOneOther(SeedAll(e, init), history[k], last);
    }
  }

  // ---- The summary of the stored hedges

  ghost function HedgeSightings(hedges: seq<HedgeResult>): set<Sighting> {
    set r | r in hedges && r.order.mainFkey.Some?
      :: Sighting(r.order.mainFkey.value, TimingOf(r.order), r.order.fillTs)
  }

  /** `h` is the least hedge by sort key, the latest fill and the number of the hedge orders seen for its order. */
  ghost predicate Summarizes(h: HedgeHistory, seen: set<Sighting>) {
    && (exists s :: s in seen && s.fkey == h.mainFkey && s.timing == h.firstOrder)
    && (forall s :: s in seen && s.fkey == h.mainFkey ==> KeyLe(TimingKey(h.firstOrder), TimingKey(s.timing)))
    && (match h.lastFillTs
        case None => forall s :: s in seen && s.fkey == h.mainFkey ==> s.fill.None?
        case Some(t) =>
          && (exists s :: s in seen && s.fkey == h.mainFkey && s.fill == Some(t))
          && (forall s :: s in seen && s.fkey == h.mainFkey && s.fill.Some? ==> s.fill.value <= t))
    && h.orderCount == |IdsOf(seen, h.mainFkey)|
  }

  ghost predicate Arrives(batch: seq<MatchEvent>, f: int) {
    exists ev :: ev in batch && ev.Margin? && ev.margin.fkey == f
  }

  ghost predicate Covers(history: seq<HedgeHistory>, f: int) {
    exists k :: 0 <= k < |history| && history[k].mainFkey == f
  }

  /** The summaries read back for the orders that arrive in a batch: one for each that has stored hedges. */
  ghost predicate IsHistory(history: seq<HedgeHistory>, hedges: seq<HedgeResult>, batch: seq<MatchEvent>) {
    && (forall k :: 0 <= k < |history| ==>
          Arrives(batch, history[k].mainFkey) && Summarizes(history[k], HedgeSightings(hedges)))
    && (forall a, b :: 0 <= a < b < |history| ==> history[a].mainFkey != history[b].mainFkey)
    && (forall s :: s in HedgeSightings(hedges) && Arrives(batch, s.fkey) ==> Covers(history, s.fkey))
  }

  // ---- The never-restarted engine

  /** The engine has seen exactly `seen`, each hedge order once. */
  ghost predicate Knows(e: Engine, seen: set<Sighting>) {
    && LogOk(e, seen) && CountOk(e, seen)
    && forall s, t :: s in seen && t in seen && s.timing.clientOrderId == t.timing.clientOrderId ==> s == t
  }

  lemma KnowsDisplays(e: Engine, seen: set<Sighting>, f: int)
    requires Knows(e, seen)
    ensures Displays(e, f)
  {
    hide FirstOk, FillOk, PairsOf, IdsOf;
    assert CountOf(e.log, f) == |IdsOf(seen, f)|;
    if f in e.book.orders {
      assert ShowsLog(e, f);
    }
  }

  /** Everything seen so far comes before the events to come, under other ids. */
  ghost predicate Before(seen: set<Sighting>, events: seq<MatchEvent>) {
    forall s, ev :: s in seen && ev in events && ev.Futures? ==>
      && KeyLe(TimingKey(s.timing), TimingKey(TimingOf(ev.futures)))
      && s.timing.clientOrderId != ev.futures.clientOrderId
  }

  lemma KnowsSettled(e: Engine, seen: set<Sighting>, f: int, events: seq<MatchEvent>)
    requires Knows(e, seen) && Before(seen, events)
    ensures SettledFor(e.log, f, events)
  {
    hide KeyLe, TimingKey, TimingOf, FillOk, IdsOf;
    assert FirstOk(e.log, seen, f);
    forall ev | ev in events && Named(ev, f) ensures Settled(e.log, f, ev.futures) {
      if f in e.log.first {
        var s :| s in seen && s.fkey == f && s.timing == e.log.first[f];
      }
    }
  }

  /** A loaded pending order shows what the never-restarted engine shows, and settles alike. */
  lemma LoadedAgrees(full: Engine, live: Engine, f: int, events: seq<MatchEvent>)
    requires Displays(full, f) && SettledFor(full.log, f, events) && f in full.book.orders
    requires LoadedAs(live, f, full.book.orders[f].hedge)
    requires forall ev :: ev in events ==> Proper(ev)
    ensures Agreed(full, live, f, events)
  {
    var h := full.book.orders[f].hedge;
    assert h == Show(full.log, f);
    LoadedShow(live, f, h);
    assert f in full.log.first <==> h.hts.Some?;
    forall ev | ev in events && Named(ev, f) ensures Settled(live.log, f, ev.futures) {
      assert Settled(full.log, f, ev.futures) && Proper(ev);
    }
  }

  lemma LoadedShow(live: Engine, f: int, h: HedgeInfo)
    requires LoadedAs(live, f, h) && (h.hts.None? ==> h.newTs.None? && h.terminalTs.None?) && h.closeCount >= 0
    ensures Show(live.log, f) == h && Displays(live, f)
  {}

  /** An order about to arrive is known alike: by its seeded summary, or not at all. */
  lemma SeededAgrees(full: Engine, live: Engine, h: HedgeHistory, seen: set<Sighting>, events: seq<MatchEvent>)
    requires Knows(full, seen) && Before(seen, events) && h.mainFkey !in full.book.orders
    requires Summarizes(h, seen) && SeededAs(live, h)
    ensures Agreed(full, live, h.mainFkey, events)
  {
    var f := h.mainFkey;
    KnowsDisplays(full, seen, f);
    KnowsSettled(full, seen, f, events);
    SeededFirst(full, h, seen);
    SeededFill(full, h, seen);
    assert CountOf(full.log, f) == |IdsOf(seen, f)|;
    hide Knows, LogOk, CountOk, KeyLe, TimingKey, TimingOf, FirstOk, FillOk, IdsOf;
    assert SameShow(full.log, live.log, f);
    forall ev | ev in events && Named(ev, f) ensures Settled(live.log, f, ev.futures) {
      assert Settled(full.log, f, ev.futures);
    }
  }

  lemma SeededFirst(full: Engine, h: HedgeHistory, seen: set<Sighting>)
    requires Knows(full, seen) && Summarizes(h, seen)
    ensures h.mainFkey in full.log.first && full.log.first[h.mainFkey] == h.firstOrder
  {
    var f := h.mainFkey;
    assert FirstOk(full.log, seen, f);
    var s :| s in seen && s.fkey == f && s.timing == h.firstOrder;
    var t :| t in seen && t.fkey == f && t.timing == full.log.first[f];
    assert KeyLe(TimingKey(s.timing), TimingKey(t.timing)) && KeyLe(TimingKey(t.timing), TimingKey(s.timing));
    KeyLeAntisymmetric(TimingKey(s.timing), TimingKey(t.timing));
  }

  lemma SeededFill(full: Engine, h: HedgeHistory, seen: set<Sighting>)
    requires Knows(full, seen) && Summarizes(h, seen)
    ensures FillOf(full.log, h.mainFkey) == h.lastFillTs
  {
    hide FirstOk, KeyLe, IdsOf;
    assert FillOk(full.log, seen, h.mainFkey);
  }

  lemma UnknownAgrees(full: Engine, live: Engine, f: int, seen: set<Sighting>, events: seq<MatchEvent>)
    requires Knows(full, seen) && Before(seen, events) && f !in full.book.orders
    requires (forall s :: s in seen ==> s.fkey != f) && Unknown(live, f)
    ensures Agreed(full, live, f, events)
  {
    KnowsDisplays(full, seen, f);
    KnowsSettled(full, seen, f, events);
    assert FirstOk(full.log, seen, f) && FillOk(full.log, seen, f);
    assert IdsOf(seen, f) == {};
    assert CountOf(full.log, f) == |IdsOf(seen, f)|;
    hide KeyLe, TimingKey, TimingOf, LogOk, CountOk;
  }

  // ---- Whole batches

  lemma StepSightings(p: Progress, ev: MatchEvent)
    requires Linked(p.engine.book) && p.error.None? && Step(p, ev).error.None?
    ensures HedgeSightings(Step(p, ev).hedges) == HedgeSightings(p.hedges) + SightingsIn([ev])
  {
    SightingsInOne(ev);
    hide AddMargin, HedgeLoop, Logged, WithKnownHedges, SightingsIn;
    if ev.Futures? {
      var r := Step(p, ev).hedges[|p.hedges|];
      assert r.order == ev.futures && Step(p, ev).hedges == p.hedges + [r];
      HedgeSightingsAppend(p.hedges, r);
    }
  }

  lemma HedgeSightingsAppend(hedges: seq<HedgeResult>, r: HedgeResult)
    ensures HedgeSightings(hedges + [r])
            == HedgeSightings(hedges)
               + if r.order.mainFkey.Some?
                 then {Sighting(r.order.mainFkey.value, TimingOf(r.order), r.order.fillTs)} else {}
  {
    forall s | s in HedgeSightings(hedges) ensures s in HedgeSightings(hedges + [r]) {
      var x :| x in hedges && x.order.mainFkey.Some?
               && s == Sighting(x.order.mainFkey.value, TimingOf(x.order), x.order.fillTs);
      assert x in hedges + [r];
    }
    assert r in hedges + [r];
  }

  /** The stored hedges are the hedges seen. */
  lemma {:induction false} RunSightings(p: Progress, events: seq<MatchEvent>)
    requires Linked(p.engine.book) && p.error.None? && Run(p, events).error.None?
    ensures HedgeSightings(Run(p, events).hedges) == HedgeSightings(p.hedges) + SightingsIn(events)
    decreases |events|
  {
    if events == [] {
      assert SightingsIn(events) == {};
    } else {
      NextRuns(p, events);
      StepSightings(p, events[0]);
      hide Step, HedgeSightings;
      RunSightings(Step(p, events[0]), events[1..]);
      SightingsConcat([events[0]], events[1..]);
      HeadAndTail(events);
    }
  }

  lemma SightingsConcat(xs: seq<MatchEvent>, ys: seq<MatchEvent>)
    ensures SightingsIn(xs + ys) == SightingsIn(xs) + SightingsIn(ys)
  {
    assert forall ev :: ev in xs + ys <==> ev in xs || ev in ys;
  }

  lemma SightingEvent(xs: seq<MatchEvent>, s: Sighting) returns (i: nat)
    requires s in SightingsIn(xs)
    ensures i < |xs| && xs[i].Futures? && s.timing == TimingOf(xs[i].futures)
    ensures s == Sighting(s.fkey, TimingOf(xs[i].futures), xs[i].futures.fillTs)
    ensures xs[i].futures.mainFkey == Some(s.fkey)
  {
    var ev :| ev in xs && ev.Futures? && ev.futures.mainFkey.Some?
              && s == Sighting(ev.futures.mainFkey.value, TimingOf(ev.futures), ev.futures.fillTs);
    i :| i < |xs| && xs[i] == ev;
  }

  lemma UniqueSightings(xs: seq<MatchEvent>, s: Sighting, t: Sighting)
    requires UniqueIds(xs) && s in SightingsIn(xs) && t in SightingsIn(xs)
    requires s.timing.clientOrderId == t.timing.clientOrderId
    ensures s == t
  {
    var i := SightingEvent(xs, s);
    var j := SightingEvent(xs, t);
    assert i == j;
  }

  /** The engine that was never restarted knows exactly the hedges of its events. */
  lemma OneShotKnows(epsilon: real, xs: seq<MatchEvent>)
    requires epsilon >= 0.0 && UniqueIds(xs) && forall ev :: ev in xs ==> UnhedgedEvent(ev)
    requires Apply(EmptyEngine(epsilon), xs).error.None?
    ensures var p := Apply(EmptyEngine(epsilon), xs);
            Knows(p.engine, SightingsIn(xs)) && HedgeSightings(p.hedges) == SightingsIn(xs)
  {
    var sorted := StableSort(xs, EventLe());
    var start := Progress(EmptyEngine(epsilon), [], None);
    SortPermutes(xs, EventLe());
    SameSightings(sorted, xs);
    EmptyKnows(epsilon);
    hide StableSort, LogOk, CountOk;
    RunLogs(start, {}, sorted);
    RunSightings(start, sorted);
    NoSightings();
    forall s, t | s in SightingsIn(xs) && t in SightingsIn(xs) && s.timing.clientOrderId == t.timing.clientOrderId
      ensures s == t
    {
      UniqueSightings(xs, s, t);
    }
  }

  lemma NoSightings()
    ensures HedgeSightings([]) == {} && SightingsIn([]) == {}
  {}

  lemma SameSightings(xs: seq<MatchEvent>, ys: seq<MatchEvent>)
    requires forall ev :: ev in xs <==> ev in ys
    ensures SightingsIn(xs) == SightingsIn(ys)
  {}

  lemma EmptyKnows(epsilon: real)
    requires epsilon >= 0.0
    ensures LogOk(EmptyEngine(epsilon), {}) && CountOk(EmptyEngine(epsilon), {})
  {
    SeedLogs(epsilon, []);
    assert HistorySightings([]) == {};
    assert forall g: int :: IdsOf({}, g) == {};
    assert PairsOf({}) == {};
  }

  /** Keys only grow, by orders that were not there. */
  lemma {:induction false} RunKeys(p: Progress, events: seq<MatchEvent>, f: int)
    requires Linked(p.engine.book) && p.error.None? && Run(p, events).error.None?
    ensures f in Run(p, events).engine.book.orders <==> f in p.engine.book.orders || Arrives(events, f)
    ensures Arrives(events, f) ==> f !in p.engine.book.orders
    decreases |events|
  {
    if events != [] {
      var ev := events[0];
      NextRuns(p, events);
      StepKeys(p, ev, f);
      RunKeys(Step(p, ev), events[1..], f);
      hide Step, Run;
      ArrivesHead(events, f);
    }
  }

  lemma ArrivesHead(events: seq<MatchEvent>, f: int)
    requires events != []
    ensures Arrives(events, f) <==>
              (events[0].Margin? && events[0].margin.fkey == f) || Arrives(events[1..], f)
  {
    if Arrives(events, f) {
      var ev :| ev in events && ev.Margin? && ev.margin.fkey == f;
      assert ev == events[0] || ev in events[1..];
    }
    if Arrives(events[1..], f) {
      var ev :| ev in events[1..] && ev.Margin? && ev.margin.fkey == f;
      assert ev in events;
    }
    assert events[0] in events;
  }

  lemma StepKeys(p: Progress, ev: MatchEvent, f: int)
    requires Linked(p.engine.book) && p.error.None? && Step(p, ev).error.None?
    ensures f in Step(p, ev).engine.book.orders
            <==> f in p.engine.book.orders || (ev.Margin? && ev.margin.fkey == f)
    ensures ev.Margin? && ev.margin.fkey == f ==> f !in p.engine.book.orders
  {
    if ev.Futures? {
      SameQueuesLinked(p.engine.book, Logged(p.engine, ev.futures).book);
    }
    hide AddMargin, AddFutures, Logged;
  }

  lemma StepUnnamed(p: Progress, ev: MatchEvent, f: int)
    requires Linked(p.engine.book) && p.error.None? && Step(p, ev).error.None?
    requires f in p.engine.book.orders && !Named(ev, f)
    ensures var r := Step(p, ev).engine.book;
            f in r.orders && r.orders[f].hedge == p.engine.book.orders[f].hedge
  {
    var e := p.engine;
    match ev
    case Margin(o) =>
      AddMarginKeepsHedges(e.book, WithKnownHedges(e.log, o));
      hide AddMargin;
    case Futures(o) =>
      if o.mainFkey.Some? {
        RecordOther(e, f, o.mainFkey.value, o);
      }
      SameQueuesLinked(e.book, Logged(e, o).book);
      AddFuturesKeepsHedges(Logged(e, o).book, o);
      hide AddFutures, RecordHedge;
  }

  /** Without a hedge that names it, an order keeps showing what it shows. */
  lemma {:induction false} RunUnnamed(p: Progress, events: seq<MatchEvent>, f: int)
    requires Linked(p.engine.book) && p.error.None? && Run(p, events).error.None?
    requires f in p.engine.book.orders && forall ev :: ev in events ==> !Named(ev, f)
    ensures var r := Run(p, events).engine.book;
            f in r.orders && r.orders[f].hedge == p.engine.book.orders[f].hedge
    decreases |events|
  {
    if events != [] {
      NextRuns(p, events);
      assert events[0] in events;
      StepUnnamed(p, events[0], f);
      hide Step, Named;
      RunUnnamed(Step(p, events[0]), events[1..], f);
    }
  }

  lemma IdsGrow(seen: set<Sighting>, more: set<Sighting>, f: int, s: Sighting)
    requires s in more && s.fkey == f
    requires forall x :: x in seen ==> x.timing.clientOrderId != s.timing.clientOrderId
    ensures |IdsOf(seen, f)| < |IdsOf(seen + more, f)|
  {
    var a, b, id := IdsOf(seen, f), IdsOf(seen + more, f), s.timing.clientOrderId;
    assert s in seen + more && id in b && id !in a;
    forall x | x in a ensures x in b {
      var y :| y in seen && y.fkey == f && y.timing.clientOrderId == x;
      assert y in seen + more;
    }
    assert a + (b - a) == b && |b| == |a| + |b - a| && id in b - a;
  }

  lemma EarlierAreBefore(xs: seq<MatchEvent>, batch: seq<MatchEvent>, events: seq<MatchEvent>)
    requires AllLe(xs, batch, EventLe()) && UniqueIds(xs + batch) && forall ev :: ev in events ==> ev in batch
    ensures Before(SightingsIn(xs), events)
  {
    hide KeyLe, TimingKey, TimingOf, EventLe;
    forall s, ev | s in SightingsIn(xs) && ev in events && ev.Futures?
      ensures KeyLe(TimingKey(s.timing), TimingKey(TimingOf(ev.futures)))
      ensures s.timing.clientOrderId != ev.futures.clientOrderId
    {
      var i := SightingEvent(xs, s);
      var j :| 0 <= j < |batch| && batch[j] == ev;
      assert (xs + batch)[i] == xs[i] && (xs + batch)[|xs| + j] == ev;
      assert xs[i] in xs && EventLe()(xs[i], ev);
      FuturesInOrder(xs[i], ev);
    }
  }

  lemma FuturesInOrder(x: MatchEvent, y: MatchEvent)
    requires x.Futures? && y.Futures? && EventLe()(x, y)
    ensures KeyLe(TimingKey(TimingOf(x.futures)), TimingKey(TimingOf(y.futures)))
    ensures TimingOf(x.futures).clientOrderId == x.futures.clientOrderId
  {}

  lemma SortedUniqueIds(batch: seq<MatchEvent>)
    requires UniqueIds(batch)
    ensures UniqueIds(StableSort(batch, EventLe()))
  {
    var s := StableSort(batch, EventLe());
    SortPermutes(batch, EventLe());
    forall i, j | 0 <= i < j < |s| && s[i].Futures? && s[j].Futures?
      ensures s[i].futures.clientOrderId != s[j].futures.clientOrderId
    {
      RepeatedElement(s, i, j);
      assert s[i] in batch && s[j] in batch;
      if s[i] == s[j] {
        var a, b := TwoPositions(batch, s[i]);
        assert false;
      } else {
        var a :| 0 <= a < |batch| && batch[a] == s[i];
        var b :| 0 <= b < |batch| && batch[b] == s[j];
        assert a < b || b < a;
      }
    }
  }

  /** What the job starts a batch from. */
  ghost predicate Started(full: Engine, s: Synced, sync: Sync, seen: set<Sighting>) {
    && Inv(full.book) && Linked(full.book) && QueuesSorted(full.book)
    && Stored(full.book, s.store) && IsSnapshot(sync.pending, s.store)
    && Knows(full, seen) && HedgeSightings(s.hedges) == seen && IsHistory(sync.history, s.hedges, sync.batch)
    && Before(seen, sync.batch)
  }

  /** What a batch may contain. */
  ghost predicate ValidBatch(batch: seq<MatchEvent>) {
    UniqueIds(batch) && forall ev :: ev in batch ==> UnhedgedEvent(ev) && Proper(ev)
  }

  /** So far the store shows, for pending orders, what the never-restarted engine shows. */
  ghost predicate PendingShown(full: Engine, store: Store) {
    forall g :: g in store && store[g].state == Pending ==>
      g in full.book.orders && store[g].hedge == full.book.orders[g].hedge
  }

  /** The rebuilt engine agrees with the full one about every order that is pending. */
  lemma PendingStarts(full: Engine, s: Synced, sync: Sync, seen: set<Sighting>, events: seq<MatchEvent>, f: int)
    requires Started(full, s, sync, seen) && PendingShown(full, s.store) && New(sync.pending, full.book.epsilon).Ok?
    requires (forall ev :: ev in events <==> ev in sync.batch) && (forall ev :: ev in events ==> Proper(ev))
    requires f in New(sync.pending, full.book.epsilon).value.book.orders && !Arrives(sync.batch, f)
    ensures Agreed(full, SeedAll(New(sync.pending, full.book.epsilon).value, sync.history), f, events)
    ensures f in s.store && s.store[f].state == Pending
  {
    var sorted := StableSort(sync.pending, MarginLe());
    SortKeepsKeysDistinct(sync.pending, s.store);
    var live := New(sync.pending, full.book.epsilon).value;
    if forall i :: 0 <= i < |sorted| ==> sorted[i].fkey != f {
      LoadUnknown(full.book.epsilon, sorted, f);
      assert false;
    }
    var i :| 0 <= i < |sorted| && sorted[i].fkey == f;
    assert sorted[i] in sorted;
    LoadAs(full.book.epsilon, sorted, i);
    hide LoadedAs, Knows, Before, Inv, QueuesSorted, Summarizes;
    SeedLoaded(live, sync.history, f, sorted[i].hedge);
    KnowsDisplays(full, seen, f);
    BeforeSame(seen, sync.batch, events);
    KnowsSettled(full, seen, f, events);
    LoadedAgrees(full, SeedAll(live, sync.history), f, events);
  }

  lemma BeforeSame(seen: set<Sighting>, batch: seq<MatchEvent>, events: seq<MatchEvent>)
    requires Before(seen, batch) && forall ev :: ev in events ==> ev in batch
    ensures Before(seen, events)
  {
    hide KeyLe, TimingKey, TimingOf;
  }

  /** And about every order that is about to arrive. */
  lemma ArrivingStarts(full: Engine, s: Synced, sync: Sync, seen: set<Sighting>, events: seq<MatchEvent>, f: int)
    requires Started(full, s, sync, seen) && New(sync.pending, full.book.epsilon).Ok?
    requires (forall ev :: ev in events ==> ev in sync.batch)
    requires f !in full.book.orders && Arrives(sync.batch, f)
    ensures Agreed(full, SeedAll(New(sync.pending, full.book.epsilon).value, sync.history), f, events)
  {
    var sorted := StableSort(sync.pending, MarginLe());
    SortKeepsKeysDistinct(sync.pending, s.store);
    var live := New(sync.pending, full.book.epsilon).value;
    forall i | 0 <= i < |sorted| ensures sorted[i].fkey != f {
      assert sorted[i] in sorted && sorted[i].fkey in s.store;
    }
    LoadUnknown(full.book.epsilon, sorted, f);
    BeforeSame(seen, sync.batch, events);
    hide Knows, Before, Inv, QueuesSorted, Summarizes, Unknown, HedgeSightings;
    if k :| 0 <= k < |sync.history| && sync.history[k].mainFkey == f {
      SeedAs(live, sync.history, k);
      SeededAgrees(full, SeedAll(live, sync.history), sync.history[k], seen, events);
    } else {
      SeedUnknown(live, sync.history, f);
      UnknownAgrees(full, SeedAll(live, sync.history), f, seen, events);
    }
  }

  lemma ArrivesSame(xs: seq<MatchEvent>, ys: seq<MatchEvent>, f: int)
    requires forall ev :: ev in xs <==> ev in ys
    ensures Arrives(xs, f) <==> Arrives(ys, f)
  {}

  lemma AgreedShows(full: Engine, live: Engine, f: int)
    requires Agreed(full, live, f, []) && f in full.book.orders && f in live.book.orders
    ensures live.book.orders[f].hedge == full.book.orders[f].hedge
  {}

  /** The engine the job rebuilds for a batch. */
  function Rebuilt(sync: Sync, epsilon: real): Engine
    requires New(sync.pending, epsilon).Ok?
  {
    SeedAll(New(sync.pending, epsilon).value, sync.history)
  }

  /** What the rebuilt engine holds after the batch shows what the full engine shows. */
  lemma BatchShows(full: Engine, s: Synced, sync: Sync, seen: set<Sighting>, f: int)
    requires Started(full, s, sync, seen) && PendingShown(full, s.store) && ValidBatch(sync.batch)
    requires New(sync.pending, full.book.epsilon).Ok? && Linked(Rebuilt(sync, full.book.epsilon).book)
    requires var e := Rebuilt(sync, full.book.epsilon);
             && Apply(full, sync.batch).error.None? && Apply(e, sync.batch).error.None?
             && f in Apply(e, sync.batch).engine.book.orders && f in Apply(full, sync.batch).engine.book.orders
             && e.book.orders.Keys == New(sync.pending, full.book.epsilon).value.book.orders.Keys
    ensures var q := Apply(Rebuilt(sync, full.book.epsilon), sync.batch).engine;
            q.book.orders[f].hedge == Apply(full, sync.batch).engine.book.orders[f].hedge
    ensures f in s.store ==> s.store[f].state == Pending
  {
    var sorted := StableSort(sync.batch, EventLe());
    var e := Rebuilt(sync, full.book.epsilon);
    var p0, q0 := Progress(full, [], None), Progress(e, [], None);
    SortPermutes(sync.batch, EventLe());
    EventLeIsPreorder();
    SortSorts(sync.batch, EventLe());
    SortedUniqueIds(sync.batch);
    ArrivesSame(sorted, sync.batch, f);
    RunKeys(q0, sorted, f);
    RunKeys(p0, sorted, f);
    hide Agreed, Knows, Before, Inv, QueuesSorted, IsSnapshot, IsHistory, HedgeSightings, Run, New, StableSort, SeedAll;
    if Arrives(sync.batch, f) {
      ArrivingStarts(full, s, sync, seen, sorted, f);
    } else {
      PendingStarts(full, s, sync, seen, sorted, f);
    }
    RunAgrees(p0, q0, sorted, f);
    AgreedShows(Run(p0, sorted).engine, Run(q0, sorted).engine, f);
  }

  /** After one run of the job: finished orders are as stored before, all others show what the full engine shows. */
  ghost predicate BatchStored(full: Engine, before: Store, after: Store, f: int) {
    f in after ==>
      if f in before && before[f].state != Pending then after[f] == before[f]
      else f in full.book.orders && after[f].hedge == full.book.orders[f].hedge
  }

  lemma BatchMetadata(full: Engine, s: Synced, sync: Sync, seen: set<Sighting>, f: int)
    requires Started(full, s, sync, seen) && PendingShown(full, s.store) && ValidBatch(sync.batch)
    requires Apply(full, sync.batch).error.None?
    ensures var r := SyncOnce(s, full.book.epsilon, sync);
            r.Ok? && BatchStored(Apply(full, sync.batch).engine, s.store, r.value.store, f)
  {
    SyncOnceTracks(full, s, sync);
    var r := SyncOnce(s, full.book.epsilon, sync).value;
    var live := New(sync.pending, full.book.epsilon).value;
    var e := SeedAll(live, sync.history);
    SameQueuesLinked(live.book, e.book);
    var p, q := Apply(full, sync.batch).engine, Apply(e, sync.batch).engine;
    assert r.store == s.store + q.book.orders;
    if f in q.book.orders {
      assert f in p.book.orders;
      BatchShows(full, s, sync, seen, f);
    } else if f in s.store && s.store[f].state == Pending {
      PendingStays(full, s, sync, f);
      assert false;
    }
  }

  /** A pending order is loaded and stays. */
  lemma PendingStays(full: Engine, s: Synced, sync: Sync, f: int)
    requires IsSnapshot(sync.pending, s.store) && f in s.store && s.store[f].state == Pending
    requires s.store[f].fkey == f
    requires New(sync.pending, full.book.epsilon).Ok? && Linked(Rebuilt(sync, full.book.epsilon).book)
    requires Apply(Rebuilt(sync, full.book.epsilon), sync.batch).error.None?
    ensures f in Apply(Rebuilt(sync, full.book.epsilon), sync.batch).engine.book.orders
  {
    var sorted := StableSort(sync.pending, MarginLe());
    SortPermutes(sync.pending, MarginLe());
    SortKeepsKeysDistinct(sync.pending, s.store);
    assert s.store[f] in sync.pending && s.store[f] in sorted;
    var i :| 0 <= i < |sorted| && sorted[i] == s.store[f];
    LoadAs(full.book.epsilon, sorted, i);
    RunKeys(Progress(Rebuilt(sync, full.book.epsilon), [], None), StableSort(sync.batch, EventLe()), f);
  }

  // ---- All runs of the job

  /** Every run also read back the summaries of the hedges that the runs before it had stored. */
  ghost predicate FaithfulHistories(epsilon: real, syncs: seq<Sync>)
    decreases |syncs|
  {
    syncs != [] ==>
      var before := SyncAll(epsilon, syncs[..|syncs| - 1]);
      && FaithfulHistories(epsilon, syncs[..|syncs| - 1])
      && (before.Ok? ==> IsHistory(syncs[|syncs| - 1].history, before.value.hedges, syncs[|syncs| - 1].batch))
  }

  /** Before run `i` the order was stored as finished. */
  ghost predicate FinishedBefore(epsilon: real, syncs: seq<Sync>, i: nat, f: int)
    requires i <= |syncs|
  {
    var before := SyncAll(epsilon, syncs[..i]);
    before.Ok? && f in before.value.store && before.value.store[f].state != Pending
  }

  ghost predicate NamedIn(batch: seq<MatchEvent>, f: int) { exists ev :: ev in batch && Named(ev, f) }

  /** Some run hedged against the order after an earlier one had stored it as finished. */
  ghost predicate Stale(epsilon: real, syncs: seq<Sync>, f: int) {
    exists i: nat :: i < |syncs| && FinishedBefore(epsilon, syncs, i, f) && NamedIn(syncs[i].batch, f)
  }

  lemma StaleGrows(epsilon: real, init: seq<Sync>, last: Sync, f: int)
    ensures Stale(epsilon, init + [last], f)
            <==> Stale(epsilon, init, f) || (FinishedBefore(epsilon, init, |init|, f) && NamedIn(last.batch, f))
  {
    hide NamedIn;
    var syncs := init + [last];
    assert syncs[..|init|] == init[..|init|];
    if Stale(epsilon, syncs, f) {
      var i: nat :| i < |syncs| && FinishedBefore(epsilon, syncs, i, f) && NamedIn(syncs[i].batch, f);
      assert i < |init| ==> syncs[..i] == init[..i] && syncs[i] == init[i];
    }
    if Stale(epsilon, init, f) {
      var i: nat :| i < |init| && FinishedBefore(epsilon, init, i, f) && NamedIn(init[i].batch, f);
      assert syncs[..i] == init[..i] && syncs[i] == init[i];
    }
    if FinishedBefore(epsilon, init, |init|, f) && NamedIn(last.batch, f) {
      assert FinishedBefore(epsilon, syncs, |init|, f) && syncs[|init|] == last;
    }
  }

  /** What the store shows of one order, against the never-restarted engine. */
  ghost predicate MetadataOk(store: Store, full: Engine, stale: bool, f: int) {
    if f !in store then !stale
    else if stale then
      && store[f].state != Pending && f in full.book.orders
      && store[f].hedge.closeCount < full.book.orders[f].hedge.closeCount
    else f in full.book.orders && store[f].hedge == full.book.orders[f].hedge
  }

  /** A finished order keeps its stored metadata; the full engine moves on exactly when a hedge names it. */
  lemma FinishedMetadata(full: Engine, batch: seq<MatchEvent>, seen: set<Sighting>, f: int)
    requires Linked(full.book) && Knows(full, seen) && Before(seen, batch) && ValidBatch(batch)
    requires f in full.book.orders && Apply(full, batch).error.None?
    ensures var p := Apply(full, batch).engine;
            && f in p.book.orders
            && (if NamedIn(batch, f) then p.book.orders[f].hedge.closeCount > full.book.orders[f].hedge.closeCount
                else p.book.orders[f].hedge == full.book.orders[f].hedge)
  {
    var sorted := StableSort(batch, EventLe());
    var p0 := Progress(full, [], None);
    SortPermutes(batch, EventLe());
    RunKeys(p0, sorted, f);
    if NamedIn(batch, f) {
      SameSightings(sorted, batch);
      CountGrows(full, sorted, batch, seen, f);
    } else {
      assert forall ev :: ev in sorted ==> !Named(ev, f);
      RunUnnamed(p0, sorted, f);
    }
  }

  lemma CountGrows(full: Engine, sorted: seq<MatchEvent>, batch: seq<MatchEvent>, seen: set<Sighting>, f: int)
    requires Linked(full.book) && Knows(full, seen) && Before(seen, batch) && NamedIn(batch, f)
    requires (forall ev :: ev in sorted <==> ev in batch) && (forall ev :: ev in sorted ==> UnhedgedEvent(ev))
    requires f in full.book.orders && Run(Progress(full, [], None), sorted).error.None?
    requires f in Run(Progress(full, [], None), sorted).engine.book.orders
    ensures Run(Progress(full, [], None), sorted).engine.book.orders[f].hedge.closeCount
            > full.book.orders[f].hedge.closeCount
  {
    var ev :| ev in batch && Named(ev, f);
    var s := Sighting(f, TimingOf(ev.futures), ev.futures.fillTs);
    assert s in SightingsIn(sorted);
    RunLogs(Progress(full, [], None), seen, sorted);
    IdsGrow(seen, SightingsIn(sorted), f, s);
    CountShown(full, seen, f);
    CountShown(Run(Progress(full, [], None), sorted).engine, seen + SightingsIn(sorted), f);
  }

  lemma CountShown(e: Engine, seen: set<Sighting>, f: int)
    requires CountOk(e, seen) && f in e.book.orders
    ensures e.book.orders[f].hedge.closeCount == |IdsOf(seen, f)|
  {}

  /** One more run of the job. */
  lemma SyncMetadata(full: Engine, s: Synced, sync: Sync, seen: set<Sighting>, stale: bool, f: int)
    requires Started(full, s, sync, seen) && PendingShown(full, s.store) && ValidBatch(sync.batch)
    requires Apply(full, sync.batch).error.None? && MetadataOk(s.store, full, stale, f)
    ensures var r := SyncOnce(s, full.book.epsilon, sync);
            var finished := f in s.store && s.store[f].state != Pending;
            r.Ok? && MetadataOk(r.value.store, Apply(full, sync.batch).engine,
                                stale || (finished && NamedIn(sync.batch, f)), f)
  {
    BatchMetadata(full, s, sync, seen, f);
    if f in s.store {
      StoreGrows(s, full.book.epsilon, sync, f);
    }
    if f in s.store && s.store[f].state != Pending {
      FinishedMetadata(full, sync.batch, seen, f);
    }
    hide Started, PendingShown, ValidBatch, Apply, SyncOnce, NamedIn;
  }

  lemma StoreGrows(s: Synced, epsilon: real, sync: Sync, f: int)
    requires SyncOnce(s, epsilon, sync).Ok? && f in s.store
    ensures f in SyncOnce(s, epsilon, sync).value.store
  {
    var live := New(sync.pending, epsilon).value;
    SameQueuesLinked(live.book, SeedAll(live, sync.history).book);
  }

  /** What the whole history of the job has to satisfy. */
  ghost predicate JobRan(epsilon: real, syncs: seq<Sync>) {
    && epsilon >= 0.0 && Faithful(epsilon, syncs) && FaithfulHistories(epsilon, syncs) && InOrder(Batches(syncs))
    && (forall ev :: ev in Flatten(Batches(syncs)) ==> UnmatchedEvent(ev) && UnhedgedEvent(ev) && Proper(ev))
    && UniqueIds(Flatten(Batches(syncs)))
    && Apply(EmptyEngine(epsilon), Flatten(Batches(syncs))).error.None?
  }

  lemma PartsOf(xs: seq<MatchEvent>, batch: seq<MatchEvent>)
    requires UniqueIds(xs + batch) && forall ev :: ev in xs + batch ==> UnhedgedEvent(ev) && Proper(ev)
    ensures UniqueIds(xs) && ValidBatch(batch) && forall ev :: ev in xs ==> UnhedgedEvent(ev) && Proper(ev)
  {
    hide UnhedgedEvent, Proper;
    var all := xs + batch;
    assert forall ev :: ev in xs || ev in batch ==> ev in all;
    assert forall i :: 0 <= i < |xs| ==> all[i] == xs[i];
    assert forall i :: 0 <= i < |batch| ==> all[|xs| + i] == batch[i];
  }

  lemma JobRanBefore(epsilon: real, init: seq<Sync>, last: Sync)
    requires JobRan(epsilon, init + [last])
    ensures var xs := Flatten(Batches(init));
            && JobRan(epsilon, init) && AllLe(xs, last.batch, EventLe()) && UniqueIds(xs + last.batch)
            && Flatten(Batches(init + [last])) == xs + last.batch && ValidBatch(last.batch)
  {
    var syncs := init + [last];
    var batches := Batches(syncs);
    assert syncs[..|syncs| - 1] == init;
    assert batches == Batches(init) + [last.batch] && batches[..|batches| - 1] == Batches(init);
    var xs := Flatten(Batches(init));
    hide Apply, UniqueIds, UnmatchedEvent, UnhedgedEvent, Proper, ValidBatch, SyncAll, IsSnapshot, IsHistory, AllLe;
    assert Flatten(batches) == xs + last.batch;
    EarlierBatches(epsilon, batches);
    PartsOf(xs, last.batch);
  }

  /** The store against the never-restarted engine, for every order. */
  ghost predicate AllMetadata(epsilon: real, syncs: seq<Sync>)
    requires epsilon >= 0.0
  {
    SyncAll(epsilon, syncs).Ok?
    && forall f: int :: MetadataOk(SyncAll(epsilon, syncs).value.store,
                                   Apply(EmptyEngine(epsilon), Flatten(Batches(syncs))).engine,
                                   Stale(epsilon, syncs, f), f)
  }

  lemma NoRuns(epsilon: real)
    requires epsilon >= 0.0
    ensures AllMetadata(epsilon, [])
  {}

  lemma {:induction false} JobMetadata(epsilon: real, syncs: seq<Sync>)
    requires JobRan(epsilon, syncs)
    ensures epsilon >= 0.0 && AllMetadata(epsilon, syncs)
    decreases |syncs|
  {
    if syncs == [] {
      NoRuns(epsilon);
    } else {
      var init, last := syncs[..|syncs| - 1], syncs[|syncs| - 1];
      InitAndLast(syncs);
      hide *;
      JobRanBefore(epsilon, init, last);
      JobMetadata(epsilon, init);
      JobStep(epsilon, init, last);
    }
    JobRanOk(epsilon, syncs);
  }

  lemma PendingAreShown(epsilon: real, syncs: seq<Sync>)
    requires epsilon >= 0.0 && AllMetadata(epsilon, syncs)
    ensures PendingShown(Apply(EmptyEngine(epsilon), Flatten(Batches(syncs))).engine,
                         SyncAll(epsilon, syncs).value.store)
  {
    hide Stale, SyncAll, Apply;
    var store, full := SyncAll(epsilon, syncs).value.store, Apply(EmptyEngine(epsilon), Flatten(Batches(syncs))).engine;
    forall g | g in store && store[g].state == Pending
      ensures g in full.book.orders && store[g].hedge == full.book.orders[g].hedge
    {
      assert MetadataOk(store, full, Stale(epsilon, syncs, g), g);
    }
  }

  /** The never-restarted engine and the job, just before the last run. */
  lemma JobStarts(epsilon: real, init: seq<Sync>, last: Sync)
    requires JobRan(epsilon, init + [last]) && JobRan(epsilon, init)
    requires var xs := Flatten(Batches(init));
             AllLe(xs, last.batch, EventLe()) && UniqueIds(xs + last.batch)
    ensures SyncAll(epsilon, init).Ok?
    ensures var xs := Flatten(Batches(init));
            var full := Apply(EmptyEngine(epsilon), xs).engine;
            Started(full, SyncAll(epsilon, init).value, last, SightingsIn(xs)) && full.book.epsilon == epsilon
  {
    var xs := Flatten(Batches(init));
    assert (init + [last])[..|init|] == init;
    SyncMatchesOneShot(epsilon, init);
    AppliedIsSorted(epsilon, xs);
    OneShotKnows(epsilon, xs);
    EarlierAreBefore(xs, last.batch, last.batch);
    EmptyIsGood(epsilon);
  }

  lemma LastRun(epsilon: real, init: seq<Sync>, last: Sync)
    requires SyncAll(epsilon, init).Ok?
    ensures SyncAll(epsilon, init + [last]) == SyncOnce(SyncAll(epsilon, init).value, epsilon, last)
  {
    assert (init + [last])[..|init|] == init;
  }

  lemma FinishedNow(epsilon: real, init: seq<Sync>, f: int)
    requires SyncAll(epsilon, init).Ok?
    ensures FinishedBefore(epsilon, init, |init|, f)
            <==> f in SyncAll(epsilon, init).value.store && SyncAll(epsilon, init).value.store[f].state != Pending
  {
    assert init[..|init|] == init;
  }

  lemma MetadataOf(epsilon: real, syncs: seq<Sync>, f: int)
    requires epsilon >= 0.0 && AllMetadata(epsilon, syncs)
    ensures MetadataOk(SyncAll(epsilon, syncs).value.store, Apply(EmptyEngine(epsilon), Flatten(Batches(syncs))).engine,
                       Stale(epsilon, syncs, f), f)
  {
    hide MetadataOk, Stale, Apply;
  }

  /** The batch as it goes through the never-restarted engine. */
  lemma OneShotStep(epsilon: real, xs: seq<MatchEvent>, batch: seq<MatchEvent>)
    requires epsilon >= 0.0 && AllLe(xs, batch, EventLe()) && Apply(EmptyEngine(epsilon), xs + batch).error.None?
    ensures var one := Apply(EmptyEngine(epsilon), xs);
            && Apply(one.engine, batch).error.None?
            && Apply(EmptyEngine(epsilon), xs + batch).engine == Apply(one.engine, batch).engine
  {
    EmptyIsGood(epsilon);
    ApplySplit(EmptyEngine(epsilon), xs, batch);
    hide Apply;
  }

  lemma JobRanOk(epsilon: real, syncs: seq<Sync>)
    requires JobRan(epsilon, syncs)
    ensures epsilon >= 0.0 && Apply(EmptyEngine(epsilon), Flatten(Batches(syncs))).error.None?
  {}

  lemma JobStep(epsilon: real, init: seq<Sync>, last: Sync)
    requires JobRan(epsilon, init + [last]) && JobRan(epsilon, init) && ValidBatch(last.batch)
    requires var xs := Flatten(Batches(init));
             && AllLe(xs, last.batch, EventLe()) && UniqueIds(xs + last.batch)
             && Flatten(Batches(init + [last])) == xs + last.batch
    requires epsilon >= 0.0 && AllMetadata(epsilon, init)
    ensures AllMetadata(epsilon, init + [last])
  {
    var xs := Flatten(Batches(init));
    var s := SyncAll(epsilon, init).value;
    var one := Apply(EmptyEngine(epsilon), xs);
    hide Apply, SyncAll, JobRan, Started, PendingShown, ValidBatch, Stale, MetadataOk, SyncOnce, NamedIn;
    hide FinishedBefore;
    JobRanOk(epsilon, init + [last]);
    OneShotStep(epsilon, xs, last.batch);
    JobStarts(epsilon, init, last);
    PendingAreShown(epsilon, init);
    LastRun(epsilon, init, last);
    SyncSucceeds(one.engine, s, last, SightingsIn(xs));
    forall f: int
      ensures MetadataOk(SyncAll(epsilon, init + [last]).value.store,
                         Apply(EmptyEngine(epsilon), Flatten(Batches(init + [last]))).engine,
                         Stale(epsilon, init + [last], f), f)
    {
      MetadataOf(epsilon, init, f);
      SyncMetadata(one.engine, s, last, SightingsIn(xs), Stale(epsilon, init, f), f);
      StaleGrows(epsilon, init, last, f);
      FinishedNow(epsilon, init, f);
    }
  }

  lemma SyncSucceeds(full: Engine, s: Synced, sync: Sync, seen: set<Sighting>)
    requires Started(full, s, sync, seen) && Apply(full, sync.batch).error.None?
    ensures SyncOnce(s, full.book.epsilon, sync).Ok?
  {
    SyncOnceTracks(full, s, sync);
  }

  /**
   Metadata across restarts: every stored order shows what the never-restarted engine shows of its hedges, unless a
   run hedged against it after an earlier run had stored it as finished; then it shows too few. A pending order
   always shows the same.
   */
  lemma StoredMetadataIff(epsilon: real, syncs: seq<Sync>, f: int)
    requires JobRan(epsilon, syncs)
    requires SyncAll(epsilon, syncs).Ok? && f in SyncAll(epsilon, syncs).value.store
    ensures var o := SyncAll(epsilon, syncs).value.store[f];
            var one := Apply(EmptyEngine(epsilon), Flatten(Batches(syncs))).engine;
            && f in one.book.orders
            && (o.hedge == one.book.orders[f].hedge <==> !Stale(epsilon, syncs, f))
            && (o.state == Pending ==> o.hedge == one.book.orders[f].hedge)
            && o.hedge.closeCount <= one.book.orders[f].hedge.closeCount
  {
    JobMetadata(epsilon, syncs);
    MetadataOf(epsilon, syncs, f);
    hide Apply, SyncAll, JobRan, Stale, AllMetadata;
  }

  // ---- What the theorem assumes of the stored hedges can always be had

  lemma {:induction false} LeastSighting(seen: set<Sighting>) returns (s: Sighting)
    requires seen != {}
    ensures s in seen && forall t :: t in seen ==> KeyLe(TimingKey(s.timing), TimingKey(t.timing))
    decreases |seen|
  {
    s :| s in seen;
    if seen != {s} {
      assert seen - {s} != {};
      var t := LeastSighting(seen - {s});
      s := if KeyLe(TimingKey(s.timing), TimingKey(t.timing)) then s else t;
    }
  }

  lemma {:induction false} LatestFill(seen: set<Sighting>) returns (t: Option<int>)
    ensures match t
            case None => forall s :: s in seen ==> s.fill.None?
            case Some(x) => (exists s :: s in seen && s.fill == Some(x))
                            && (forall s :: s in seen && s.fill.Some? ==> s.fill.value <= x)
    decreases |seen|
  {
    t := None;
    if seen != {} {
      var s :| s in seen;
      t := LatestFill(seen - {s});
      if s.fill.Some? && (t.None? || s.fill.value > t.value) {
        t := s.fill;
      }
    }
  }

  lemma SummaryExists(seen: set<Sighting>, f: int) returns (h: HedgeHistory)
    requires exists s :: s in seen && s.fkey == f
    ensures h.mainFkey == f && Summarizes(h, seen)
  {
    var own := set s | s in seen && s.fkey == f;
    assert own != {} by {
      var s :| s in seen && s.fkey == f;
      assert s in own;
    }
    var first := LeastSighting(own);
    var last := LatestFill(own);
    h := HedgeHistory(f, first.timing, last, |IdsOf(seen, f)|);
    hide IdsOf, KeyLe, TimingKey;
    assert first in seen && first.fkey == f;
  }

  lemma {:induction false} SummariesExist(seen: set<Sighting>, keys: set<int>) returns (history: seq<HedgeHistory>)
    requires forall f :: f in keys ==> exists s :: s in seen && s.fkey == f
    ensures forall k :: 0 <= k < |history| ==> history[k].mainFkey in keys && Summarizes(history[k], seen)
    ensures forall a, b :: 0 <= a < b < |history| ==> history[a].mainFkey != history[b].mainFkey
    ensures forall f :: f in keys ==> Covers(history, f)
    decreases |keys|
  {
    history := [];
    if keys != {} {
      hide Summarizes;
      var f := Pick(keys);
      var rest := SummariesExist(seen, keys - {f});
      var h := SummaryExists(seen, f);
      history := rest + [h];
      forall g | g in keys ensures Covers(history, g) {
        if g != f {
          assert g in keys - {f};
        }
        CoversMore(rest, h, g);
      }
    }
  }

  lemma CoversMore(rest: seq<HedgeHistory>, h: HedgeHistory, g: int)
    requires Covers(rest, g) || h.mainFkey == g
    ensures Covers(rest + [h], g)
  {
    if Covers(rest, g) {
      var k :| 0 <= k < |rest| && rest[k].mainFkey == g;
      assert (rest + [h])[k].mainFkey == g;
    } else {
      assert (rest + [h])[|rest|].mainFkey == g;
    }
  }

  /** Whatever hedges are stored and whatever arrives, there are summaries for the job to read back. */
  lemma HistoryExists(hedges: seq<HedgeResult>, batch: seq<MatchEvent>) returns (history: seq<HedgeHistory>)
    ensures IsHistory(history, hedges, batch)
  {
    var seen := HedgeSightings(hedges);
    hide HedgeSightings, Summarizes, Arrives, Covers;
    var keys := set s | s in seen && Arrives(batch, s.fkey) :: s.fkey;
    history := SummariesExist(seen, keys);
    forall k | 0 <= k < |history| ensures Arrives(batch, history[k].mainFkey) {
      assert history[k].mainFkey in keys;
    }
    forall s | s in seen && Arrives(batch, s.fkey) ensures Covers(history, s.fkey) {
      assert s.fkey in keys;
    }
  }

  lemma HistoriesExtend(epsilon: real, syncs: seq<Sync>, sync: Sync)
    requires FaithfulHistories(epsilon, syncs)
    requires SyncAll(epsilon, syncs).Ok? ==> IsHistory(sync.history, SyncAll(epsilon, syncs).value.hedges, sync.batch)
    ensures FaithfulHistories(epsilon, syncs + [sync])
  {
    assert (syncs + [sync])[..|syncs|] == syncs;
  }

  /** What the events of the job have to satisfy. */
  ghost predicate ValidEvents(events: seq<MatchEvent>) {
    UniqueIds(events) && forall ev :: ev in events ==> UnmatchedEvent(ev) && UnhedgedEvent(ev) && Proper(ev)
  }

  lemma ValidEarlier(xs: seq<MatchEvent>, ys: seq<MatchEvent>)
    requires ValidEvents(xs + ys)
    ensures ValidEvents(xs)
  {
    hide UnmatchedEvent, UnhedgedEvent, Proper;
    assert forall ev :: ev in xs ==> ev in xs + ys;
    assert forall i :: 0 <= i < |xs| ==> (xs + ys)[i] == xs[i];
  }

  lemma FaithfulRunReads(epsilon: real, syncs: seq<Sync>, batch: seq<MatchEvent>) returns (sync: Sync)
    requires epsilon >= 0.0 && Faithful(epsilon, syncs) && FaithfulHistories(epsilon, syncs) && InOrder(Batches(syncs))
    requires forall ev :: ev in Flatten(Batches(syncs)) ==> UnmatchedEvent(ev)
    requires Apply(EmptyEngine(epsilon), Flatten(Batches(syncs))).error.None?
    ensures sync.batch == batch
    ensures Faithful(epsilon, syncs + [sync]) && FaithfulHistories(epsilon, syncs + [sync])
    ensures Batches(syncs + [sync]) == Batches(syncs) + [batch]
  {
    EmptyIsGood(epsilon);
    hide *;
    var pending := ReadBack(epsilon, syncs);
    var history := HistoryExists(SyncAll(epsilon, syncs).value.hedges, batch);
    sync := Sync(pending, history, batch);
    FaithfulExtend(epsilon, syncs, sync);
    HistoriesExtend(epsilon, syncs, sync);
  }

  /** Whatever valid events arrive in order, there is a history of the job that the theorem speaks about. */
  lemma {:induction false} JobRunExists(epsilon: real, batches: seq<seq<MatchEvent>>) returns (syncs: seq<Sync>)
    requires epsilon >= 0.0 && InOrder(batches) && ValidEvents(Flatten(batches))
    requires Apply(EmptyEngine(epsilon), Flatten(batches)).error.None?
    ensures Batches(syncs) == batches && JobRan(epsilon, syncs)
    decreases |batches|
  {
    EmptyIsGood(epsilon);
    syncs := [];
    if batches != [] {
      var init, last := batches[..|batches| - 1], batches[|batches| - 1];
      EarlierBatches(epsilon, batches);
      ValidEarlier(Flatten(init), last);
      InitAndLast(batches);
      var before := JobRunExists(epsilon, init);
      var sync := FaithfulRunReads(epsilon, before, last);
      syncs := before + [sync];
    }
    JobRanIs(epsilon, syncs, batches);
  }

  lemma JobRanIs(epsilon: real, syncs: seq<Sync>, batches: seq<seq<MatchEvent>>)
    requires epsilon >= 0.0 && InOrder(batches) && ValidEvents(Flatten(batches))
    requires Apply(EmptyEngine(epsilon), Flatten(batches)).error.None?
    requires Batches(syncs) == batches && Faithful(epsilon, syncs) && FaithfulHistories(epsilon, syncs)
    ensures JobRan(epsilon, syncs)
  {}
}
