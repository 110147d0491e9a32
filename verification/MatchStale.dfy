/**
 Stored metadata does go stale: whatever history the job has, the next futures order that names an order stored as
 finished leaves the stored metadata behind. Such a history exists for every tolerance.
 */
module MatchStale {
  import opened Prelude
  import opened StableSorting
  import opened MatchBook
  import opened MatchInvariants
  import opened MatchRun
  import opened MatchReachable
  import opened MatchHedges
  import opened MatchRestart
  import opened MatchMetadata

  // ---- Any later hedge of a finished order

  predicate Accepted(o: FuturesOrder, epsilon: real) {
    o.amount >= -epsilon && (o.amount > epsilon ==> o.fillTs.Some?)
  }

  /** A futures order the job has not seen, later than everything it has. */
  ghost predicate ArrivesNext(o: FuturesOrder, xs: seq<MatchEvent>) {
    && o.sourceTs > I64_MIN && AllLe(xs, [Futures(o)], EventLe())
    && forall ev :: ev in xs && ev.Futures? ==> ev.futures.clientOrderId != o.clientOrderId
  }

  lemma OneMoreApplied(epsilon: real, xs: seq<MatchEvent>, o: FuturesOrder)
    requires epsilon >= 0.0 && AllLe(xs, [Futures(o)], EventLe()) && Accepted(o, epsilon)
    requires Apply(EmptyEngine(epsilon), xs).error.None?
    ensures Apply(EmptyEngine(epsilon), xs + [Futures(o)]).error.None?
  {
    EmptyIsGood(epsilon);
    var p0 := Progress(EmptyEngine(epsilon), [], None);
    var ev := Futures(o);
    SortConcat(xs, [ev], EventLe());
    SortedUnchanged([ev], EventLe());
    RunConcat(p0, StableSort(xs, EventLe()), [ev]);
    RunEpsilon(p0, StableSort(xs, EventLe()));
    var p := Run(p0, StableSort(xs, EventLe()));
    hide AddFutures, Logged;
    assert Run(p, [ev]) == Step(p, ev);
  }

  lemma ValidMore(xs: seq<MatchEvent>, o: FuturesOrder)
    requires ValidEvents(xs) && ArrivesNext(o, xs)
    ensures ValidEvents(xs + [Futures(o)])
  {}

  lemma OneMoreBatch(batches: seq<seq<MatchEvent>>, batch: seq<MatchEvent>)
    requires InOrder(batches) && AllLe(Flatten(batches), batch, EventLe())
    ensures InOrder(batches + [batch]) && Flatten(batches + [batch]) == Flatten(batches) + batch
  {
    assert (batches + [batch])[..|batches|] == batches;
  }

  /** What a history of the job guarantees, piece by piece. */
  lemma JobRanParts(epsilon: real, syncs: seq<Sync>)
    requires JobRan(epsilon, syncs)
    ensures epsilon >= 0.0 && Faithful(epsilon, syncs) && FaithfulHistories(epsilon, syncs)
    ensures InOrder(Batches(syncs)) && ValidEvents(Flatten(Batches(syncs)))
    ensures forall ev :: ev in Flatten(Batches(syncs)) ==> UnmatchedEvent(ev)
    ensures Apply(EmptyEngine(epsilon), Flatten(Batches(syncs))).error.None?
  {}

  /** The job can run once more, on a batch of just that order. */
  lemma NextRun(epsilon: real, syncs: seq<Sync>, o: FuturesOrder) returns (sync: Sync)
    requires JobRan(epsilon, syncs) && ArrivesNext(o, Flatten(Batches(syncs))) && Accepted(o, epsilon)
    ensures sync.batch == [Futures(o)] && JobRan(epsilon, syncs + [sync])
  {
    var batches, batch := Batches(syncs), [Futures(o)];
    JobRanParts(epsilon, syncs);
    ValidMore(Flatten(batches), o);
    OneMoreApplied(epsilon, Flatten(batches), o);
    assert AllLe(Flatten(batches), batch, EventLe());
    hide *;
    OneMoreBatch(batches, batch);
    sync := FaithfulRunReads(epsilon, syncs, batch);
    JobRanIs(epsilon, syncs + [sync], batches + [batch]);
  }

  /** The store has an order that is no longer pending. */
  ghost predicate Finished(epsilon: real, syncs: seq<Sync>, f: int) {
    SyncAll(epsilon, syncs).Ok? && f in SyncAll(epsilon, syncs).value.store
    && SyncAll(epsilon, syncs).value.store[f].state != Pending
  }

  /** What the store shows of an order's hedges is not what the never-restarted engine shows. */
  ghost predicate ShowsOther(epsilon: real, syncs: seq<Sync>, f: int)
    requires epsilon >= 0.0
  {
    var one := Apply(EmptyEngine(epsilon), Flatten(Batches(syncs))).engine;
    && SyncAll(epsilon, syncs).Ok? && f in SyncAll(epsilon, syncs).value.store && f in one.book.orders
    && SyncAll(epsilon, syncs).value.store[f].hedge != one.book.orders[f].hedge
  }

  /**
   Whatever the job has seen, a finished order goes stale with the next accepted futures order that names it, of
   any amount.
   */
  lemma NextHedgeGoesStale(epsilon: real, syncs: seq<Sync>, f: int, o: FuturesOrder) returns (sync: Sync)
    requires JobRan(epsilon, syncs) && Finished(epsilon, syncs, f) && o.mainFkey == Some(f)
    requires ArrivesNext(o, Flatten(Batches(syncs))) && Accepted(o, epsilon)
    ensures sync.batch == [Futures(o)] && JobRan(epsilon, syncs + [sync])
    ensures Stale(epsilon, syncs + [sync], f) && epsilon >= 0.0 && ShowsOther(epsilon, syncs + [sync], f)
  {
    sync := NextRun(epsilon, syncs, o);
    FinishedNow(epsilon, syncs, f);
    assert Named(Futures(o), f) && NamedIn(sync.batch, f);
    var all := syncs + [sync];
    hide *;
    StaleGrows(epsilon, syncs, sync, f);
    JobMetadata(epsilon, all);
    StillStored(epsilon, syncs, sync, f);
    StoredMetadataIff(epsilon, all, f);
    DiffersIs(epsilon, all, f);
  }

  lemma StillStored(epsilon: real, syncs: seq<Sync>, sync: Sync, f: int)
    requires epsilon >= 0.0 && Finished(epsilon, syncs, f) && AllMetadata(epsilon, syncs + [sync])
    ensures SyncAll(epsilon, syncs + [sync]).Ok? && f in SyncAll(epsilon, syncs + [sync]).value.store
  {
    LastRun(epsilon, syncs, sync);
    hide SyncOnce, SyncAll, Stale, MetadataOk, Apply;
    StoreGrows(SyncAll(epsilon, syncs).value, epsilon, sync, f);
  }

  lemma DiffersIs(epsilon: real, syncs: seq<Sync>, f: int)
    requires epsilon >= 0.0 && SyncAll(epsilon, syncs).Ok? && f in SyncAll(epsilon, syncs).value.store
    requires var one := Apply(EmptyEngine(epsilon), Flatten(Batches(syncs))).engine;
             f in one.book.orders && SyncAll(epsilon, syncs).value.store[f].hedge != one.book.orders[f].hedge
    ensures ShowsOther(epsilon, syncs, f)
  {}

  // ---- A history with a finished order

  /** A buy of `1 + epsilon`. */
  function Bought(epsilon: real): MarginOrder {
    MarginOrder(1, "S", Buy, 10, 1, NO_HEDGE, epsilon + 1.0, epsilon + 1.0, 0.0, 0.0, 0.0, Pending)
  }

  /** A futures order that names the buy. */
  function Hedge(id: int, time: int, source: int, fill: Option<int>, amount: real): FuturesOrder {
    FuturesOrder(id, Some(1), "S", Sell, time, None, None, fill, source, amount, None)
  }

  function FirstBatch(epsilon: real): seq<MatchEvent> {
    [Margin(Bought(epsilon)), Futures(Hedge(5, 20, 2, Some(21), epsilon + 1.0))]
  }

  /** The book once the buy has arrived. */
  function AfterBuy(epsilon: real): Book {
    Book(epsilon, map[1 := Bought(epsilon)], map[("S", Buy) := [1]])
  }

  lemma BuyArrives(epsilon: real)
    requires epsilon >= 0.0
    ensures Linked(EmptyEngine(epsilon).book) && Linked(AfterBuy(epsilon))
    ensures Step(Progress(EmptyEngine(epsilon), [], None), Margin(Bought(epsilon)))
            == Progress(Engine(AfterBuy(epsilon), EmptyEngine(epsilon).log), [], None)
  {
    var b, o := EmptyEngine(epsilon).book, Bought(epsilon);
    assert WithKnownHedges(EmptyEngine(epsilon).log, o) == o && Fresh(o) == o;
    AddMarginShape(b, o);
    var b1 := b.(orders := b.orders[1 := o]);
    assert b1 == Book(epsilon, map[1 := o], map[]);
    NetLoopUnfolds(b1, 1, ("S", Sell));
    assert Queue(b1, ("S", Buy)) + [1] == [1];
    assert PushBack(b1, 1, ("S", Buy)) == AfterBuy(epsilon);
    assert !RejectsMargin(b, o);
  }

  /** One fill hedges the whole buy. */
  lemma BuyHedged(b: Book, epsilon: real)
    requires Linked(b) && epsilon >= 0.0 && b.epsilon == epsilon && b.queues == AfterBuy(epsilon).queues
    requires 1 in b.orders && b.orders[1].remaining == epsilon + 1.0 && b.orders[1].camount == 0.0
    ensures var r := AddFutures(b, Hedge(5, 20, 2, Some(21), epsilon + 1.0)).0;
            1 in r.orders && r.orders[1].state != Pending
  {
    var f, k := Hedge(5, 20, 2, Some(21), epsilon + 1.0), ("S", Buy);
    var h := HedgeStart(b, f);
    assert Queue(b, k) == [1] && h.left == epsilon + 1.0;
    HedgeLoopUnfolds(h, f, k);
    HedgeLoopUnfolds(HedgeStep(h, f, k), f, k);
  }

  /** After the first batch the buy is finished. */
  lemma BuyFinishes(epsilon: real)
    requires epsilon >= 0.0
    ensures var p := Apply(EmptyEngine(epsilon), FirstBatch(epsilon));
            p.error.None? && 1 in p.engine.book.orders && p.engine.book.orders[1].state != Pending
  {
    EmptyIsGood(epsilon);
    BuyArrives(epsilon);
    FirstInOrder(epsilon);
    var events := FirstBatch(epsilon);
    var p0 := Progress(EmptyEngine(epsilon), [], None);
    var p1 := Step(p0, events[0]);
    HedgeArrives(epsilon);
    hide *;
    TwoSteps(p0, events[0], events[1]);
    assert events == [events[0], events[1]];
  }

  lemma FirstInOrder(epsilon: real)
    ensures StableSort(FirstBatch(epsilon), EventLe()) == FirstBatch(epsilon)
  {
    SortedUnchanged(FirstBatch(epsilon), EventLe());
  }

  lemma TwoSteps(p: Progress, x: MatchEvent, y: MatchEvent)
    requires Linked(p.engine.book)
    ensures Run(p, [x, y]) == Step(Step(p, x), y)
  {
    hide Step;
    assert [x, y][1..] == [y];
    assert Run(Step(p, x), [y]) == Step(Step(p, x), y);
  }

  lemma HedgeArrives(epsilon: real)
    requires epsilon >= 0.0 && Linked(AfterBuy(epsilon))
    ensures var p := Progress(Engine(AfterBuy(epsilon), EmptyEngine(epsilon).log), [], None);
            var r := Step(p, Futures(Hedge(5, 20, 2, Some(21), epsilon + 1.0)));
            r.error.None? && 1 in r.engine.book.orders && r.engine.book.orders[1].state != Pending
  {
    var f := Hedge(5, 20, 2, Some(21), epsilon + 1.0);
    var before := Engine(AfterBuy(epsilon), EmptyEngine(epsilon).log);
    var e := Logged(before, f);
    BuyLogged(epsilon, f);
    SameQueuesLinked(before.book, e.book);
    BuyHedged(e.book, epsilon);
    hide AddFutures, Logged;
  }

  lemma BuyLogged(epsilon: real, f: FuturesOrder)
    ensures var r := Logged(Engine(AfterBuy(epsilon), EmptyEngine(epsilon).log), f).book;
            && r.queues == AfterBuy(epsilon).queues && 1 in r.orders
            && r.orders[1].remaining == epsilon + 1.0 && r.orders[1].camount == 0.0
  {}

  /** A first batch that finishes an order, and one that names it. */
  lemma FinishedThenNamed(epsilon: real, batch: seq<MatchEvent>, f: int, late: FuturesOrder) returns (syncs: seq<Sync>)
    requires epsilon >= 0.0 && ValidEvents(batch) && late.mainFkey == Some(f)
    requires ArrivesNext(late, batch) && Accepted(late, epsilon)
    requires var p := Apply(EmptyEngine(epsilon), batch);
             p.error.None? && f in p.engine.book.orders && p.engine.book.orders[f].state != Pending
    ensures JobRan(epsilon, syncs) && Stale(epsilon, syncs, f) && ShowsOther(epsilon, syncs, f)
    ensures Batches(syncs) == [batch, [Futures(late)]]
  {
    hide *;
    OneBatch(batch);
    var before := JobRunExists(epsilon, [batch]);
    FinishedWhenStored(epsilon, before, f);
    var sync := NextHedgeGoesStale(epsilon, before, f, late);
    syncs := before + [sync];
    TwoBatches(before, sync);
  }

  /** For every tolerance there is a history in which the store no longer shows what a never-restarted engine shows. */
  lemma StoreGoesStale(epsilon: real) returns (syncs: seq<Sync>)
    requires epsilon >= 0.0
    ensures JobRan(epsilon, syncs) && Stale(epsilon, syncs, 1) && ShowsOther(epsilon, syncs, 1)
    ensures Batches(syncs) == [FirstBatch(epsilon), [Futures(Hedge(6, 30, 3, None, 0.0))]]
  {
    var late := Hedge(6, 30, 3, None, 0.0);
    assert late.mainFkey == Some(1);
    hide *;
    BuyFinishes(epsilon);
    FirstIsValid(epsilon);
    LateArrivesNext(epsilon);
    syncs := FinishedThenNamed(epsilon, FirstBatch(epsilon), 1, late);
  }

  lemma FirstIsValid(epsilon: real)
    ensures ValidEvents(FirstBatch(epsilon))
  {}

  lemma LateArrivesNext(epsilon: real)
    requires epsilon >= 0.0
    ensures var late := Hedge(6, 30, 3, None, 0.0);
            ArrivesNext(late, FirstBatch(epsilon)) && Accepted(late, epsilon)
  {}

  lemma OneBatch(batch: seq<MatchEvent>)
    ensures InOrder([batch]) && Flatten([batch]) == batch
  {
    assert [batch][..0] == [];
  }

  lemma TwoBatches(before: seq<Sync>, sync: Sync)
    ensures Batches(before + [sync]) == Batches(before) + [sync.batch]
  {}

  /** The store and the never-restarted engine agree on what is finished. */
  lemma FinishedWhenStored(epsilon: real, syncs: seq<Sync>, f: int)
    requires JobRan(epsilon, syncs) && epsilon >= 0.0
    requires var b := Apply(EmptyEngine(epsilon), Flatten(Batches(syncs))).engine.book;
             f in b.orders && b.orders[f].state != Pending
    ensures Finished(epsilon, syncs, f)
  {
    JobRanParts(epsilon, syncs);
    SyncMatchesOneShot(epsilon, syncs);
    var b := Apply(EmptyEngine(epsilon), Flatten(Batches(syncs))).engine.book;
    hide Apply, SyncAll, JobRan;
    var store := SyncAll(epsilon, syncs).value.store;
    assert Core(b.orders[f]) == Core(store[f]);
    assert Core(b.orders[f]).state == Core(store[f]).state;
  }
}
