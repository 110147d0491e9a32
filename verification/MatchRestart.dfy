/**
 Restart equivalence. The synchronisation job rebuilds the engine from the stored pending orders before every
 batch and stores the orders it held afterwards. Over in-order batches this is indistinguishable from one
 engine that is never restarted: same hedge results, same stored amounts and states.
 */
module MatchRestart {
  import opened Prelude
  import opened StableSorting
  import opened MatchBook
  import opened MatchInvariants
  import opened MatchConservation
  import opened MatchRun
  import opened MatchReachable

  type Store = map<int, MarginOrder>

  /** `live` and the finished orders of `store` together show what `full` holds, hedge metadata aside. */
  ghost predicate Tracks(full: Book, live: Book, store: Store) {
    && full.epsilon == live.epsilon
    && SameQueues(full, live)
    && full.orders.Keys == live.orders.Keys + store.Keys
    && (forall f :: f in live.orders ==> Core(full.orders[f]) == Core(live.orders[f]))
    && (forall f :: f in store && f !in live.orders ==> Core(full.orders[f]) == Core(store[f]))
  }

  // ---- Lockstep: every step preserves the relation

  lemma CoreOfMatch(x: MarginOrder, y: MarginOrder, quantity: real, price: Option<real>, epsilon: real)
    requires Core(x) == Core(y)
    ensures Core(NetBy(x, quantity, epsilon)) == Core(NetBy(y, quantity, epsilon))
    ensures Core(CloseBy(x, quantity, price, epsilon)) == Core(CloseBy(y, quantity, price, epsilon))
    ensures x.remaining == y.remaining && x.Key() == y.Key()
  {
    assert Core(x).remaining == Core(y).remaining && Core(x).camount == Core(y).camount;
  }

  ghost predicate SameQueues(x: Book, y: Book) {
    forall k: QueueKey :: Queue(x, k) == Queue(y, k)
  }

  lemma PopSameQueues(x: Book, y: Book, k: QueueKey, head: int)
    requires SameQueues(x, y) && Queue(x, k) != [] && x.epsilon == y.epsilon
    requires head in x.orders && head in y.orders && x.orders[head].remaining == y.orders[head].remaining
    ensures Queue(y, k) != [] && SameQueues(PopIfDone(x, k, head), PopIfDone(y, k, head))
  {
    assert Queue(x, k) == Queue(y, k);
    forall k': QueueKey ensures Queue(PopIfDone(x, k, head), k') == Queue(PopIfDone(y, k, head), k') {
      assert Queue(x, k') == Queue(y, k');
    }
  }

  lemma PushSameQueues(x: Book, y: Book, fkey: int, own: QueueKey)
    requires SameQueues(x, y)
    ensures SameQueues(PushBack(x, fkey, own), PushBack(y, fkey, own))
  {
    assert Queue(x, own) == Queue(y, own);
    forall k: QueueKey ensures Queue(PushBack(x, fkey, own), k) == Queue(PushBack(y, fkey, own), k) {
      assert Queue(x, k) == Queue(y, k);
    }
  }

  lemma OrdersSameQueues(x: Book, y: Book, xs: map<int, MarginOrder>, ys: map<int, MarginOrder>)
    requires SameQueues(x, y)
    ensures SameQueues(x.(orders := xs), y.(orders := ys))
  {
    forall k: QueueKey ensures Queue(x.(orders := xs), k) == Queue(y.(orders := ys), k) {
      assert Queue(x, k) == Queue(y, k);
    }
  }

  lemma NetStepTracks(full: Book, live: Book, store: Store, fkey: int, k: QueueKey)
    requires Tracks(full, live, store) && CanNet(full, fkey, k) && CanNet(live, fkey, k) && Queue(full, k) != []
    ensures Tracks(NetStep(full, fkey, k), NetStep(live, fkey, k), store)
    ensures full.orders[fkey].remaining == live.orders[fkey].remaining
  {
    hide NetBy, CloseBy, Min;
    var other := Queue(full, k)[0];
    assert other in Queue(full, k) && other in Queue(live, k);
    assert Core(full.orders[other]) == Core(live.orders[other]);
    assert Core(full.orders[fkey]) == Core(live.orders[fkey]);
    var quantity := Min(full.orders[fkey].remaining, full.orders[other].remaining);
    CoreOfMatch(full.orders[other], live.orders[other], quantity, None, full.epsilon);
    CoreOfMatch(full.orders[fkey], live.orders[fkey], quantity, None, full.epsilon);
    var xs := full.orders[other := NetBy(full.orders[other], quantity, full.epsilon)];
    var ys := live.orders[other := NetBy(live.orders[other], quantity, full.epsilon)];
    var xs' := xs[fkey := NetBy(xs[fkey], quantity, full.epsilon)];
    var ys' := ys[fkey := NetBy(ys[fkey], quantity, full.epsilon)];
    OrdersSameQueues(full, live, xs', ys');
    PopSameQueues(full.(orders := xs'), live.(orders := ys'), k, other);
  }

  /** Tracking engines take the same decisions. */
  lemma TracksAlike(full: Book, live: Book, store: Store, fkey: int, k: QueueKey)
    requires Tracks(full, live, store) && fkey in full.orders && fkey in live.orders
    ensures full.orders[fkey].remaining == live.orders[fkey].remaining
    ensures Queue(full, k) == Queue(live, k) && full.epsilon == live.epsilon
  {
    assert Core(full.orders[fkey]).remaining == Core(live.orders[fkey]).remaining;
  }

  lemma QueuesAlike(full: Book, live: Book, store: Store, k: QueueKey)
    requires Tracks(full, live, store)
    ensures Queue(full, k) == Queue(live, k) && full.epsilon == live.epsilon
  {}

  lemma {:induction false} NetLoopTracks(full: Book, live: Book, store: Store, fkey: int, k: QueueKey)
    requires Tracks(full, live, store) && CanNet(full, fkey, k) && CanNet(live, fkey, k)
    ensures Tracks(NetLoop(full, fkey, k), NetLoop(live, fkey, k), store)
    decreases |Queue(full, k)|, full.orders[fkey].remaining > full.epsilon
  {
    TracksAlike(full, live, store, fkey, k);
    NetLoopUnfolds(full, fkey, k);
    NetLoopUnfolds(live, fkey, k);
    hide Tracks, CanNet, NetStep, NetLoop, Queue;
    if Queue(full, k) != [] && full.orders[fkey].remaining > full.epsilon {
      NetStepTracks(full, live, store, fkey, k);
      NetLoopTracks(NetStep(full, fkey, k), NetStep(live, fkey, k), store, fkey, k);
    }
  }

  lemma FreshTracks(full: Book, live: Book, store: Store, x: MarginOrder, y: MarginOrder)
    requires Tracks(full, live, store) && Core(x) == Core(y)
    ensures x.fkey == y.fkey && x.fill == y.fill && x.Key() == y.Key()
    ensures Tracks(full.(orders := full.orders[x.fkey := Fresh(x)]), live.(orders := live.orders[y.fkey := Fresh(y)]),
                   store)
  {
    assert Core(x).fkey == Core(y).fkey && Core(x).fill == Core(y).fill && Core(x).symbol == Core(y).symbol
           && Core(x).side == Core(y).side;
    assert Core(Fresh(x)) == Core(Fresh(y));
    OrdersSameQueues(full, live, full.orders[x.fkey := Fresh(x)], live.orders[y.fkey := Fresh(y)]);
    hide Queue;
  }

  lemma PushTracks(full: Book, live: Book, store: Store, fkey: int, own: QueueKey)
    requires Tracks(full, live, store) && fkey in full.orders && fkey in live.orders
    ensures full.orders[fkey].remaining == live.orders[fkey].remaining && full.epsilon == live.epsilon
    ensures Tracks(PushBack(full, fkey, own), PushBack(live, fkey, own), store)
  {
    TracksAlike(full, live, store, fkey, own);
    PushSameQueues(full, live, fkey, own);
    hide Queue;
  }

  lemma AddMarginShape(b: Book, o: MarginOrder)
    requires Linked(b) && !RejectsMargin(b, o)
    ensures var b1, k := b.(orders := b.orders[o.fkey := Fresh(o)]), (o.symbol, o.side.Opposite());
            && CanNet(b1, o.fkey, k)
            && var r := NetLoop(b1, o.fkey, k);
               AddMargin(b, o) == if r.orders[o.fkey].remaining > r.epsilon then PushBack(r, o.fkey, o.Key()) else r
  {
    var b1, k := b.(orders := b.orders[o.fkey := Fresh(o)]), (o.symbol, o.side.Opposite());
    assert Queue(b1, k) == Queue(b, k);
  }

  lemma AddMarginTracks(full: Book, live: Book, store: Store, x: MarginOrder, y: MarginOrder)
    requires Tracks(full, live, store) && Linked(full) && Linked(live)
    requires Core(x) == Core(y) && !RejectsMargin(full, x)
    ensures !RejectsMargin(live, y)
    ensures Tracks(AddMargin(full, x), AddMargin(live, y), store)
  {
    FreshTracks(full, live, store, x, y);
    assert !RejectsMargin(live, y);
    AddMarginShape(full, x);
    AddMarginShape(live, y);
    hide Tracks, Linked, CanNet, NetLoop, AddMargin, PushBack, Fresh, RejectsMargin, Core;
    var k := (x.symbol, x.side.Opposite());
    var full1 := full.(orders := full.orders[x.fkey := Fresh(x)]);
    var live1 := live.(orders := live.orders[y.fkey := Fresh(y)]);
    NetLoopTracks(full1, live1, store, x.fkey, k);
    PushTracks(NetLoop(full1, x.fkey, k), NetLoop(live1, y.fkey, k), store, x.fkey, x.Key());
  }

  lemma HedgeStepTracks(full: Hedging, live: Hedging, store: Store, f: FuturesOrder, k: QueueKey)
    requires Tracks(full.book, live.book, store) && full.left == live.left && full.anchor == live.anchor
    requires CanHedge(full.book, k) && CanHedge(live.book, k) && Queue(full.book, k) != []
    ensures var x := HedgeStep(full, f, k); var y := HedgeStep(live, f, k);
            Tracks(x.book, y.book, store) && x.left == y.left && x.anchor == y.anchor
  {
    hide NetBy, CloseBy, Min;
    var head := Queue(full.book, k)[0];
    assert head in Queue(full.book, k) && head in Queue(live.book, k);
    assert Core(full.book.orders[head]) == Core(live.book.orders[head]);
    var quantity := Min(full.left, full.book.orders[head].remaining);
    CoreOfMatch(full.book.orders[head], live.book.orders[head], quantity, f.cprice, full.book.epsilon);
    var xs := full.book.orders[head := CloseBy(full.book.orders[head], quantity, f.cprice, full.book.epsilon)];
    var ys := live.book.orders[head := CloseBy(live.book.orders[head], quantity, f.cprice, full.book.epsilon)];
    OrdersSameQueues(full.book, live.book, xs, ys);
    PopSameQueues(full.book.(orders := xs), live.book.(orders := ys), k, head);
  }

  lemma {:induction false} HedgeLoopTracks(full: Hedging, live: Hedging, store: Store, f: FuturesOrder, k: QueueKey)
    requires Tracks(full.book, live.book, store) && full.left == live.left && full.anchor == live.anchor
    requires CanHedge(full.book, k) && CanHedge(live.book, k)
    ensures var x := HedgeLoop(full, f, k); var y := HedgeLoop(live, f, k);
            Tracks(x.book, y.book, store) && x.left == y.left && x.anchor == y.anchor
    decreases |Queue(full.book, k)|, full.left > full.book.epsilon
  {
    QueuesAlike(full.book, live.book, store, k);
    HedgeLoopUnfolds(full, f, k);
    HedgeLoopUnfolds(live, f, k);
    hide Tracks, CanHedge, HedgeStep, HedgeLoop, Queue;
    if full.left > full.book.epsilon && Queue(full.book, k) != [] {
      HedgeStepTracks(full, live, store, f, k);
      HedgeLoopTracks(HedgeStep(full, f, k), HedgeStep(live, f, k), store, f, k);
    }
  }

  /** Hedge metadata may change on either side without disturbing the relation. */
  lemma MetadataTracks(full: Book, live: Book, store: Store, full': Book, live': Book)
    requires Tracks(full, live, store) && SameCore(full, full') && SameCore(live, live')
    ensures Tracks(full', live', store)
  {
    forall k: QueueKey ensures Queue(full', k) == Queue(live', k) {
      assert Queue(full, k) == Queue(live, k);
    }
    forall f | f in live'.orders ensures Core(full'.orders[f]) == Core(live'.orders[f]) {
      assert Core(full.orders[f]) == Core(live.orders[f]);
    }
    forall f | f in store && f !in live'.orders ensures Core(full'.orders[f]) == Core(store[f]) {
      assert Core(full.orders[f]) == Core(store[f]);
    }
  }

  lemma AddFuturesTracks(full: Book, live: Book, store: Store, f: FuturesOrder)
    requires Tracks(full, live, store) && Linked(full) && Linked(live)
    ensures var (b, x) := AddFutures(full, f); var (d, y) := AddFutures(live, f); Tracks(b, d, store) && x == y
  {
    HedgeLoopTracks(HedgeStart(full, f), HedgeStart(live, f), store, f, (f.symbol, f.side.Opposite()));
  }

  lemma LoggedTracks(e: Engine, d: Engine, store: Store, f: FuturesOrder)
    requires Tracks(e.book, d.book, store) && Linked(e.book) && Linked(d.book)
    ensures Tracks(Logged(e, f).book, Logged(d, f).book, store)
    ensures Linked(Logged(e, f).book) && Linked(Logged(d, f).book)
  {
    LoggedSameCore(e, f);
    LoggedSameCore(d, f);
    MetadataTracks(e.book, d.book, store, Logged(e, f).book, Logged(d, f).book);
    SameQueuesLinked(e.book, Logged(e, f).book);
    SameQueuesLinked(d.book, Logged(d, f).book);
  }

  lemma StepTracks(p: Progress, q: Progress, store: Store, ev: MatchEvent)
    requires Linked(p.engine.book) && Linked(q.engine.book) && Tracks(p.engine.book, q.engine.book, store)
    requires p.hedges == q.hedges && p.error.None? && q.error.None? && Step(p, ev).error.None?
    ensures var x := Step(p, ev); var y := Step(q, ev);
            Tracks(x.engine.book, y.engine.book, store) && x.hedges == y.hedges && y.error.None?
  {
    hide AddMargin, AddFutures, Tracks, Linked;
    match ev
    case Margin(o) =>
      AddMarginTracks(p.engine.book, q.engine.book, store,
                      WithKnownHedges(p.engine.log, o), WithKnownHedges(q.engine.log, o));
    case Futures(f) =>
      LoggedTracks(p.engine, q.engine, store, f);
      AddFuturesTracks(Logged(p.engine, f).book, Logged(q.engine, f).book, store, f);
  }

  lemma {:induction false} RunTracks(p: Progress, q: Progress, store: Store, events: seq<MatchEvent>)
    requires Linked(p.engine.book) && Linked(q.engine.book) && Tracks(p.engine.book, q.engine.book, store)
    requires p.hedges == q.hedges && q.error.None? && Run(p, events).error.None?
    ensures var x := Run(p, events); var y := Run(q, events);
            Tracks(x.engine.book, y.engine.book, store) && x.hedges == y.hedges && y.error.None?
    decreases |events|
  {
    if p.error.Some? {
      RunStopped(p, events);
    } else if events != [] {
      if Step(p, events[0]).error.Some? {
        RunStopped(Step(p, events[0]), events[1..]);
      }
      StepTracks(p, q, store, events[0]);
      RunTracks(Step(p, events[0]), Step(q, events[0]), store, events[1..]);
    }
  }

  // ---- Queues stay in key order while events arrive in key order

  ghost predicate QueuesSorted(b: Book) {
    forall k: QueueKey :: Sorted(Queue(b, k), ByKey(b.orders))
  }

  ghost predicate Precedes(b: Book, events: seq<MatchEvent>) {
    forall f, ev :: f in b.orders && ev in events ==> KeyLe(MarginKey(b.orders[f]), EventKey(ev))
  }

  ghost predicate IsSuffix(ys: seq<int>, xs: seq<int>) {
    |ys| <= |xs| && ys == xs[|xs| - |ys|..]
  }

  /** Matching neither reorders a queue nor changes what an order is keyed by. */
  ghost predicate OnlyConsumed(b: Book, r: Book) {
    && r.orders.Keys == b.orders.Keys
    && (forall f :: f in b.orders ==> MarginKey(r.orders[f]) == MarginKey(b.orders[f]))
    && (forall k: QueueKey :: IsSuffix(Queue(r, k), Queue(b, k)))
  }

  lemma OnlyConsumedChain(b: Book, n: Book, r: Book)
    requires OnlyConsumed(b, n) && OnlyConsumed(n, r)
    ensures OnlyConsumed(b, r)
  {
    hide Queue, MarginKey;
    forall k: QueueKey ensures IsSuffix(Queue(r, k), Queue(b, k)) {
      assert IsSuffix(Queue(n, k), Queue(b, k)) && IsSuffix(Queue(r, k), Queue(n, k));
    }
  }

  lemma NetStepOnlyConsumes(b: Book, fkey: int, k: QueueKey)
    requires CanNet(b, fkey, k) && Queue(b, k) != []
    ensures OnlyConsumed(b, NetStep(b, fkey, k))
  {}

  lemma {:induction false} NetLoopOnlyConsumes(b: Book, fkey: int, k: QueueKey)
    requires CanNet(b, fkey, k)
    ensures OnlyConsumed(b, NetLoop(b, fkey, k))
    decreases |Queue(b, k)|, b.orders[fkey].remaining > b.epsilon
  {
    hide MarginKey, NetStep;
    if Queue(b, k) != [] && b.orders[fkey].remaining > b.epsilon {
      var n := NetStep(b, fkey, k);
      NetStepOnlyConsumes(b, fkey, k);
      NetLoopOnlyConsumes(n, fkey, k);
      OnlyConsumedChain(b, n, NetLoop(n, fkey, k));
    }
  }

  lemma HedgeStepOnlyConsumes(h: Hedging, f: FuturesOrder, k: QueueKey)
    requires CanHedge(h.book, k) && Queue(h.book, k) != []
    ensures OnlyConsumed(h.book, HedgeStep(h, f, k).book)
  {}

  lemma {:induction false} HedgeLoopOnlyConsumes(h: Hedging, f: FuturesOrder, k: QueueKey)
    requires CanHedge(h.book, k)
    ensures OnlyConsumed(h.book, HedgeLoop(h, f, k).book)
    decreases |Queue(h.book, k)|, h.left > h.book.epsilon
  {
    hide MarginKey, HedgeStep;
    if h.left > h.book.epsilon && Queue(h.book, k) != [] {
      var n := HedgeStep(h, f, k);
      HedgeStepOnlyConsumes(h, f, k);
      HedgeLoopOnlyConsumes(n, f, k);
      OnlyConsumedChain(h.book, n.book, HedgeLoop(n, f, k).book);
    }
  }

  lemma ConsumedStaysSorted(b: Book, r: Book)
    requires QueuesSorted(b) && OnlyConsumed(b, r)
    ensures QueuesSorted(r)
  {
    forall k: QueueKey ensures Sorted(Queue(r, k), ByKey(r.orders)) {
      assert Sorted(Queue(b, k), ByKey(b.orders)) && IsSuffix(Queue(r, k), Queue(b, k));
      var cut := |Queue(b, k)| - |Queue(r, k)|;
      forall i, j | 0 <= i < j < |Queue(r, k)| ensures ByKey(r.orders)(Queue(r, k)[i], Queue(r, k)[j]) {
        assert Queue(r, k)[i] == Queue(b, k)[cut + i] && Queue(r, k)[j] == Queue(b, k)[cut + j];
        assert ByKey(b.orders)(Queue(b, k)[cut + i], Queue(b, k)[cut + j]);
      }
    }
  }

  lemma InsertedStaysSorted(b: Book, o: MarginOrder)
    requires Linked(b) && QueuesSorted(b) && o.fkey !in b.orders
    ensures QueuesSorted(b.(orders := b.orders[o.fkey := o]))
  {
    var r := b.(orders := b.orders[o.fkey := o]);
    forall k: QueueKey ensures Sorted(Queue(r, k), ByKey(r.orders)) {
      assert Sorted(Queue(b, k), ByKey(b.orders)) && Queue(r, k) == Queue(b, k);
      forall i, j | 0 <= i < j < |Queue(b, k)| ensures ByKey(r.orders)(Queue(b, k)[i], Queue(b, k)[j]) {
        assert ByKey(b.orders)(Queue(b, k)[i], Queue(b, k)[j]);
      }
    }
  }

  lemma PushedStaysSorted(b: Book, fkey: int, own: QueueKey)
    requires Linked(b) && QueuesSorted(b) && fkey in b.orders
    requires forall f :: f in b.orders ==> KeyLe(MarginKey(b.orders[f]), MarginKey(b.orders[fkey]))
    ensures QueuesSorted(PushBack(b, fkey, own))
  {
    var r := PushBack(b, fkey, own);
    forall k: QueueKey ensures Sorted(Queue(r, k), ByKey(r.orders)) {
      var q := Queue(b, k);
      assert Sorted(q, ByKey(b.orders));
      forall i | 0 <= i < |q| ensures ByKey(b.orders)(q[i], fkey) {
        var f := q[i];
        assert f in Queue(b, k) && f in b.orders;
        assert KeyLe(MarginKey(b.orders[f]), MarginKey(b.orders[fkey]));
      }
      assert Queue(r, k) == q || Queue(r, k) == q + [fkey];
    }
  }

  /** The book between netting an arriving order and queueing what is left of it. */
  function Netted1(b: Book, o: MarginOrder): (r: Book)
    requires Linked(b) && !RejectsMargin(b, o)
    ensures Linked(r) && r.orders.Keys == b.orders.Keys + {o.fkey}
    ensures AddMargin(b, o) == if r.orders[o.fkey].remaining > r.epsilon then PushBack(r, o.fkey, o.Key()) else r
  {
    var b1 := b.(orders := b.orders[o.fkey := Fresh(o)]);
    var k := (o.symbol, o.side.Opposite());
    assert Queue(b1, k) == Queue(b, k);
    ShrinkLinked(b, b1, NetLoop(b1, o.fkey, k));
    NetLoop(b1, o.fkey, k)
  }

  lemma NettedKeys(b: Book, o: MarginOrder)
    requires Linked(b) && !RejectsMargin(b, o)
    ensures OnlyConsumed(b.(orders := b.orders[o.fkey := Fresh(o)]), Netted1(b, o))
  {
    var b1 := b.(orders := b.orders[o.fkey := Fresh(o)]);
    var k := (o.symbol, o.side.Opposite());
    assert Queue(b1, k) == Queue(b, k);
    NetLoopOnlyConsumes(b1, o.fkey, k);
  }

  /** Netting an order that arrives last leaves it last by key. */
  lemma LastByKey(b: Book, o: MarginOrder)
    requires Linked(b) && !RejectsMargin(b, o)
    requires forall f :: f in b.orders ==> KeyLe(MarginKey(b.orders[f]), MarginKey(o))
    ensures var r := Netted1(b, o);
            forall f :: f in r.orders ==>
              && MarginKey(r.orders[f]) == (if f == o.fkey then MarginKey(o) else MarginKey(b.orders[f]))
              && KeyLe(MarginKey(r.orders[f]), MarginKey(r.orders[o.fkey]))
  {
    NettedKeys(b, o);
    var b1 := b.(orders := b.orders[o.fkey := Fresh(o)]);
    var r := Netted1(b, o);
    assert MarginKey(b1.orders[o.fkey]) == MarginKey(o) && KeyLe(MarginKey(o), MarginKey(o));
    hide MarginKey, KeyLe, Netted1;
    forall f | f in r.orders
      ensures MarginKey(r.orders[f]) == (if f == o.fkey then MarginKey(o) else MarginKey(b.orders[f]))
    {
      assert MarginKey(r.orders[f]) == MarginKey(b1.orders[f]);
    }
  }

  lemma AddMarginSorted(b: Book, o: MarginOrder)
    requires Linked(b) && QueuesSorted(b) && !RejectsMargin(b, o)
    requires forall f :: f in b.orders ==> KeyLe(MarginKey(b.orders[f]), MarginKey(o))
    ensures QueuesSorted(AddMargin(b, o))
    ensures forall f :: f in AddMargin(b, o).orders ==>
              MarginKey(AddMargin(b, o).orders[f]) == (if f == o.fkey then MarginKey(o) else MarginKey(b.orders[f]))
  {
    var b1 := b.(orders := b.orders[o.fkey := Fresh(o)]);
    InsertedStaysSorted(b, Fresh(o));
    NettedKeys(b, o);
    var b2 := Netted1(b, o);
    ConsumedStaysSorted(b1, b2);
    LastByKey(b, o);
    PushedStaysSorted(b2, o.fkey, o.Key());
  }

  lemma AddFuturesSorted(e: Engine, f: FuturesOrder)
    requires Linked(e.book) && QueuesSorted(e.book)
    ensures Linked(Logged(e, f).book)
    ensures var r := AddFutures(Logged(e, f).book, f).0;
            QueuesSorted(r) && r.orders.Keys == e.book.orders.Keys
            && forall g :: g in r.orders ==> MarginKey(r.orders[g]) == MarginKey(e.book.orders[g])
  {
    var e1 := Logged(e, f);
    LoggedSameCore(e, f);
    SameQueuesLinked(e.book, e1.book);
    SameCoreOnlyConsumed(e.book, e1.book);
    ConsumedStaysSorted(e.book, e1.book);
    HedgeLoopOnlyConsumes(HedgeStart(e1.book, f), f, (f.symbol, f.side.Opposite()));
    ConsumedStaysSorted(e1.book, AddFutures(e1.book, f).0);
  }

  lemma SameCoreOnlyConsumed(b: Book, r: Book)
    requires SameCore(b, r)
    ensures OnlyConsumed(b, r)
  {
    forall f | f in b.orders ensures MarginKey(r.orders[f]) == MarginKey(b.orders[f]) {
      assert Core(r.orders[f]) == Core(b.orders[f]);
      assert MarginKey(Core(r.orders[f])) == MarginKey(r.orders[f]);
      assert MarginKey(Core(b.orders[f])) == MarginKey(b.orders[f]);
    }
  }

  lemma StepSorted(p: Progress, ev: MatchEvent, later: seq<MatchEvent>)
    requires Linked(p.engine.book) && QueuesSorted(p.engine.book)
    requires Precedes(p.engine.book, [ev] + later) && AllLe([ev], later, EventLe())
    ensures QueuesSorted(Step(p, ev).engine.book) && Precedes(Step(p, ev).engine.book, later)
  {
    var e := p.engine;
    assert ev in [ev] + later && ev in [ev];
    assert forall l :: l in later ==> l in [ev] + later && EventLe()(ev, l);
    if p.error.None? && EventError(e.book, ev).None? {
      match ev
      case Margin(o) =>
        var o1 := WithKnownHedges(e.log, o);
        assert MarginKey(o1) == EventKey(ev);
        AddMarginSorted(e.book, o1);
      case Futures(f) =>
        AddFuturesSorted(e, f);
    }
  }

  lemma {:induction false} RunSorted(p: Progress, events: seq<MatchEvent>)
    requires Linked(p.engine.book) && QueuesSorted(p.engine.book)
    requires Precedes(p.engine.book, events) && Sorted(events, EventLe())
    ensures QueuesSorted(Run(p, events).engine.book)
    decreases |events|
  {
    if events != [] {
      assert events == [events[0]] + events[1..];
      StepSorted(p, events[0], events[1..]);
      RunSorted(Step(p, events[0]), events[1..]);
    }
  }

  // ---- Rebuilding from the pending orders

  /** Keys of the loaded orders of one symbol and side, in loading order. */
  function KeysOf(pending: seq<MarginOrder>, k: QueueKey): seq<int>
    decreases |pending|
  {
    if pending == [] then [] else
      var o := pending[|pending| - 1];
      KeysOf(pending[..|pending| - 1], k) + (if o.Key() == k then [o.fkey] else [])
  }

  ghost predicate Loadable(pending: seq<MarginOrder>, epsilon: real) {
    && (forall o :: o in pending ==> o.remaining > epsilon)
    && (forall i, j :: 0 <= i < j < |pending| ==> pending[i].fkey != pending[j].fkey)
  }

  /** What loading a list of pending orders gives. */
  ghost predicate Loaded(b: Book, epsilon: real, pending: seq<MarginOrder>) {
    && b.epsilon == epsilon
    && (forall k: QueueKey :: Queue(b, k) == KeysOf(pending, k))
    && (forall f :: f in b.orders ==> exists i :: 0 <= i < |pending| && pending[i].fkey == f)
    && (forall i :: 0 <= i < |pending| ==>
          pending[i].fkey in b.orders && b.orders[pending[i].fkey] == pending[i].(state := Pending))
  }

  lemma LoadOneShape(e: Engine, epsilon: real, init: seq<MarginOrder>, o: MarginOrder)
    requires Loaded(e.book, epsilon, init) && forall i :: 0 <= i < |init| ==> init[i].fkey != o.fkey
    ensures o.fkey !in e.book.orders && Loaded(LoadOne(e, o).book, epsilon, init + [o])
  {
    var pending := init + [o];
    var r := LoadOne(e, o).book;
    forall k: QueueKey ensures Queue(r, k) == KeysOf(pending, k) {
      assert pending[..|pending| - 1] == init;
      assert Queue(e.book, k) == KeysOf(init, k);
    }
    forall f | f in r.orders ensures exists i :: 0 <= i < |pending| && pending[i].fkey == f {
      if f == o.fkey {
        assert pending[|init|].fkey == f;
      } else {
        var i :| 0 <= i < |init| && init[i].fkey == f;
        assert pending[i].fkey == f;
      }
    }
  }

  lemma LoadableInit(pending: seq<MarginOrder>, epsilon: real)
    requires Loadable(pending, epsilon) && pending != []
    ensures Loadable(pending[..|pending| - 1], epsilon) && pending[|pending| - 1].remaining > epsilon
  {
    assert forall x :: x in pending[..|pending| - 1] ==> x in pending;
    assert pending[|pending| - 1] in pending;
  }

  lemma EmptyLoaded(epsilon: real)
    ensures Loaded(EmptyEngine(epsilon).book, epsilon, [])
  {}

  lemma LoadedEpsilon(b: Book, epsilon: real, pending: seq<MarginOrder>)
    requires Loaded(b, epsilon, pending)
    ensures b.epsilon == epsilon
  {}

  lemma LastIsNew(pending: seq<MarginOrder>, epsilon: real)
    requires Loadable(pending, epsilon) && pending != []
    ensures var init := pending[..|pending| - 1];
            forall i :: 0 <= i < |init| ==> init[i].fkey != pending[|pending| - 1].fkey
  {}

  lemma {:induction false} LoadAllShape(epsilon: real, pending: seq<MarginOrder>)
    requires epsilon >= 0.0 && Loadable(pending, epsilon)
    ensures LoadAll(epsilon, pending).Ok? && Loaded(LoadAll(epsilon, pending).value.book, epsilon, pending)
    decreases |pending|
  {
    if pending == [] {
      EmptyLoaded(epsilon);
    } else {
      var init, o := pending[..|pending| - 1], pending[|pending| - 1];
      LoadableInit(pending, epsilon);
      LastIsNew(pending, epsilon);
      InitAndLast(pending);
      hide Loadable, Loaded, LoadOne;
      LoadAllShape(epsilon, init);
      var e := LoadAll(epsilon, init).value;
      LoadedEpsilon(e.book, epsilon, init);
      LoadOneShape(e, epsilon, init, o);
      assert LoadError(e, o) == None;
    }
  }

  lemma {:induction false} KeysOfMembers(pending: seq<MarginOrder>, k: QueueKey, f: int)
    ensures f in KeysOf(pending, k) <==> exists i :: 0 <= i < |pending| && pending[i].fkey == f && pending[i].Key() == k
    decreases |pending|
  {
    if pending != [] {
      var init := pending[..|pending| - 1];
      KeysOfMembers(init, k, f);
      if exists i :: 0 <= i < |pending| && pending[i].fkey == f && pending[i].Key() == k {
        var i :| 0 <= i < |pending| && pending[i].fkey == f && pending[i].Key() == k;
        assert i < |init| ==> init[i] == pending[i];
      }
      if f in KeysOf(init, k) {
        var i :| 0 <= i < |init| && init[i].fkey == f && init[i].Key() == k;
        assert pending[i] == init[i];
      }
    }
  }

  /** The loaded keys of one queue are distinct and follow the order of the loaded list. */
  lemma {:induction false} KeysOfOrder(pending: seq<MarginOrder>, k: QueueKey, orders: map<int, MarginOrder>)
    requires forall i, j :: 0 <= i < j < |pending| ==> pending[i].fkey != pending[j].fkey
    requires Sorted(pending, MarginLe())
    requires forall i :: 0 <= i < |pending| ==>
               pending[i].fkey in orders && MarginKey(orders[pending[i].fkey]) == MarginKey(pending[i])
    ensures Sorted(KeysOf(pending, k), ByKey(orders))
    ensures forall i, j :: 0 <= i < j < |KeysOf(pending, k)| ==> KeysOf(pending, k)[i] != KeysOf(pending, k)[j]
    decreases |pending|
  {
    if pending != [] {
      var n := |pending| - 1;
      var init := pending[..n];
      KeysOfOrder(init, k, orders);
      forall i | 0 <= i < |KeysOf(init, k)|
        ensures ByKey(orders)(KeysOf(init, k)[i], pending[n].fkey) && KeysOf(init, k)[i] != pending[n].fkey
      {
        var f := KeysOf(init, k)[i];
        KeysOfMembers(init, k, f);
        var j :| 0 <= j < |init| && init[j].fkey == f && init[j].Key() == k;
        assert init[j] == pending[j] && MarginLe()(pending[j], pending[n]);
      }
    }
  }

  function ByKey(orders: map<int, MarginOrder>): (int, int) -> bool {
    (x: int, y: int) => x in orders && y in orders && KeyLe(MarginKey(orders[x]), MarginKey(orders[y]))
  }

  lemma DistinctSameElements(xs: seq<int>, ys: seq<int>)
    requires forall i, j :: 0 <= i < j < |xs| ==> xs[i] != xs[j]
    requires forall i, j :: 0 <= i < j < |ys| ==> ys[i] != ys[j]
    requires forall f :: f in xs <==> f in ys
    ensures multiset(xs) == multiset(ys)
  {
    forall f ensures multiset(xs)[f] == multiset(ys)[f] {
      DistinctOccurrence(xs, f);
      DistinctOccurrence(ys, f);
    }
  }

  /** The pending rows of the store, in the order the database returned them. */
  ghost predicate IsSnapshot(pending: seq<MarginOrder>, store: Store) {
    && (forall o :: o in pending ==> o.fkey in store && store[o.fkey] == o && o.state == Pending)
    && (forall f :: f in store && store[f].state == Pending ==> store[f] in pending)
    && (forall i, j :: 0 <= i < j < |pending| ==> pending[i].fkey != pending[j].fkey)
  }

  ghost predicate Stored(full: Book, store: Store) {
    full.orders.Keys == store.Keys && forall f :: f in store ==> Core(full.orders[f]) == Core(store[f])
  }

  lemma SortKeepsKeysDistinct(pending: seq<MarginOrder>, store: Store)
    requires IsSnapshot(pending, store)
    ensures IsSnapshot(StableSort(pending, MarginLe()), store)
  {
    var s := StableSort(pending, MarginLe());
    SortPermutes(pending, MarginLe());
    forall i, j | 0 <= i < j < |s| ensures s[i].fkey != s[j].fkey {
      assert s[i] in pending && s[j] in pending;
      if s[i].fkey == s[j].fkey {
        assert s[i] == store[s[i].fkey] == s[j];
        RepeatedElement(s, i, j);
        var a, b := TwoPositions(pending, s[i]);
        assert false;
      }
    }
  }

  lemma StoredOrder(full: Book, store: Store, f: int)
    requires Inv(full) && Stored(full, store) && f in store
    ensures store[f].fkey == f && store[f].Key() == full.orders[f].Key()
    ensures MarginKey(store[f]) == MarginKey(full.orders[f])
    ensures store[f].state == Pending <==> store[f].remaining > full.epsilon
    ensures store[f].remaining > full.epsilon <==> f in Queue(full, store[f].Key())
  {
    assert Core(full.orders[f]) == Core(store[f]);
    assert OrderOk(full.orders[f], full.epsilon);
    assert QueueOk(full, store[f].Key(), {});
    assert Core(store[f]).remaining == Core(full.orders[f]).remaining;
    assert Core(store[f]).state == Core(full.orders[f]).state;
  }

  lemma StoredKeys(full: Book, store: Store, pending: seq<MarginOrder>)
    requires Inv(full) && Stored(full, store) && IsSnapshot(pending, store)
    ensures forall i :: 0 <= i < |pending| ==>
              pending[i].fkey in full.orders && MarginKey(full.orders[pending[i].fkey]) == MarginKey(pending[i])
  {
    forall i | 0 <= i < |pending|
      ensures pending[i].fkey in full.orders && MarginKey(full.orders[pending[i].fkey]) == MarginKey(pending[i])
    {
      assert pending[i] in pending;
      StoredOrder(full, store, pending[i].fkey);
    }
  }

  /** The snapshot lists under `k` precisely the keys the engine had queued there. */
  lemma RebuiltMember(full: Book, store: Store, pending: seq<MarginOrder>, k: QueueKey, f: int)
    requires Inv(full) && Stored(full, store) && IsSnapshot(pending, store)
    ensures f in KeysOf(pending, k) <==> f in Queue(full, k)
  {
    KeysOfMembers(pending, k, f);
    assert QueueOk(full, k, {});
    if f in store {
      StoredOrder(full, store, f);
    }
    hide MarginKey, OrderOk, Inv;
    if f in KeysOf(pending, k) {
      var i :| 0 <= i < |pending| && pending[i].fkey == f && pending[i].Key() == k;
      assert pending[i] in pending;
    }
    if f in Queue(full, k) {
      assert f in full.orders && store[f] in pending;
      var i :| 0 <= i < |pending| && pending[i] == store[f];
      assert pending[i].fkey == f && pending[i].Key() == k;
    }
  }

  lemma KeyLeAntisymmetric(x: SortKey, y: SortKey)
    requires KeyLe(x, y) && KeyLe(y, x)
    ensures x == y
  {}

  lemma QueueNoTies(b: Book, k: QueueKey)
    requires Inv(b)
    ensures NoTies(Queue(b, k), ByKey(b.orders))
  {
    var q := Queue(b, k);
    assert QueueOk(b, k, {});
    forall i, j | 0 <= i < j < |q| ensures !(ByKey(b.orders)(q[i], q[j]) && ByKey(b.orders)(q[j], q[i])) {
      assert q[i] in q && q[j] in q;
      var x, y := b.orders[q[i]], b.orders[q[j]];
      assert x.fkey == q[i] && y.fkey == q[j];
      if KeyLe(MarginKey(x), MarginKey(y)) && KeyLe(MarginKey(y), MarginKey(x)) {
        KeyLeAntisymmetric(MarginKey(x), MarginKey(y));
        assert false;
      }
    }
  }

  lemma RebuiltQueue(full: Book, store: Store, sorted: seq<MarginOrder>, k: QueueKey)
    requires Inv(full) && QueuesSorted(full) && Stored(full, store)
    requires IsSnapshot(sorted, store) && Sorted(sorted, MarginLe())
    ensures KeysOf(sorted, k) == Queue(full, k)
  {
    var xs, ys := KeysOf(sorted, k), Queue(full, k);
    StoredKeys(full, store, sorted);
    KeysOfOrder(sorted, k, full.orders);
    QueueDistinct(full, k, {});
    forall f ensures f in xs <==> f in ys {
      RebuiltMember(full, store, sorted, k, f);
    }
    DistinctSameElements(xs, ys);
    QueueNoTies(full, k);
    SortedUnique(ys, xs, ByKey(full.orders));
  }

  lemma LoadedTracks(full: Book, store: Store, live: Book, sorted: seq<MarginOrder>)
    requires Stored(full, store) && IsSnapshot(sorted, store)
    requires Loaded(live, full.epsilon, sorted) && SameQueues(full, live)
    ensures Tracks(full, live, store)
  {
    hide Queue;
    forall f | f in live.orders ensures f in store && live.orders[f] == store[f] {
      var i :| 0 <= i < |sorted| && sorted[i].fkey == f;
      assert sorted[i] in sorted;
    }
  }

  lemma LoadedLinked(live: Book, epsilon: real, sorted: seq<MarginOrder>)
    requires epsilon >= 0.0 && Loaded(live, epsilon, sorted)
    ensures Linked(live)
  {
    forall k: QueueKey, f | f in Queue(live, k) ensures f in live.orders {
      KeysOfMembers(sorted, k, f);
    }
  }

  /** What loading the stored pending orders gives, whatever the queues of the engine that stored them. */
  lemma RebuiltShape(full: Book, store: Store, pending: seq<MarginOrder>)
    requires Inv(full) && Stored(full, store) && IsSnapshot(pending, store)
    ensures New(pending, full.epsilon).Ok?
    ensures var sorted := StableSort(pending, MarginLe());
            && IsSnapshot(sorted, store) && Sorted(sorted, MarginLe())
            && Loaded(New(pending, full.epsilon).value.book, full.epsilon, sorted)
  {
    var sorted := StableSort(pending, MarginLe());
    SortKeepsKeysDistinct(pending, store);
    MarginLeIsPreorder();
    SortSorts(pending, MarginLe());
    forall o | o in sorted ensures o.remaining > full.epsilon {
      StoredOrder(full, store, o.fkey);
    }
    LoadAllShape(full.epsilon, sorted);
  }

  /** The loaded queues are in key order. */
  lemma LoadedSorted(full: Book, store: Store, live: Book, sorted: seq<MarginOrder>)
    requires Inv(full) && Stored(full, store) && IsSnapshot(sorted, store) && Sorted(sorted, MarginLe())
    requires Loaded(live, full.epsilon, sorted) && SameQueues(full, live)
    ensures QueuesSorted(full)
  {
    StoredKeys(full, store, sorted);
    hide Inv, Stored, IsSnapshot, ByKey, Queue;
    forall k: QueueKey ensures Sorted(Queue(full, k), ByKey(full.orders)) {
      KeysOfOrder(sorted, k, full.orders);
      assert Queue(full, k) == Queue(live, k) == KeysOf(sorted, k);
    }
  }

  /**
   An engine rebuilt from the stored pending orders has the queues of the engine that stored them, and so tracks it,
   exactly when those queues are in key order.
   */
  lemma RebuildTracksIff(full: Book, store: Store, pending: seq<MarginOrder>)
    requires Inv(full) && Stored(full, store) && IsSnapshot(pending, store)
    ensures New(pending, full.epsilon).Ok?
    ensures var live := New(pending, full.epsilon).value.book;
            && Linked(live)
            && (SameQueues(full, live) <==> QueuesSorted(full))
            && (Tracks(full, live, store) <==> QueuesSorted(full))
  {
    var sorted := StableSort(pending, MarginLe());
    RebuiltShape(full, store, pending);
    var live := New(pending, full.epsilon).value.book;
    assert full.epsilon >= 0.0;
    LoadedLinked(live, full.epsilon, sorted);
    hide Inv, Stored, IsSnapshot, Loaded, Linked, New, StableSort;
    if QueuesSorted(full) {
      forall k: QueueKey ensures Queue(full, k) == Queue(live, k) {
        RebuiltQueue(full, store, sorted, k);
        LoadedQueue(live, full.epsilon, sorted, k);
      }
    }
    if SameQueues(full, live) {
      LoadedTracks(full, store, live, sorted);
      LoadedSorted(full, store, live, sorted);
    }
  }

  lemma LoadedQueue(live: Book, epsilon: real, pending: seq<MarginOrder>, k: QueueKey)
    requires Loaded(live, epsilon, pending)
    ensures Queue(live, k) == KeysOf(pending, k)
  {}

  /** An engine rebuilt from the stored pending orders tracks the engine that stored them. */
  lemma RebuildTracks(full: Book, store: Store, pending: seq<MarginOrder>)
    requires Inv(full) && QueuesSorted(full) && Stored(full, store) && IsSnapshot(pending, store)
    ensures New(pending, full.epsilon).Ok?
    ensures var live := New(pending, full.epsilon).value.book; Linked(live) && Tracks(full, live, store)
  {
    RebuildTracksIff(full, store, pending);
  }

  // ---- The synchronisation job

  /** One run of the job: what it read back, and the batch of newly released events. */
  datatype Sync = Sync(pending: seq<MarginOrder>, history: seq<HedgeHistory>, batch: seq<MatchEvent>)

  datatype Synced = Synced(store: Store, hedges: seq<HedgeResult>)

  function SyncOnce(s: Synced, epsilon: real, sync: Sync): Result<Synced, MatchError> {
    var loaded := New(sync.pending, epsilon);
    if loaded.Err? then Err(loaded.error)
    else
      var e := SeedAll(loaded.value, sync.history);
      SameQueuesLinked(loaded.value.book, e.book);
      var p := Apply(e, sync.batch);
      if p.error.Some? then Err(p.error.value)
      else Ok(Synced(s.store + p.engine.book.orders, s.hedges + p.hedges))
  }

  /** All runs of the job so far, stopping at the first failure. */
  function SyncAll(epsilon: real, syncs: seq<Sync>): Result<Synced, MatchError>
    decreases |syncs|
  {
    if syncs == [] then Ok(Synced(map[], [])) else
      var before := SyncAll(epsilon, syncs[..|syncs| - 1]);
      if before.Err? then before else SyncOnce(before.value, epsilon, syncs[|syncs| - 1])
  }

  /** Every run read back precisely the pending rows that the runs before it had stored. */
  ghost predicate Faithful(epsilon: real, syncs: seq<Sync>)
    decreases |syncs|
  {
    syncs != [] ==>
      var before := SyncAll(epsilon, syncs[..|syncs| - 1]);
      && Faithful(epsilon, syncs[..|syncs| - 1])
      && (before.Ok? ==> IsSnapshot(syncs[|syncs| - 1].pending, before.value.store))
  }

  function Batches(syncs: seq<Sync>): seq<seq<MatchEvent>>
    decreases |syncs|
  {
    if syncs == [] then [] else Batches(syncs[..|syncs| - 1]) + [syncs[|syncs| - 1].batch]
  }

  lemma {:induction false} SeedSameCore(e: Engine, history: seq<HedgeHistory>)
    ensures SameCore(e.book, SeedAll(e, history).book)
    decreases |history|
  {
    if history != [] {
      SeedSameCore(e, history[..|history| - 1]);
    }
  }

  /** The engine the job rebuilds goes through the batch as the never-restarted one does. */
  lemma RebuiltRuns(full: Engine, store: Store, sync: Sync)
    requires Inv(full.book) && Linked(full.book) && QueuesSorted(full.book)
    requires Stored(full.book, store) && IsSnapshot(sync.pending, store)
    requires Apply(full, sync.batch).error.None?
    ensures New(sync.pending, full.book.epsilon).Ok?
    ensures var e := SeedAll(New(sync.pending, full.book.epsilon).value, sync.history);
            && Linked(e.book)
            && var p, q := Apply(full, sync.batch), Apply(e, sync.batch);
               Tracks(p.engine.book, q.engine.book, store) && q.hedges == p.hedges && q.error.None?
  {
    RebuildTracks(full.book, store, sync.pending);
    var live := New(sync.pending, full.book.epsilon).value;
    var e := SeedAll(live, sync.history);
    SeedSameCore(live, sync.history);
    SameQueuesLinked(live.book, e.book);
    SameCoreSelf(full.book);
    hide Inv, QueuesSorted, Stored, IsSnapshot, Tracks, Linked, SameCore, New, SeedAll, Run;
    MetadataTracks(full.book, live.book, store, full.book, e.book);
    RunTracks(Progress(full, [], None), Progress(e, [], None), store, StableSort(sync.batch, EventLe()));
  }

  lemma SameCoreSelf(b: Book)
    ensures SameCore(b, b)
  {}

  lemma TracksStored(full: Book, live: Book, store: Store)
    requires Tracks(full, live, store)
    ensures Stored(full, store + live.orders)
  {
    hide SameQueues;
  }

  /** One run of the job keeps the store equal to what the never-restarted engine holds. */
  lemma SyncOnceTracks(full: Engine, s: Synced, sync: Sync)
    requires Inv(full.book) && Linked(full.book) && QueuesSorted(full.book)
    requires Stored(full.book, s.store) && IsSnapshot(sync.pending, s.store)
    requires Apply(full, sync.batch).error.None?
    ensures var r := SyncOnce(s, full.book.epsilon, sync); var p := Apply(full, sync.batch);
            r.Ok? && r.value.hedges == s.hedges + p.hedges && Stored(p.engine.book, r.value.store)
  {
    RebuiltRuns(full, s.store, sync);
    hide Inv, QueuesSorted, Stored, IsSnapshot, Tracks, New, SeedAll, Apply;
    var e := SeedAll(New(sync.pending, full.book.epsilon).value, sync.history);
    TracksStored(Apply(full, sync.batch).engine.book, Apply(e, sync.batch).engine.book, s.store);
  }

  lemma AppliedIsSorted(epsilon: real, events: seq<MatchEvent>)
    requires epsilon >= 0.0 && forall ev :: ev in events ==> UnmatchedEvent(ev)
    ensures var b := Apply(EmptyEngine(epsilon), events).engine.book;
            Inv(b) && QueuesSorted(b) && b.epsilon == epsilon
  {
    EmptyIsGood(epsilon);
    ApplyKeeps(EmptyEngine(epsilon), events);
    EventLeIsPreorder();
    SortSorts(events, EventLe());
    RunSorted(Progress(EmptyEngine(epsilon), [], None), StableSort(events, EventLe()));
    RunEpsilon(Progress(EmptyEngine(epsilon), [], None), StableSort(events, EventLe()));
  }

  /** Cutting one call in two: the second batch continues where the first one stopped. */
  lemma ApplySplit(e: Engine, xs: seq<MatchEvent>, ys: seq<MatchEvent>)
    requires Linked(e.book) && AllLe(xs, ys, EventLe()) && Apply(e, xs + ys).error.None?
    ensures Apply(e, xs).error.None? && Apply(Apply(e, xs).engine, ys).error.None?
    ensures var p := Apply(e, xs); var n := Apply(p.engine, ys);
            Apply(e, xs + ys) == n.(hedges := p.hedges + n.hedges)
  {
    SortConcat(xs, ys, EventLe());
    var p := Apply(e, xs);
    var sorted := StableSort(ys, EventLe());
    RunConcat(Progress(e, [], None), StableSort(xs, EventLe()), sorted);
    if p.error.Some? {
      RunStopped(p, sorted);
    }
    RunPrefix(p.engine, p.hedges, sorted);
  }

  /**
   Restart equivalence: over in-order batches the job, which rebuilds the engine from its stored pending orders
   before each batch, reports the same hedge results and stores the same orders, amounts and states as one
   engine fed everything in a single call.
   */
  lemma {:induction false} SyncMatchesOneShot(epsilon: real, syncs: seq<Sync>)
    requires epsilon >= 0.0 && Faithful(epsilon, syncs) && InOrder(Batches(syncs))
    requires forall ev :: ev in Flatten(Batches(syncs)) ==> UnmatchedEvent(ev)
    requires Apply(EmptyEngine(epsilon), Flatten(Batches(syncs))).error.None?
    ensures var one := Apply(EmptyEngine(epsilon), Flatten(Batches(syncs)));
            var r := SyncAll(epsilon, syncs);
            r.Ok? && r.value.hedges == one.hedges && Stored(one.engine.book, r.value.store)
    decreases |syncs|
  {
    EmptyIsGood(epsilon);
    if syncs != [] {
      var init := syncs[..|syncs| - 1];
      var last := syncs[|syncs| - 1];
      var batches := Batches(syncs);
      assert batches[..|batches| - 1] == Batches(init);
      var xs := Flatten(Batches(init));
      assert forall ev :: ev in xs ==> ev in Flatten(batches);
      ApplySplit(EmptyEngine(epsilon), xs, last.batch);
      SyncMatchesOneShot(epsilon, init);
      AppliedIsSorted(epsilon, xs);
      SyncOnceTracks(Apply(EmptyEngine(epsilon), xs).engine, SyncAll(epsilon, init).value, last);
    }
  }

  // ---- What the theorem assumes of the store can always be had

  lemma Pick<T>(keys: set<T>) returns (x: T)
    requires keys != {}
    ensures x in keys
  {
    x :| x in keys;
  }

  /** The pending rows of the store under these keys, each once. */
  ghost predicate PendingAt(pending: seq<MarginOrder>, store: Store, keys: set<int>)
    requires keys <= store.Keys
  {
    && (forall o :: o in pending ==> o.fkey in keys && store[o.fkey] == o && o.state == Pending)
    && (forall f :: f in keys && store[f].state == Pending ==> store[f] in pending)
    && (forall i, j :: 0 <= i < j < |pending| ==> pending[i].fkey != pending[j].fkey)
  }

  lemma PendingMore(rest: seq<MarginOrder>, store: Store, keys: set<int>, f: int)
    requires f in keys && keys <= store.Keys && store[f].fkey == f && PendingAt(rest, store, keys - {f})
    ensures PendingAt(if store[f].state == Pending then rest + [store[f]] else rest, store, keys)
  {
    assert forall g :: g in keys ==> g == f || g in keys - {f};
  }

  /** Every store of an engine has a snapshot of its pending rows. */
  lemma {:induction false} SnapshotOf(full: Book, store: Store, keys: set<int>) returns (pending: seq<MarginOrder>)
    requires Inv(full) && Stored(full, store) && keys <= store.Keys
    ensures PendingAt(pending, store, keys)
    decreases |keys|
  {
    pending := [];
    if keys != {} {
      var f := Pick(keys);
      StoredOrder(full, store, f);
      hide Inv, Stored, PendingAt;
      var rest := SnapshotOf(full, store, keys - {f});
      PendingMore(rest, store, keys, f);
      pending := if store[f].state == Pending then rest + [store[f]] else rest;
    }
  }

  lemma FaithfulExtend(epsilon: real, syncs: seq<Sync>, sync: Sync)
    requires Faithful(epsilon, syncs)
    requires SyncAll(epsilon, syncs).Ok? ==> IsSnapshot(sync.pending, SyncAll(epsilon, syncs).value.store)
    ensures Faithful(epsilon, syncs + [sync]) && Batches(syncs + [sync]) == Batches(syncs) + [sync.batch]
  {
    assert (syncs + [sync])[..|syncs|] == syncs;
  }

  /** What a run of the job has stored, it can read back. */
  lemma ReadBack(epsilon: real, syncs: seq<Sync>) returns (pending: seq<MarginOrder>)
    requires epsilon >= 0.0 && Faithful(epsilon, syncs) && InOrder(Batches(syncs))
    requires forall ev :: ev in Flatten(Batches(syncs)) ==> UnmatchedEvent(ev)
    requires Apply(EmptyEngine(epsilon), Flatten(Batches(syncs))).error.None?
    ensures SyncAll(epsilon, syncs).Ok? && IsSnapshot(pending, SyncAll(epsilon, syncs).value.store)
  {
    EmptyIsGood(epsilon);
    hide *;
    SyncMatchesOneShot(epsilon, syncs);
    AppliedIsSorted(epsilon, Flatten(Batches(syncs)));
    pending := SnapshotOfAll(Apply(EmptyEngine(epsilon), Flatten(Batches(syncs))).engine.book,
                             SyncAll(epsilon, syncs).value.store);
  }

  lemma SnapshotOfAll(full: Book, store: Store) returns (pending: seq<MarginOrder>)
    requires Inv(full) && Stored(full, store)
    ensures IsSnapshot(pending, store)
  {
    hide Inv, Stored;
    pending := SnapshotOf(full, store, store.Keys);
  }

  lemma EarlierBatches(epsilon: real, batches: seq<seq<MatchEvent>>)
    requires epsilon >= 0.0 && InOrder(batches) && batches != []
    requires forall ev :: ev in Flatten(batches) ==> UnmatchedEvent(ev)
    requires Apply(EmptyEngine(epsilon), Flatten(batches)).error.None?
    ensures var xs := Flatten(batches[..|batches| - 1]);
            && InOrder(batches[..|batches| - 1]) && Apply(EmptyEngine(epsilon), xs).error.None?
            && forall ev :: ev in xs ==> UnmatchedEvent(ev)
  {
    var xs := Flatten(batches[..|batches| - 1]);
    EmptyIsGood(epsilon);
    ApplySplit(EmptyEngine(epsilon), xs, batches[|batches| - 1]);
    hide UnmatchedEvent, Apply;
    assert forall ev :: ev in xs ==> ev in Flatten(batches);
  }

  /** Whatever the in-order batches, a job that reads its own pending rows back is one the theorem speaks about. */
  lemma {:induction false} FaithfulRunExists(epsilon: real, batches: seq<seq<MatchEvent>>) returns (syncs: seq<Sync>)
    requires epsilon >= 0.0 && InOrder(batches)
    requires forall ev :: ev in Flatten(batches) ==> UnmatchedEvent(ev)
    requires Apply(EmptyEngine(epsilon), Flatten(batches)).error.None?
    ensures Batches(syncs) == batches && Faithful(epsilon, syncs)
    decreases |batches|
  {
    syncs := [];
    if batches != [] {
      EarlierBatches(epsilon, batches);
      InitAndLast(batches);
      hide *;
      var before := FaithfulRunExists(epsilon, batches[..|batches| - 1]);
      var pending := ReadBack(epsilon, before);
      var sync := Sync(pending, [], batches[|batches| - 1]);
      FaithfulExtend(epsilon, before, sync);
      syncs := before + [sync];
    }
  }
}
