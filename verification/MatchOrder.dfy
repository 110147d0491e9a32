/**
 What loading and one call do in terms of the fields of orders and events alone: the order of the queues, which inputs
 are accepted, when a hedge meets the order it hedges, and what an order shows of its hedges.
 */
module MatchOrder {
  import opened Prelude
  import opened StableSorting
  import opened MatchBook
  import opened MatchInvariants
  import opened MatchRun
  import opened MatchReachable
  import opened MatchHedges
  import opened MatchRestart

  // ---- Loading a snapshot

  /** By opening time, then by source time, then by fkey. */
  predicate OpensBefore(a: MarginOrder, b: MarginOrder) {
    a.openUts < b.openUts
    || (a.openUts == b.openUts && a.openSourceTs < b.openSourceTs)
    || (a.openUts == b.openUts && a.openSourceTs == b.openSourceTs && a.fkey <= b.fkey)
  }

  /** Every order has something left and no two are the same order. */
  ghost predicate LoadableRows(pending: seq<MarginOrder>, epsilon: real) {
    && (forall i :: 0 <= i < |pending| ==> pending[i].remaining > epsilon)
    && (forall i, j :: 0 <= i < j < |pending| ==> pending[i].fkey != pending[j].fkey)
  }

  /** What the last step of loading says about the order it loaded. */
  lemma LastLoaded(b: Book, epsilon: real, init: seq<MarginOrder>, o: MarginOrder)
    requires Loaded(b, epsilon, init) && o.remaining > b.epsilon && o.fkey !in b.orders && Loadable(init, epsilon)
    ensures Loadable(init + [o], epsilon)
  {
    forall i | 0 <= i < |init| ensures init[i].fkey != o.fkey {
      assert init[i].fkey in b.orders;
    }
  }

  lemma LoadStep(epsilon: real, init: seq<MarginOrder>, o: MarginOrder)
    requires epsilon >= 0.0 && LoadAll(epsilon, init + [o]).Ok?
    ensures LoadAll(epsilon, init).Ok?
    ensures var b := LoadAll(epsilon, init).value.book; o.remaining > b.epsilon && o.fkey !in b.orders
  {
    assert (init + [o])[..|init|] == init;
  }

  lemma {:induction false} LoadedWasLoadable(epsilon: real, pending: seq<MarginOrder>)
    requires epsilon >= 0.0 && LoadAll(epsilon, pending).Ok?
    ensures Loadable(pending, epsilon)
    decreases |pending|
  {
    if pending != [] {
      var init, o := pending[..|pending| - 1], pending[|pending| - 1];
      InitAndLast(pending);
      hide *;
      LoadStep(epsilon, init, o);
      LoadedWasLoadable(epsilon, init);
      LoadAllShape(epsilon, init);
      LastLoaded(LoadAll(epsilon, init).value.book, epsilon, init, o);
    }
  }

  lemma LoadableSorted(pending: seq<MarginOrder>, sorted: seq<MarginOrder>, epsilon: real)
    requires multiset(sorted) == multiset(pending) && LoadableRows(pending, epsilon)
    ensures Loadable(sorted, epsilon)
  {
    forall o | o in sorted ensures o.remaining > epsilon {
      assert o in multiset(sorted);
    }
    forall i, j | 0 <= i < j < |sorted| ensures sorted[i].fkey != sorted[j].fkey {
      var a, b := Positions(pending, sorted, i, j);
    }
  }

  /** Loading succeeds exactly for a tolerance that is not negative and distinct orders with something left. */
  lemma LoadsIff(pending: seq<MarginOrder>, epsilon: real)
    ensures New(pending, epsilon).Ok? <==> epsilon >= 0.0 && LoadableRows(pending, epsilon)
  {
    var sorted := StableSort(pending, MarginLe());
    SortPermutes(pending, MarginLe());
    if epsilon >= 0.0 && LoadableRows(pending, epsilon) {
      LoadableSorted(pending, sorted, epsilon);
      LoadAllShape(epsilon, sorted);
    }
    if New(pending, epsilon).Ok? {
      LoadedWasLoadable(epsilon, sorted);
      hide LoadAll;
      forall i | 0 <= i < |pending| ensures pending[i].remaining > epsilon {
        assert pending[i] in sorted;
      }
      forall i, j | 0 <= i < j < |pending| ensures pending[i].fkey != pending[j].fkey {
        var a, b := Positions(sorted, pending, i, j);
      }
    }
  }

  lemma MarginKeysAreFields(a: MarginOrder, b: MarginOrder)
    ensures KeyLe(MarginKey(a), MarginKey(b)) <==> OpensBefore(a, b)
  {}

  /** What was loaded: each order as pending, queued once in the queue of its symbol and side. */
  ghost predicate Holds(b: Book, pending: seq<MarginOrder>) {
    && (forall f :: f in b.orders <==> exists i :: 0 <= i < |pending| && pending[i].fkey == f)
    && (forall i :: 0 <= i < |pending| ==>
          && pending[i].fkey in b.orders && b.orders[pending[i].fkey] == pending[i].(state := Pending)
          && pending[i].fkey in Queue(b, (pending[i].symbol, pending[i].side)))
    && (forall k: QueueKey, f :: f in Queue(b, k) ==> f in b.orders && (b.orders[f].symbol, b.orders[f].side) == k)
  }

  /** Two places of a queue hold two orders, the first of which opened no later. */
  ghost predicate InOpeningOrder(b: Book, k: QueueKey, i: nat, j: nat)
    requires i < j < |Queue(b, k)|
  {
    var x, y := Queue(b, k)[i], Queue(b, k)[j];
    x in b.orders && y in b.orders && x != y && OpensBefore(b.orders[x], b.orders[y])
  }

  ghost predicate QueuesInOrder(b: Book) {
    forall k: QueueKey, i: nat, j: nat :: i < j < |Queue(b, k)| ==> InOpeningOrder(b, k, i, j)
  }

  lemma SortedQueue(b: Book, epsilon: real, sorted: seq<MarginOrder>, k: QueueKey, i: nat, j: nat)
    requires Loaded(b, epsilon, sorted) && Loadable(sorted, epsilon) && Sorted(sorted, MarginLe())
    requires i < j < |Queue(b, k)|
    ensures InOpeningOrder(b, k, i, j)
  {
    assert Queue(b, k) == KeysOf(sorted, k);
    KeysOfOrder(sorted, k, b.orders);
    hide KeysOf, KeyLe, MarginKey, OpensBefore;
    assert ByKey(b.orders)(Queue(b, k)[i], Queue(b, k)[j]);
    MarginKeysAreFields(b.orders[Queue(b, k)[i]], b.orders[Queue(b, k)[j]]);
  }

  lemma SortedHolds(b: Book, epsilon: real, sorted: seq<MarginOrder>, pending: seq<MarginOrder>)
    requires Loaded(b, epsilon, sorted) && Loadable(sorted, epsilon) && forall o :: o in sorted <==> o in pending
    ensures Holds(b, pending)
  {
    hide KeysOf;
    forall i | 0 <= i < |pending|
      ensures pending[i].fkey in b.orders && b.orders[pending[i].fkey] == pending[i].(state := Pending)
      ensures pending[i].fkey in Queue(b, (pending[i].symbol, pending[i].side))
    {
      assert pending[i] in sorted;
      var j :| 0 <= j < |sorted| && sorted[j] == pending[i];
      KeysOfMembers(sorted, pending[i].Key(), pending[i].fkey);
      assert Queue(b, pending[i].Key()) == KeysOf(sorted, pending[i].Key());
    }
    forall k: QueueKey, f | f in Queue(b, k) ensures f in b.orders && (b.orders[f].symbol, b.orders[f].side) == k {
      assert Queue(b, k) == KeysOf(sorted, k);
      KeysOfMembers(sorted, k, f);
      var j :| 0 <= j < |sorted| && sorted[j].fkey == f && sorted[j].Key() == k;
    }
    forall f | f in b.orders ensures exists i :: 0 <= i < |pending| && pending[i].fkey == f {
      var j :| 0 <= j < |sorted| && sorted[j].fkey == f;
      assert sorted[j] in pending;
    }
  }

  lemma SortedInOrder(b: Book, epsilon: real, sorted: seq<MarginOrder>)
    requires Loaded(b, epsilon, sorted) && Loadable(sorted, epsilon) && Sorted(sorted, MarginLe())
    ensures QueuesInOrder(b)
  {
    hide Loaded, Loadable, Sorted, InOpeningOrder;
    forall k: QueueKey, i: nat, j: nat | i < j < |Queue(b, k)| ensures InOpeningOrder(b, k, i, j) {
      SortedQueue(b, epsilon, sorted, k, i, j);
    }
  }

  lemma NewIsLoadAll(pending: seq<MarginOrder>, epsilon: real)
    requires New(pending, epsilon).Ok?
    ensures epsilon >= 0.0 && New(pending, epsilon) == LoadAll(epsilon, StableSort(pending, MarginLe()))
  {}

  /** A loaded engine holds exactly the snapshot, each queue in opening order. */
  lemma LoadedInOpeningOrder(pending: seq<MarginOrder>, epsilon: real)
    requires New(pending, epsilon).Ok?
    ensures Holds(New(pending, epsilon).value.book, pending) && QueuesInOrder(New(pending, epsilon).value.book)
  {
    hide *;
    var sorted := StableSort(pending, MarginLe());
    NewIsLoadAll(pending, epsilon);
    SortPermutes(pending, MarginLe());
    MarginLeIsPreorder();
    SortSorts(pending, MarginLe());
    LoadedWasLoadable(epsilon, sorted);
    LoadAllShape(epsilon, sorted);
    var b := New(pending, epsilon).value.book;
    SortedHolds(b, epsilon, sorted, pending);
    SortedInOrder(b, epsilon, sorted);
  }

  // ---- Which events are accepted

  /** Fills that count and orders that are new; futures fills that are not negative and, when they count, are timed. */
  ghost predicate Acceptable(known: set<int>, epsilon: real, events: seq<MatchEvent>) {
    && (forall i :: 0 <= i < |events| ==> AcceptableAlone(known, epsilon, events[i]))
    && (forall i, j :: 0 <= i < j < |events| ==> DifferentOrders(events[i], events[j]))
  }

  predicate AcceptableAlone(known: set<int>, epsilon: real, ev: MatchEvent) {
    match ev
    case Margin(o) => o.fill > epsilon && o.fkey !in known
    case Futures(f) => f.amount >= -epsilon && (f.amount > epsilon ==> f.fillTs.Some?)
  }

  predicate DifferentOrders(x: MatchEvent, y: MatchEvent) {
    x.Margin? && y.Margin? ==> x.margin.fkey != y.margin.fkey
  }

  function Known(ev: MatchEvent): set<int> { if ev.Margin? then {ev.margin.fkey} else {} }

  lemma StepAccepts(p: Progress, ev: MatchEvent)
    requires Linked(p.engine.book) && p.error.None?
    ensures var r := Step(p, ev); var b := p.engine.book;
            && (r.error.None? <==> AcceptableAlone(b.orders.Keys, b.epsilon, ev))
            && r.engine.book.epsilon == b.epsilon
            && (r.error.None? ==> r.engine.book.orders.Keys == b.orders.Keys + Known(ev))
  {
    hide Logged;
    assert ev.Futures? ==> p.engine.book.orders.Keys + {} == p.engine.book.orders.Keys;
  }

  lemma AcceptableHead(known: set<int>, epsilon: real, ev: MatchEvent, later: seq<MatchEvent>)
    ensures Acceptable(known, epsilon, [ev] + later)
            <==> AcceptableAlone(known, epsilon, ev) && Acceptable(known + Known(ev), epsilon, later)
  {
    var all := [ev] + later;
    assert forall i :: 0 <= i < |later| ==> all[i + 1] == later[i];
    if Acceptable(known, epsilon, all) {
      assert AcceptableAlone(known, epsilon, all[0]);
      forall i | 0 <= i < |later| ensures AcceptableAlone(known + Known(ev), epsilon, later[i]) {
        assert AcceptableAlone(known, epsilon, all[i + 1]) && DifferentOrders(all[0], all[i + 1]);
      }
      forall i, j | 0 <= i < j < |later| ensures DifferentOrders(later[i], later[j]) {
        assert DifferentOrders(all[i + 1], all[j + 1]);
      }
    }
    if AcceptableAlone(known, epsilon, ev) && Acceptable(known + Known(ev), epsilon, later) {
      forall i | 0 <= i < |all| ensures AcceptableAlone(known, epsilon, all[i]) {
        assert i > 0 ==> all[i] == later[i - 1] && AcceptableAlone(known + Known(ev), epsilon, later[i - 1]);
      }
      forall i, j | 0 <= i < j < |all| ensures DifferentOrders(all[i], all[j]) {
        assert all[j] == later[j - 1] && AcceptableAlone(known + Known(ev), epsilon, later[j - 1]);
        assert i > 0 ==> all[i] == later[i - 1] && DifferentOrders(later[i - 1], later[j - 1]);
      }
    }
  }

  lemma {:induction false} RunAccepts(p: Progress, events: seq<MatchEvent>)
    requires Linked(p.engine.book) && p.error.None?
    ensures Run(p, events).error.None?
            <==> Acceptable(p.engine.book.orders.Keys, p.engine.book.epsilon, events)
    decreases |events|
  {
    if events != [] {
      var b := p.engine.book;
      StepAccepts(p, events[0]);
      HeadAndTail(events);
      hide Acceptable, AcceptableAlone, Step;
      AcceptableHead(b.orders.Keys, b.epsilon, events[0], events[1..]);
      var n := Step(p, events[0]);
      if n.error.None? {
        RunAccepts(n, events[1..]);
      } else {
        RunStopped(n, events[1..]);
      }
    }
  }

  lemma AcceptablePermuted(known: set<int>, epsilon: real, xs: seq<MatchEvent>, ys: seq<MatchEvent>)
    requires multiset(xs) == multiset(ys) && Acceptable(known, epsilon, xs)
    ensures Acceptable(known, epsilon, ys)
  {
    forall i | 0 <= i < |ys| ensures AcceptableAlone(known, epsilon, ys[i]) {
      assert ys[i] in multiset(ys);
      var a :| 0 <= a < |xs| && xs[a] == ys[i];
    }
    forall i, j | 0 <= i < j < |ys| ensures DifferentOrders(ys[i], ys[j]) {
      var a, b := Positions(xs, ys, i, j);
      assert a < b ==> DifferentOrders(xs[a], xs[b]);
      assert b < a ==> DifferentOrders(xs[b], xs[a]);
    }
  }

  /**
   One call is accepted, in whichever order its events are delivered, exactly when each margin order has a fill above
   the tolerance and a fkey that is new, and each futures order an amount that is not negative and a fill time when the
   amount counts.
   */
  lemma AcceptedIff(e: Engine, events: seq<MatchEvent>)
    requires Linked(e.book)
    ensures Apply(e, events).error.None? <==> Acceptable(e.book.orders.Keys, e.book.epsilon, events)
  {
    var sorted := StableSort(events, EventLe());
    SortPermutes(events, EventLe());
    RunAccepts(Progress(e, [], None), sorted);
    hide Acceptable, Run, StableSort;
    var known := e.book.orders.Keys;
    if Acceptable(known, e.book.epsilon, events) {
      AcceptablePermuted(known, e.book.epsilon, events, sorted);
    }
    if Acceptable(known, e.book.epsilon, sorted) {
      AcceptablePermuted(known, e.book.epsilon, sorted, events);
    }
  }

  // ---- A fill and the hedge that names no other

  /** Nothing of the symbol is pending, and both events count. */
  ghost predicate Alone(e: Engine, m: MarginOrder, f: FuturesOrder) {
    && Linked(e.book) && m.symbol == f.symbol && m.side != f.side
    && Queue(e.book, (m.symbol, Buy)) == [] && Queue(e.book, (m.symbol, Sell)) == []
    && m.fill > e.book.epsilon && m.fkey !in e.book.orders
    && f.amount > e.book.epsilon && f.fillTs.Some?
  }

  /** What is left of an amount; too little counts as nothing. */
  function LeftOf(amount: real, taken: real, epsilon: real): real {
    if amount - taken > epsilon then amount - taken else 0.0
  }

  lemma MarginEnters(e: Engine, m: MarginOrder)
    requires Linked(e.book) && m.fill > e.book.epsilon && m.fkey !in e.book.orders
    requires Queue(e.book, (m.symbol, Buy)) == [] && Queue(e.book, (m.symbol, Sell)) == []
    ensures var p := Step(Progress(e, [], None), Margin(m)); var b := p.engine.book;
            && p.error.None? && p.hedges == [] && b.epsilon == e.book.epsilon && m.fkey in b.orders
            && Queue(b, (m.symbol, m.side)) == [m.fkey]
            && b.orders[m.fkey].remaining == m.fill && b.orders[m.fkey].camount == m.camount
  {
    var o := WithKnownHedges(e.log, m);
    AddMarginShape(e.book, o);
    var b1 := e.book.(orders := e.book.orders[o.fkey := Fresh(o)]);
    assert Queue(b1, (m.symbol, Buy)) == [] && Queue(b1, (m.symbol, Sell)) == [];
    NetLoopUnfolds(b1, o.fkey, (o.symbol, o.side.Opposite()));
  }

  /** A hedge meets the one order queued on the other side. */
  lemma HedgeMeets(e: Engine, hedges: seq<HedgeResult>, fkey: int, f: FuturesOrder, other: Side)
    requires Linked(e.book) && f.amount > e.book.epsilon && f.fillTs.Some? && other != f.side
    requires Queue(e.book, (f.symbol, other)) == [fkey] && fkey in e.book.orders
    requires e.book.orders[fkey].remaining > e.book.epsilon
    ensures var p := Step(Progress(e, hedges, None), Futures(f)); var b := p.engine.book;
            var before := e.book.orders[fkey]; var q := Min(f.amount, before.remaining);
            && p.error.None? && |p.hedges| == |hedges| + 1 && p.hedges[|hedges|].order == f && fkey in b.orders
            && b.orders[fkey].camount == before.camount + q
            && b.orders[fkey].remaining == LeftOf(before.remaining, q, b.epsilon)
            && p.hedges[|hedges|].unallocatedAmount == LeftOf(f.amount, q, b.epsilon)
            && p.hedges[|hedges|].allocatedAmount == f.amount - LeftOf(f.amount, q, b.epsilon)
  {
    var e1 := Logged(e, f);
    SameQueuesLinked(e.book, e1.book);
    LoggedSameCore(e, f);
    assert Core(e1.book.orders[fkey]) == Core(e.book.orders[fkey]);
    assert Core(e.book.orders[fkey]).remaining == e.book.orders[fkey].remaining;
    assert Core(e1.book.orders[fkey]).remaining == e1.book.orders[fkey].remaining;
    assert Core(e.book.orders[fkey]).camount == e.book.orders[fkey].camount;
    assert Core(e1.book.orders[fkey]).camount == e1.book.orders[fkey].camount;
    var k := (f.symbol, other);
    var h := HedgeStart(e1.book, f);
    assert f.side.Opposite() == other && Queue(h.book, k) == [fkey];
    HedgeLoopUnfolds(h, f, k);
    HedgeLoopUnfolds(HedgeStep(h, f, k), f, k);
    hide Logged, RejectsFutures;
  }

  /** A hedge that finds the other side empty stays as it is. */
  lemma HedgeMisses(e: Engine, f: FuturesOrder, other: Side)
    requires Linked(e.book) && f.amount > e.book.epsilon && f.fillTs.Some? && other != f.side
    requires Queue(e.book, (f.symbol, other)) == []
    ensures var p := Step(Progress(e, [], None), Futures(f)); var b := p.engine.book;
            && p.error.None? && p.hedges == [HedgeResult(f, 0.0, f.amount, false)]
            && b.epsilon == e.book.epsilon && b.orders.Keys == e.book.orders.Keys && b.queues == e.book.queues
  {
    var e1 := Logged(e, f);
    SameQueuesLinked(e.book, e1.book);
    var k := (f.symbol, other);
    assert f.side.Opposite() == other && Queue(e1.book, k) == [];
    HedgeLoopUnfolds(HedgeStart(e1.book, f), f, k);
    hide Logged;
  }

  lemma StepTwice(p: Progress, x: MatchEvent, y: MatchEvent)
    requires Linked(p.engine.book)
    ensures Run(p, [x, y]) == Step(Step(p, x), y)
  {
    hide Step;
    assert [x, y][1..] == [y];
    assert Run(Step(p, x), [y]) == Step(Step(p, x), y);
  }

  lemma PairInOrder(m: MarginOrder, f: FuturesOrder, batch: seq<MatchEvent>, s: seq<MatchEvent>)
    requires batch == [Margin(m), Futures(f)] || batch == [Futures(f), Margin(m)]
    requires multiset(s) == multiset(batch)
    requires forall i, j :: 0 <= i < j < |s| ==> ComesBefore(s[i], s[j])
    ensures s == if ComesBefore(Margin(m), Futures(f)) then [Margin(m), Futures(f)] else [Futures(f), Margin(m)]
  {
    SameBag(s, batch);
    assert s == [s[0], s[1]];
    assert multiset(s) == multiset{s[0], s[1]} && multiset(batch) == multiset{Margin(m), Futures(f)};
    assert s[0] in multiset(s) && s[1] in multiset(s);
    assert ComesBefore(s[0], s[1]);
  }

  /** The hedge closed as much of the fill as it could. */
  ghost predicate Hedged(p: Progress, m: MarginOrder, f: FuturesOrder, epsilon: real) {
    && p.error.None? && |p.hedges| == 1 && p.hedges[0].order == f && m.fkey in p.engine.book.orders
    && var closed, o := if f.amount <= m.fill then f.amount else m.fill, p.engine.book.orders[m.fkey];
       && o.camount == m.camount + closed && o.remaining == LeftOf(m.fill, closed, epsilon)
       && p.hedges[0].unallocatedAmount == LeftOf(f.amount, closed, epsilon)
       && p.hedges[0].allocatedAmount == f.amount - LeftOf(f.amount, closed, epsilon)
  }

  /** The hedge found nothing, and the fill waits for another one. */
  ghost predicate Missed(p: Progress, m: MarginOrder, f: FuturesOrder) {
    && p.error.None? && |p.hedges| == 1 && p.hedges[0].order == f && m.fkey in p.engine.book.orders
    && var o := p.engine.book.orders[m.fkey];
       && o.camount == m.camount && o.remaining == m.fill
       && p.hedges[0].unallocatedAmount == f.amount && p.hedges[0].allocatedAmount == 0.0
  }

  lemma FillThenHedge(e: Engine, m: MarginOrder, f: FuturesOrder)
    requires Alone(e, m, f)
    ensures Hedged(Step(Step(Progress(e, [], None), Margin(m)), Futures(f)), m, f, e.book.epsilon)
  {
    MarginEnters(e, m);
    hide Step;
    HedgeMeets(Step(Progress(e, [], None), Margin(m)).engine, [], m.fkey, f, m.side);
  }

  lemma HedgeThenFill(e: Engine, m: MarginOrder, f: FuturesOrder)
    requires Alone(e, m, f)
    ensures Missed(Step(Step(Progress(e, [], None), Futures(f)), Margin(m)), m, f)
  {
    HedgeMisses(e, f, m.side);
    var p1 := Step(Progress(e, [], None), Futures(f));
    assert Queue(p1.engine.book, (m.symbol, Buy)) == [] && Queue(p1.engine.book, (m.symbol, Sell)) == [];
    hide Step;
    MarginEnters(p1.engine, m);
    StepCarries(p1, Margin(m));
  }

  /**
   A margin fill and a hedge of it in one call, delivered either way, with nothing else of the symbol pending: the hedge
   closes the fill when the fill opened first, and otherwise closes nothing and leaves it pending.
   */
  lemma HedgedWhenOpenedFirst(e: Engine, m: MarginOrder, f: FuturesOrder, batch: seq<MatchEvent>)
    requires Alone(e, m, f) && (batch == [Margin(m), Futures(f)] || batch == [Futures(f), Margin(m)])
    ensures if m.openUts < f.createTs || (m.openUts == f.createTs && m.openSourceTs <= f.sourceTs)
            then Hedged(Apply(e, batch), m, f, e.book.epsilon)
            else Missed(Apply(e, batch), m, f)
  {
    var s := AppliedInSourceOrder(e, batch);
    PairInOrder(m, f, batch, s);
    var p0 := Progress(e, [], None);
    hide Apply, Run, Step, SourceOrdered, Hedged, Missed;
    if ComesBefore(Margin(m), Futures(f)) {
      StepTwice(p0, Margin(m), Futures(f));
      FillThenHedge(e, m, f);
    } else {
      StepTwice(p0, Futures(f), Margin(m));
      HedgeThenFill(e, m, f);
    }
  }

  /** Hedges reported so far are only carried along by a margin order. */
  lemma StepCarries(p: Progress, ev: MatchEvent)
    requires Linked(p.engine.book) && ev.Margin?
    ensures var r := Step(p.(hedges := []), ev);
            Step(p, ev) == r.(hedges := p.hedges)
  {
    hide AddMargin;
  }

  // ---- What an order shows of its hedges

  /** The futures orders of these events that name `f`. */
  ghost predicate Names(events: seq<MatchEvent>, f: int, o: FuturesOrder) {
    Futures(o) in events && o.mainFkey == Some(f)
  }

  /** By creation time, then by source time, then by client order id. */
  predicate CreatedBefore(a: FuturesOrder, b: FuturesOrder) {
    a.createTs < b.createTs
    || (a.createTs == b.createTs && a.sourceTs < b.sourceTs)
    || (a.createTs == b.createTs && a.sourceTs == b.sourceTs && a.clientOrderId <= b.clientOrderId)
  }

  /** The earliest hedge, or nothing. */
  ghost predicate ShowsEarliest(h: HedgeInfo, events: seq<MatchEvent>, f: int) {
    if forall o :: !Names(events, f, o) then h.hts.None? && h.newTs.None? && h.terminalTs.None?
    else exists first :: Names(events, f, first)
           && (forall o :: Names(events, f, o) ==> CreatedBefore(first, o))
           && h.hts == Some(first.createTs) && h.newTs == first.newTs && h.terminalTs == first.terminalTs
  }

  /** The latest fill time, or nothing. */
  ghost predicate ShowsLatestFill(h: HedgeInfo, events: seq<MatchEvent>, f: int) {
    match h.fts
    case None => forall o :: Names(events, f, o) ==> o.fillTs.None?
    case Some(t) =>
      && (exists o :: Names(events, f, o) && o.fillTs == Some(t))
      && (forall o :: Names(events, f, o) && o.fillTs.Some? ==> o.fillTs.value <= t)
  }

  /** The client order ids of the hedges that name `f`. */
  ghost function HedgeIds(events: seq<MatchEvent>, f: int): set<int> {
    set ev | ev in events && ev.Futures? && ev.futures.mainFkey == Some(f) :: ev.futures.clientOrderId
  }

  lemma NamedSeen(events: seq<MatchEvent>, f: int, o: FuturesOrder)
    requires Names(events, f, o)
    ensures Sighting(f, TimingOf(o), o.fillTs) in SightingsIn(events)
  {}

  lemma SeenNamed(events: seq<MatchEvent>, s: Sighting) returns (o: FuturesOrder)
    requires s in SightingsIn(events)
    ensures Names(events, s.fkey, o) && s.fill == o.fillTs && s.timing.createTs == o.createTs
    ensures s.timing.newTs == o.newTs && s.timing.terminalTs == o.terminalTs
    ensures s.timing.sourceTs == o.sourceTs && s.timing.clientOrderId == o.clientOrderId
  {
    var ev :| ev in events && ev.Futures? && ev.futures.mainFkey.Some?
              && s == Sighting(ev.futures.mainFkey.value, TimingOf(ev.futures), ev.futures.fillTs);
    o := ev.futures;
  }

  lemma SeenIdsAre(events: seq<MatchEvent>, f: int)
    ensures IdsOf(SightingsIn(events), f) == HedgeIds(events, f)
  {
    var seen := SightingsIn(events);
    forall id | id in IdsOf(seen, f) ensures id in HedgeIds(events, f) {
      var s :| s in seen && s.fkey == f && s.timing.clientOrderId == id;
      var o := SeenNamed(events, s);
      assert Futures(o) in events;
    }
    forall id | id in HedgeIds(events, f) ensures id in IdsOf(seen, f) {
      var ev :| ev in events && ev.Futures? && ev.futures.mainFkey == Some(f) && ev.futures.clientOrderId == id;
      NamedSeen(events, f, ev.futures);
      assert Sighting(f, TimingOf(ev.futures), ev.futures.fillTs).timing.clientOrderId == id;
    }
  }

  lemma EarliestShown(h: HedgeInfo, events: seq<MatchEvent>, f: int)
    requires ShowsFirst(h, SightingsIn(events), f)
    ensures ShowsEarliest(h, events, f)
  {
    var seen := SightingsIn(events);
    hide SightingsIn, TimingOf;
    if forall s :: s in seen ==> s.fkey != f {
      forall o ensures !Names(events, f, o) {
        if Names(events, f, o) {
          NamedSeen(events, f, o);
          assert false;
        }
      }
    } else {
      var s :| s in seen && s.fkey == f
               && (forall t :: t in seen && t.fkey == f ==> KeyLe(TimingKey(s.timing), TimingKey(t.timing)))
               && h.hts == Some(s.timing.createTs)
               && h.newTs == s.timing.newTs && h.terminalTs == s.timing.terminalTs;
      var first := SeenNamed(events, s);
      forall o | Names(events, f, o) ensures CreatedBefore(first, o) {
        NamedSeen(events, f, o);
        EarlierTiming(s, first, o);
      }
    }
  }

  lemma EarlierTiming(s: Sighting, first: FuturesOrder, o: FuturesOrder)
    requires s.timing.createTs == first.createTs && s.timing.sourceTs == first.sourceTs
    requires s.timing.clientOrderId == first.clientOrderId && KeyLe(TimingKey(s.timing), TimingKey(TimingOf(o)))
    ensures CreatedBefore(first, o)
  {}

  lemma LatestFillShown(h: HedgeInfo, events: seq<MatchEvent>, f: int)
    requires ShowsLastFill(h, SightingsIn(events), f)
    ensures ShowsLatestFill(h, events, f)
  {
    var seen := SightingsIn(events);
    hide SightingsIn;
    forall o | Names(events, f, o)
      ensures h.fts.None? ==> o.fillTs.None?
      ensures h.fts.Some? && o.fillTs.Some? ==> o.fillTs.value <= h.fts.value
    {
      NamedSeen(events, f, o);
      var s := Sighting(f, TimingOf(o), o.fillTs);
      assert s in seen && s.fkey == f && s.fill == o.fillTs;
    }
    if h.fts.Some? {
      var s :| s in seen && s.fkey == f && s.fill == h.fts;
      var o := SeenNamed(events, s);
    }
  }

  /**
   After any batches, in any order, every order shows the times of its earliest hedge, its latest fill time and how many
   hedge orders named it, whether they came before it, with it or after it.
   */
  lemma HedgesShown(epsilon: real, batches: seq<seq<MatchEvent>>, f: int)
    requires epsilon >= 0.0 && forall ev :: ev in Flatten(batches) ==> UnhedgedEvent(ev)
    requires ApplyBatches(EmptyEngine(epsilon), batches).error.None?
    requires f in ApplyBatches(EmptyEngine(epsilon), batches).engine.book.orders
    ensures var h := ApplyBatches(EmptyEngine(epsilon), batches).engine.book.orders[f].hedge;
            var events := Flatten(batches);
            && ShowsEarliest(h, events, f) && ShowsLatestFill(h, events, f)
            && h.closeCount == |HedgeIds(events, f)|
  {
    assert SeedAll(EmptyEngine(epsilon), []) == EmptyEngine(epsilon);
    HedgesShownRegardlessOfArrival(epsilon, [], batches, f);
    var events := Flatten(batches);
    assert HistorySightings([]) + SightingsIn(events) == SightingsIn(events);
    var h := ApplyBatches(EmptyEngine(epsilon), batches).engine.book.orders[f].hedge;
    hide ApplyBatches, ShowsFirst, ShowsLastFill, ShowsEarliest, ShowsLatestFill, SightingsIn, IdsOf, HedgeIds;
    EarliestShown(h, events, f);
    LatestFillShown(h, events, f);
    SeenIdsAre(events, f);
  }
}
