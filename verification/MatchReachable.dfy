/** The book invariants hold in every state any run of batches can reach from an empty engine. */
module MatchReachable {
  import opened Prelude
  import opened MapSum
  import opened StableSorting
  import opened MatchBook
  import opened MatchInvariants
  import opened MatchConservation
  import opened MatchRun

  const NO_HEDGE := HedgeInfo(None, None, None, None, 0)

  /** An order without its hedge metadata: what matching decides. */
  function Core(o: MarginOrder): MarginOrder { o.(hedge := NO_HEDGE) }

  /** Two books that differ in hedge metadata only. */
  ghost predicate SameCore(b: Book, r: Book) {
    && r.epsilon == b.epsilon && r.queues == b.queues && r.orders.Keys == b.orders.Keys
    && (forall f :: f in b.orders ==> Core(r.orders[f]) == Core(b.orders[f]))
  }

  lemma CoreKeepsInv(b: Book, r: Book)
    requires Inv(b) && SameCore(b, r)
    ensures Inv(r)
  {
    forall f | f in r.orders ensures r.orders[f].fkey == f && OrderOk(r.orders[f], r.epsilon) {
      assert Core(r.orders[f]) == Core(b.orders[f]);
    }
    forall k: QueueKey ensures QueueOk(r, k, {}) {
      assert QueueOk(b, k, {});
      forall f | f in Queue(r, k) ensures r.orders[f].Key() == k && r.orders[f].remaining > r.epsilon {
        assert Core(r.orders[f]) == Core(b.orders[f]);
      }
    }
    forall f | f in r.orders && r.orders[f].remaining > r.epsilon ensures f in Queue(r, r.orders[f].Key()) {
      assert Core(r.orders[f]) == Core(b.orders[f]);
      assert f in Queue(b, b.orders[f].Key());
    }
    forall s: string ensures Queue(r, (s, Buy)) == [] || Queue(r, (s, Sell)) == [] {
      assert Queue(b, (s, Buy)) == [] || Queue(b, (s, Sell)) == [];
    }
  }

  lemma CoreKeepsSum(b: Book, r: Book, m: MarginOrder -> real)
    requires SameCore(b, r)
    requires forall o :: m(o) == m(Core(o))
    ensures SumOver(r.orders, m) == SumOver(b.orders, m)
  {
    forall f | f in b.orders ensures m(r.orders[f]) == m(b.orders[f]) {
      assert Core(r.orders[f]) == Core(b.orders[f]);
      assert m(r.orders[f]) == m(Core(r.orders[f])) && m(b.orders[f]) == m(Core(b.orders[f]));
    }
    SumAgree(b.orders, r.orders, b.orders.Keys, m);
  }

  lemma CoreKeepsBalance(b: Book, r: Book)
    requires SameCore(b, r) && NettingBalanced(b)
    ensures NettingBalanced(r)
  {
    forall s: string ensures SumOver(r.orders, NettedOn(s, Buy)) == SumOver(r.orders, NettedOn(s, Sell)) {
      CoreKeepsSum(b, r, NettedOn(s, Buy));
      CoreKeepsSum(b, r, NettedOn(s, Sell));
    }
  }

  lemma LoggedSameCore(e: Engine, f: FuturesOrder)
    ensures SameCore(e.book, Logged(e, f).book)
  {}

  predicate UnmatchedEvent(ev: MatchEvent) { ev.Margin? ==> Unmatched(ev.margin) }

  ghost predicate Good(b: Book) { Inv(b) && NettingBalanced(b) }

  lemma StepKeeps(p: Progress, ev: MatchEvent)
    requires Good(p.engine.book) && UnmatchedEvent(ev)
    ensures Linked(p.engine.book) && Good(Step(p, ev).engine.book)
  {
    var e := p.engine;
    InvLinked(e.book);
    if p.error.None? && EventError(e.book, ev).None? {
      match ev
      case Margin(o) =>
        var o1 := WithKnownHedges(e.log, o);
        AddMarginKeeps(e.book, o1);
        AddMarginBalances(e.book, o1);
      case Futures(f) =>
        var e1 := Logged(e, f);
        LoggedSameCore(e, f);
        CoreKeepsInv(e.book, e1.book);
        CoreKeepsBalance(e.book, e1.book);
        AddFuturesAccounts(e1.book, f);
    }
  }

  lemma {:induction false} RunKeeps(p: Progress, events: seq<MatchEvent>)
    requires Good(p.engine.book) && forall ev :: ev in events ==> UnmatchedEvent(ev)
    ensures Linked(p.engine.book) && Good(Run(p, events).engine.book)
    decreases |events|
  {
    InvLinked(p.engine.book);
    if events != [] {
      StepKeeps(p, events[0]);
      RunKeeps(Step(p, events[0]), events[1..]);
    }
  }

  lemma ApplyKeeps(e: Engine, events: seq<MatchEvent>)
    requires Good(e.book) && forall ev :: ev in events ==> UnmatchedEvent(ev)
    ensures Linked(e.book) && Good(Apply(e, events).engine.book)
  {
    SortPermutes(events, EventLe());
    RunKeeps(Progress(e, [], None), StableSort(events, EventLe()));
  }

  lemma EmptyIsGood(epsilon: real)
    requires epsilon >= 0.0
    ensures Good(EmptyEngine(epsilon).book)
  {}

  /** Every state reached by applying batches, in whatever order they come. */
  lemma {:induction false} BatchesKeep(epsilon: real, batches: seq<seq<MatchEvent>>)
    requires epsilon >= 0.0
    requires forall batch, ev :: batch in batches && ev in batch ==> UnmatchedEvent(ev)
    ensures Good(ApplyBatches(EmptyEngine(epsilon), batches).engine.book)
    ensures ApplyBatches(EmptyEngine(epsilon), batches).engine.book.epsilon == epsilon
    decreases |batches|
  {
    EmptyIsGood(epsilon);
    if batches != [] {
      var init := batches[..|batches| - 1];
      var last := batches[|batches| - 1];
      BatchesKeep(epsilon, init);
      var p := ApplyBatches(EmptyEngine(epsilon), init);
      assert last in batches;
      if p.error.None? {
        ApplyKeeps(p.engine, last);
        RunEpsilon(Progress(p.engine, [], None), StableSort(last, EventLe()));
      }
    }
  }

  lemma {:induction false} RunEpsilon(p: Progress, events: seq<MatchEvent>)
    requires Linked(p.engine.book)
    ensures Run(p, events).engine.book.epsilon == p.engine.book.epsilon
    decreases |events|
  {
    if events != [] {
      RunEpsilon(Step(p, events[0]), events[1..]);
    }
  }

  /** How often `fkey` stands in a queue. */
  function Occurrences(q: seq<int>, fkey: int): nat { multiset(q)[fkey] }

  lemma {:induction false} DistinctOccurrence(q: seq<int>, fkey: int)
    requires forall i, j :: 0 <= i < j < |q| ==> q[i] != q[j]
    ensures Occurrences(q, fkey) == if fkey in q then 1 else 0
    decreases |q|
  {
    if q != [] {
      DistinctOccurrence(q[1..], fkey);
      assert q == [q[0]] + q[1..];
    }
  }

  /**
   Conservation: every order of every reachable book has kept its fill, exactly while pending and otherwise
   within one `epsilon`; each symbol has netted as much on the buy side as on the sell side.
   */
  lemma ReachableConservation(epsilon: real, batches: seq<seq<MatchEvent>>)
    requires epsilon >= 0.0
    requires forall batch, ev :: batch in batches && ev in batch ==> UnmatchedEvent(ev)
    ensures var b := ApplyBatches(EmptyEngine(epsilon), batches).engine.book;
            && (forall f :: f in b.orders ==>
                  var o := b.orders[f]; var total := o.remaining + o.camount + o.netted;
                  o.fill - epsilon <= total <= o.fill && (o.remaining > epsilon ==> total == o.fill))
            && (forall s: string :: SumOver(b.orders, NettedOn(s, Buy)) == SumOver(b.orders, NettedOn(s, Sell)))
  {
    BatchesKeep(epsilon, batches);
    var b := ApplyBatches(EmptyEngine(epsilon), batches).engine.book;
    assert OrdersOk(b);
  }

  /**
   Queue and map agree: an order is pending exactly when it stands, once, in the queue of its own symbol and
   side and in no other; one side per symbol is empty; a state name tells exactly which buckets were used.
   */
  lemma ReachableQueues(epsilon: real, batches: seq<seq<MatchEvent>>, f: int, k: QueueKey)
    requires epsilon >= 0.0
    requires forall batch, ev :: batch in batches && ev in batch ==> UnmatchedEvent(ev)
    ensures var b := ApplyBatches(EmptyEngine(epsilon), batches).engine.book;
            && Occurrences(Queue(b, k), f)
               == (if f in b.orders && b.orders[f].remaining > epsilon && k == b.orders[f].Key() then 1 else 0)
            && (Queue(b, (k.0, Buy)) == [] || Queue(b, (k.0, Sell)) == [])
            && (f in b.orders ==>
                  var o := b.orders[f];
                  && (o.state == Pending <==> o.remaining > epsilon)
                  && (o.state == Completed <==> o.remaining == 0.0 && o.netted == 0.0)
                  && (o.state == Netted <==> o.remaining == 0.0 && o.camount == 0.0)
                  && (o.state == Mixed <==> o.remaining == 0.0 && o.camount > epsilon && o.netted > epsilon))
  {
    BatchesKeep(epsilon, batches);
    var b := ApplyBatches(EmptyEngine(epsilon), batches).engine.book;
    assert QueueOk(b, k, {});
    DistinctOccurrence(Queue(b, k), f);
    if f in b.orders {
      assert OrderOk(b.orders[f], epsilon);
    }
  }
}
