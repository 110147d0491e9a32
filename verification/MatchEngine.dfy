/** The match engine as the mutable object it is; every method is proved to be its counterpart on values. */
module IntraOrderMatch {
  import opened Prelude
  import opened StableSorting
  import opened MatchBook
  import opened MatchRun

  class MatchEngine {
    const epsilon: real
    var orders: map<int, MarginOrder>
    var queues: map<QueueKey, seq<int>>
    var firstHedgeTiming: map<int, HedgeTiming>
    var lastHedgeFillTs: map<int, int>
    var hedgeOrderCounts: map<int, int>
    var seenHedgeOrders: set<(int, int)>

    function BookView(): Book
      reads this
    {
      Book(epsilon, orders, queues)
    }

    function View(): Engine
      reads this
    {
      Engine(BookView(), HedgeLog(firstHedgeTiming, lastHedgeFillTs, hedgeOrderCounts, seenHedgeOrders))
    }

    ghost predicate Valid()
      reads this
    {
      Linked(BookView())
    }

    constructor Empty(epsilon: real)
      ensures View() == EmptyEngine(epsilon)
    {
      this.epsilon := epsilon;
      orders, queues := map[], map[];
      firstHedgeTiming, lastHedgeFillTs, hedgeOrderCounts, seenHedgeOrders := map[], map[], map[], {};
    }

    /** Rebuilds an engine from a snapshot of pending orders. */
    static method Load(pending: seq<MarginOrder>, epsilon: real) returns (r: Result<MatchEngine, MatchError>)
      ensures r.Err? <==> New(pending, epsilon).Err?
      ensures r.Err? ==> r.error == New(pending, epsilon).error
      ensures r.Ok? ==> fresh(r.value) && r.value.View() == New(pending, epsilon).value && r.value.Valid()
    {
      hide LoadOne;
      if epsilon < 0.0 {
        return Err(InvalidEpsilon);
      }
      var sorted := StableSort(pending, MarginLe());
      var engine := new MatchEngine.Empty(epsilon);
      var i := 0;
      while i < |sorted|
        invariant i <= |sorted|
        invariant LoadAll(epsilon, sorted[..i]) == Ok(engine.View())
      {
        var order := sorted[i];
        assert sorted[..i + 1][..i] == sorted[..i];
        if LoadError(engine.View(), order).Some? {
          LoadFails(epsilon, sorted, i + 1);
          return Err(LoadError(engine.View(), order).value);
        }
        engine.LoadOrder(order);
        i := i + 1;
      }
      assert sorted[..i] == sorted;
      return Ok(engine);
    }

    /** Takes over one pending order with the hedge timing it was stored with. */
    method LoadOrder(order: MarginOrder)
      modifies this
      ensures View() == LoadOne(old(View()), order)
    {
      if order.hedge.hts.Some? {
        firstHedgeTiming := firstHedgeTiming[order.fkey :=
          HedgeTiming(0, order.hedge.hts.value, order.hedge.newTs, order.hedge.terminalTs, I64_MIN)];
      }
      if order.hedge.fts.Some? {
        lastHedgeFillTs := lastHedgeFillTs[order.fkey := order.hedge.fts.value];
      }
      hedgeOrderCounts := hedgeOrderCounts[order.fkey := order.hedge.closeCount];
      orders := orders[order.fkey := order.(state := Pending)];
      PushQueue(order.Key(), order.fkey);
    }

    method PushQueue(key: QueueKey, fkey: int)
      modifies this`queues
      ensures BookView() == PushBack(old(BookView()), fkey, key)
    {
      queues := queues[key := (if key in queues then queues[key] else []) + [fkey]];
    }

    method PopQueueIfDone(key: QueueKey, head: int)
      requires head in orders && key in queues && queues[key] != []
      modifies this`queues
      ensures BookView() == PopIfDone(old(BookView()), key, head)
    {
      if orders[head].remaining <= epsilon {
        queues := queues[key := queues[key][1..]];
      }
    }

    /** Sorts a batch by key and applies it; a rejected event leaves the engine where the batch stopped. */
    method ApplyAll(events: seq<MatchEvent>) returns (hedges: seq<HedgeResult>, error: Option<MatchError>)
      requires Valid()
      modifies this
      ensures Valid() && Progress(View(), hedges, error) == Apply(old(View()), events)
      ensures AppliedInOrder(old(View()), events, Progress(View(), hedges, error))
    {
      AppliesInOrder(View(), events);
      hide AppliedInOrder, StableSort, Step;
      var sorted := StableSort(events, EventLe());
      hedges, error := [], None;
      var i := 0;
      while i < |sorted|
        invariant i <= |sorted| && Valid() && error == None
        invariant Run(Progress(View(), hedges, error), sorted[i..]) == Apply(old(View()), events)
      {
        assert sorted[i..][1..] == sorted[i + 1..];
        hedges, error := ApplyEvent(sorted[i], hedges);
        i := i + 1;
        if error.Some? {
          RunStopped(Progress(View(), hedges, error), sorted[i..]);
          return;
        }
      }
    }

    /** Applies one event; a hedge adds its result. */
    method ApplyEvent(event: MatchEvent, before: seq<HedgeResult>)
      returns (hedges: seq<HedgeResult>, error: Option<MatchError>)
      requires Valid()
      modifies this
      ensures Valid() && Progress(View(), hedges, error) == Step(Progress(old(View()), before, None), event)
    {
      hide AddMargin, AddFutures, Logged, WithKnownHedges;
      hedges := before;
      match event {
        case Margin(order) =>
          error := ApplyMargin(order);
        case Futures(order) =>
          var r := ApplyFutures(order);
          if r.Ok? {
            hedges, error := before + [r.value], None;
          } else {
            error := Some(r.error);
          }
      }
    }

    method ApplyMargin(incoming: MarginOrder) returns (error: Option<MatchError>)
      requires Valid()
      modifies this`orders, this`queues
      ensures Valid() && error == MarginError(old(BookView()), incoming)
      ensures error.Some? ==> View() == old(View())
      ensures error.None? ==>
                BookView() == AddMargin(old(BookView()), WithKnownHedges(old(View()).log, incoming))
    {
      error := MarginError(BookView(), incoming);
      if error.Some? {
        return;
      }
      var order := WithKnownHedges(View().log, incoming);
      var fkey := order.fkey;
      var other := (order.symbol, order.side.Opposite());
      orders := orders[fkey := Fresh(order)];
      assert Queue(BookView(), other) == Queue(old(BookView()), other);
      ghost var start := BookView();
      while other in queues && queues[other] != [] && orders[fkey].remaining > epsilon
        invariant CanNet(BookView(), fkey, other) && NetLoop(BookView(), fkey, other) == NetLoop(start, fkey, other)
        decreases |Queue(BookView(), other)|, orders[fkey].remaining > epsilon
      {
        ghost var before := BookView();
        var head := queues[other][0];
        assert head in Queue(before, other);
        var quantity := Min(orders[fkey].remaining, orders[head].remaining);
        orders := orders[head := NetBy(orders[head], quantity, epsilon)];
        orders := orders[fkey := NetBy(orders[fkey], quantity, epsilon)];
        PopQueueIfDone(other, head);
        assert BookView() == NetStep(before, fkey, other);
      }
      assert Queue(BookView(), other) == [] || orders[fkey].remaining <= epsilon;
      if orders[fkey].remaining > epsilon {
        PushQueue(order.Key(), fkey);
      }
      assert BookView() == AddMargin(old(BookView()), order);
    }

    /** Hedges against the oldest order of queue `key`. */
    method HedgeHead(order: FuturesOrder, key: QueueKey, remaining: real, anchorMatched: bool)
      returns (left: real, anchor: bool)
      requires CanHedge(BookView(), key) && Queue(BookView(), key) != []
      modifies this`orders, this`queues
      ensures Hedging(BookView(), left, anchor)
              == HedgeStep(Hedging(old(BookView()), remaining, anchorMatched), order, key)
    {
      var fkey := queues[key][0];
      assert fkey in Queue(BookView(), key);
      var quantity := Min(remaining, orders[fkey].remaining);
      orders := orders[fkey := CloseBy(orders[fkey], quantity, order.cprice, epsilon)];
      anchor := anchorMatched || order.mainFkey == Some(fkey);
      left := ClampZero(remaining - quantity, epsilon);
      PopQueueIfDone(key, fkey);
    }

    method HedgeQueue(order: FuturesOrder, key: QueueKey) returns (remaining: real, anchorMatched: bool)
      requires CanHedge(BookView(), key)
      modifies this`orders, this`queues
      ensures Hedging(BookView(), remaining, anchorMatched)
              == HedgeLoop(HedgeStart(old(BookView()), order), order, key)
    {
      remaining := Max(order.amount, 0.0);
      anchorMatched := order.amount <= epsilon;
      while remaining > epsilon && key in queues && queues[key] != []
        invariant CanHedge(BookView(), key)
        invariant HedgeLoop(Hedging(BookView(), remaining, anchorMatched), order, key)
                  == HedgeLoop(HedgeStart(old(BookView()), order), order, key)
        decreases |Queue(BookView(), key)|, remaining > epsilon
      {
        remaining, anchorMatched := HedgeHead(order, key, remaining, anchorMatched);
      }
    }

    method ApplyFutures(order: FuturesOrder) returns (r: Result<HedgeResult, MatchError>)
      requires Valid()
      modifies this
      ensures Valid()
      ensures r.Err? <==> FuturesError(old(BookView()), order).Some?
      ensures r.Err? ==> r.error == FuturesError(old(BookView()), order).value && View() == old(View())
      ensures r.Ok? ==>
                var e := Logged(old(View()), order);
                && View().log == e.log && Linked(e.book)
                && (View().book, r.value) == AddFutures(e.book, order)
    {
      hide RecordHedge, HedgeLoop;
      var error := FuturesError(BookView(), order);
      if error.Some? {
        return Err(error.value);
      }
      ghost var e := Logged(View(), order);
      SameQueuesLinked(BookView(), e.book);
      if order.mainFkey.Some? {
        RecordHedgeOrder(order.mainFkey.value, order);
      }
      var key := (order.symbol, order.side.Opposite());
      var remaining, anchorMatched := HedgeQueue(order, key);
      return Ok(HedgeResult(order, order.amount - remaining, remaining, anchorMatched));
    }

    method RecordFirstHedgeTiming(mainFkey: int, incoming: HedgeTiming)
      modifies this`firstHedgeTiming, this`orders
      ensures View() == RecordTiming(old(View()), mainFkey, incoming)
    {
      var replace := mainFkey !in firstHedgeTiming
        || !KeyLe(TimingKey(firstHedgeTiming[mainFkey]), TimingKey(incoming));
      if replace {
        firstHedgeTiming := firstHedgeTiming[mainFkey := incoming];
      }
      if mainFkey in orders {
        orders := WithInfo(orders, mainFkey, ShowTiming(orders[mainFkey].hedge, firstHedgeTiming[mainFkey]));
      }
    }

    method RecordHedgeOrder(mainFkey: int, order: FuturesOrder)
      modifies this
      ensures View() == RecordHedge(old(View()), mainFkey, order)
    {
      RecordFirstHedgeTiming(mainFkey, TimingOf(order));
      if (mainFkey, order.clientOrderId) !in seenHedgeOrders {
        seenHedgeOrders := seenHedgeOrders + {(mainFkey, order.clientOrderId)};
        hedgeOrderCounts := hedgeOrderCounts[mainFkey := CountOf(View().log, mainFkey) + 1];
      }
      lastHedgeFillTs := LaterFill(lastHedgeFillTs, mainFkey, order.fillTs);
      if mainFkey in orders {
        orders := WithInfo(orders, mainFkey,
          orders[mainFkey].hedge.(fts := FillOf(View().log, mainFkey), closeCount := CountOf(View().log, mainFkey)));
      }
      assert seenHedgeOrders == old(seenHedgeOrders) + {(mainFkey, order.clientOrderId)};
    }

    method SeedHedgeHistory(history: seq<HedgeHistory>)
      modifies this
      ensures View() == SeedAll(old(View()), history)
    {
      var i := 0;
      while i < |history|
        invariant i <= |history|
        invariant View() == SeedAll(old(View()), history[..i])
      {
        var h := history[i];
        RecordFirstHedgeTiming(h.mainFkey, h.firstOrder);
        var count := MaxInt(CountOf(View().log, h.mainFkey), h.orderCount);
        hedgeOrderCounts := hedgeOrderCounts[h.mainFkey := count];
        lastHedgeFillTs := LaterFill(lastHedgeFillTs, h.mainFkey, h.lastFillTs);
        if h.mainFkey in orders {
          var info := orders[h.mainFkey].hedge;
          orders := WithInfo(orders, h.mainFkey,
            info.(fts := FillOf(View().log, h.mainFkey), closeCount := MaxInt(info.closeCount, count)));
        }
        assert history[..i + 1][..i] == history[..i];
        i := i + 1;
      }
      assert history[..i] == history;
    }
  }

  /** Loading stops at the first order it rejects. */
  lemma {:induction false} LoadFails(epsilon: real, sorted: seq<MarginOrder>, n: nat)
    requires epsilon >= 0.0 && n <= |sorted| && LoadAll(epsilon, sorted[..n]).Err?
    ensures LoadAll(epsilon, sorted) == LoadAll(epsilon, sorted[..n])
    decreases |sorted|
  {
    if n == |sorted| {
      assert sorted[..n] == sorted;
    } else {
      var init := sorted[..|sorted| - 1];
      assert init[..n] == sorted[..n];
      LoadFails(epsilon, init, n);
    }
  }
}
