/** The match engine as a value: hedge metadata beside the book, events in sort-key order, batches and snapshots. */
module MatchRun {
  import opened Prelude
  import opened StableSorting
  import opened MatchBook

  datatype HedgeTiming = HedgeTiming(
    clientOrderId: int, createTs: int, newTs: Option<int>, terminalTs: Option<int>, sourceTs: int)

  datatype HedgeHistory = HedgeHistory(
    mainFkey: int, firstOrder: HedgeTiming, lastFillTs: Option<int>, orderCount: int)

  datatype HedgeLog = HedgeLog(
    first: map<int, HedgeTiming>, lastFill: map<int, int>, counts: map<int, int>, seen: set<(int, int)>)

  datatype Engine = Engine(book: Book, log: HedgeLog)

  datatype MatchEvent = Margin(margin: MarginOrder) | Futures(futures: FuturesOrder)

  datatype MatchError =
    | InvalidEpsilon | NonPendingSnapshot(fkey: int) | DuplicatePending(fkey: int)
    | NoRealFill(fkey: int) | DuplicateFkey(fkey: int)
    | InvalidFillAmount(clientOrderId: int) | MissingFillTimestamp(clientOrderId: int)

  // ---- Sort keys

  datatype SortKey = SortKey(time: int, source: int, kind: int, id: int)

  predicate KeyLe(x: SortKey, y: SortKey) {
    x.time < y.time || (x.time == y.time &&
    (x.source < y.source || (x.source == y.source &&
    (x.kind < y.kind || (x.kind == y.kind && x.id <= y.id)))))
  }

  function MarginKey(o: MarginOrder): SortKey { SortKey(o.openUts, o.openSourceTs, 0, o.fkey) }

  function EventKey(e: MatchEvent): SortKey {
    match e
    case Margin(o) => MarginKey(o)
    case Futures(f) => SortKey(f.createTs, f.sourceTs, 1, f.clientOrderId)
  }

  function EventLe(): (MatchEvent, MatchEvent) -> bool {
    (x: MatchEvent, y: MatchEvent) => KeyLe(EventKey(x), EventKey(y))
  }

  function MarginLe(): (MarginOrder, MarginOrder) -> bool {
    (x: MarginOrder, y: MarginOrder) => KeyLe(MarginKey(x), MarginKey(y))
  }

  function TimingKey(t: HedgeTiming): SortKey { SortKey(t.createTs, t.sourceTs, 0, t.clientOrderId) }

  lemma EventLeIsPreorder()
    ensures TotalPreorder(EventLe())
  {}

  lemma MarginLeIsPreorder()
    ensures TotalPreorder(MarginLe())
  {}

  // ---- Hedge metadata

  function ShowTiming(i: HedgeInfo, t: HedgeTiming): HedgeInfo {
    i.(hts := Some(t.createTs), newTs := t.newTs, terminalTs := t.terminalTs)
  }

  function WithInfo(orders: map<int, MarginOrder>, fkey: int, i: HedgeInfo): map<int, MarginOrder>
    requires fkey in orders
  {
    orders[fkey := orders[fkey].(hedge := i)]
  }

  function RecordTiming(e: Engine, fkey: int, incoming: HedgeTiming): (r: Engine)
    ensures r.book.queues == e.book.queues && r.book.orders.Keys == e.book.orders.Keys
    ensures r.book.epsilon == e.book.epsilon
  {
    var replace := fkey !in e.log.first || !KeyLe(TimingKey(e.log.first[fkey]), TimingKey(incoming));
    var first := if replace then e.log.first[fkey := incoming] else e.log.first;
    var orders := if fkey in e.book.orders
      then WithInfo(e.book.orders, fkey, ShowTiming(e.book.orders[fkey].hedge, first[fkey]))
      else e.book.orders;
    Engine(e.book.(orders := orders), e.log.(first := first))
  }

  function LaterFill(lastFill: map<int, int>, fkey: int, fill: Option<int>): map<int, int> {
    if fill.None? then lastFill
    else if fkey in lastFill then lastFill[fkey := MaxInt(lastFill[fkey], fill.value)]
    else lastFill[fkey := fill.value]
  }

  function FillOf(log: HedgeLog, fkey: int): Option<int> {
    if fkey in log.lastFill then Some(log.lastFill[fkey]) else None
  }

  function CountOf(log: HedgeLog, fkey: int): int {
    if fkey in log.counts then log.counts[fkey] else 0
  }

  function TimingOf(f: FuturesOrder): HedgeTiming {
    HedgeTiming(f.clientOrderId, f.createTs, f.newTs, f.terminalTs, f.sourceTs)
  }

  function RecordHedge(e: Engine, fkey: int, f: FuturesOrder): (r: Engine)
    ensures r.book.queues == e.book.queues && r.book.orders.Keys == e.book.orders.Keys
    ensures r.book.epsilon == e.book.epsilon
  {
    var e1 := RecordTiming(e, fkey, TimingOf(f));
    var id := (fkey, f.clientOrderId);
    var counts := if id in e1.log.seen then e1.log.counts else e1.log.counts[fkey := CountOf(e1.log, fkey) + 1];
    var log := e1.log.(seen := e1.log.seen + {id}, counts := counts,
                       lastFill := LaterFill(e1.log.lastFill, fkey, f.fillTs));
    var orders := if fkey in e1.book.orders
      then WithInfo(e1.book.orders, fkey,
                    e1.book.orders[fkey].hedge.(fts := FillOf(log, fkey), closeCount := CountOf(log, fkey)))
      else e1.book.orders;
    Engine(e1.book.(orders := orders), log)
  }

  function SeedOne(e: Engine, h: HedgeHistory): (r: Engine)
    ensures r.book.queues == e.book.queues && r.book.orders.Keys == e.book.orders.Keys
    ensures r.book.epsilon == e.book.epsilon
  {
    var e1 := RecordTiming(e, h.mainFkey, h.firstOrder);
    var log := e1.log.(counts := e1.log.counts[h.mainFkey := MaxInt(CountOf(e1.log, h.mainFkey), h.orderCount)],
                       lastFill := LaterFill(e1.log.lastFill, h.mainFkey, h.lastFillTs));
    var orders := if h.mainFkey in e1.book.orders
      then var i := e1.book.orders[h.mainFkey].hedge;
           WithInfo(e1.book.orders, h.mainFkey,
                    i.(fts := FillOf(log, h.mainFkey), closeCount := MaxInt(i.closeCount, CountOf(log, h.mainFkey))))
      else e1.book.orders;
    Engine(e1.book.(orders := orders), log)
  }

  lemma SameQueuesLinked(b: Book, r: Book)
    requires Linked(b) && r.queues == b.queues && r.orders.Keys == b.orders.Keys && r.epsilon == b.epsilon
    ensures Linked(r)
  {
    forall k: QueueKey, f | f in Queue(r, k) ensures f in r.orders {
      assert f in Queue(b, k);
    }
  }

  function SeedAll(e: Engine, history: seq<HedgeHistory>): (r: Engine)
    ensures r.book.queues == e.book.queues && r.book.orders.Keys == e.book.orders.Keys
    ensures r.book.epsilon == e.book.epsilon
    ensures Linked(e.book) ==> Linked(r.book)
    decreases |history|
  {
    if history == [] then e else
      var r := SeedOne(SeedAll(e, history[..|history| - 1]), history[|history| - 1]);
      assert Linked(e.book) ==> Linked(r.book) by {
        if Linked(e.book) {
          SameQueuesLinked(e.book, r.book);
        }
      }
      r
  }

  /** An arriving order picks up what is already known about its hedges. */
  function WithKnownHedges(log: HedgeLog, o: MarginOrder): MarginOrder {
    var i1 := if o.fkey in log.first then ShowTiming(o.hedge, log.first[o.fkey]) else o.hedge;
    var i2 := if o.fkey !in log.lastFill then i1
      else if i1.fts.Some? then i1.(fts := Some(MaxInt(i1.fts.value, log.lastFill[o.fkey])))
      else i1.(fts := Some(log.lastFill[o.fkey]));
    var i3 := if o.fkey in log.counts then i2.(closeCount := MaxInt(i2.closeCount, log.counts[o.fkey])) else i2;
    o.(hedge := i3)
  }

  // ---- Events and runs

  /** An engine part-way through a batch; a rejected event stops the batch where it is. */
  datatype Progress = Progress(engine: Engine, hedges: seq<HedgeResult>, error: Option<MatchError>)

  function MarginError(b: Book, o: MarginOrder): Option<MatchError> {
    if o.fill <= b.epsilon then Some(NoRealFill(o.fkey))
    else if o.fkey in b.orders then Some(DuplicateFkey(o.fkey))
    else None
  }

  function FuturesError(b: Book, f: FuturesOrder): Option<MatchError> {
    if f.amount < -b.epsilon then Some(InvalidFillAmount(f.clientOrderId))
    else if f.amount > b.epsilon && f.fillTs.None? then Some(MissingFillTimestamp(f.clientOrderId))
    else None
  }

  function EventError(b: Book, ev: MatchEvent): Option<MatchError> {
    match ev
    case Margin(o) => MarginError(b, o)
    case Futures(f) => FuturesError(b, f)
  }

  /** The engine once a futures order has been logged against the order it names. */
  function Logged(e: Engine, f: FuturesOrder): (r: Engine)
    ensures r.book.queues == e.book.queues && r.book.orders.Keys == e.book.orders.Keys
    ensures r.book.epsilon == e.book.epsilon
  {
    if f.mainFkey.Some? then RecordHedge(e, f.mainFkey.value, f) else e
  }

  function Step(p: Progress, ev: MatchEvent): (r: Progress)
    requires Linked(p.engine.book)
    ensures Linked(r.engine.book)
  {
    var e := p.engine;
    var error := EventError(e.book, ev);
    if p.error.Some? || error.Some? then p.(error := if p.error.Some? then p.error else error)
    else
      match ev
      case Margin(o) =>
        p.(engine := Engine(AddMargin(e.book, WithKnownHedges(e.log, o)), e.log))
      case Futures(f) =>
        var e1 := Logged(e, f);
        SameQueuesLinked(e.book, e1.book);
        var (b, h) := AddFutures(e1.book, f);
        Progress(Engine(b, e1.log), p.hedges + [h], None)
  }

  function Run(p: Progress, events: seq<MatchEvent>): (r: Progress)
    requires Linked(p.engine.book)
    ensures Linked(r.engine.book)
    decreases |events|
  {
    if events == [] then p else Run(Step(p, events[0]), events[1..])
  }

  /** One call of the engine: sort the batch, then apply it event by event. */
  function Apply(e: Engine, events: seq<MatchEvent>): (r: Progress)
    requires Linked(e.book)
    ensures Linked(r.engine.book)
  {
    Run(Progress(e, [], None), StableSort(events, EventLe()))
  }

  // ---- Loading a snapshot of pending orders

  const I64_MIN: int := -0x8000_0000_0000_0000

  function EmptyEngine(epsilon: real): (e: Engine)
    ensures epsilon >= 0.0 ==> Linked(e.book)
  {
    Engine(Book(epsilon, map[], map[]), HedgeLog(map[], map[], map[], {}))
  }

  function LoadOne(e: Engine, o: MarginOrder): Engine {
    var first := if o.hedge.hts.None? then e.log.first
      else e.log.first[o.fkey := HedgeTiming(0, o.hedge.hts.value, o.hedge.newTs, o.hedge.terminalTs, I64_MIN)];
    var lastFill := if o.hedge.fts.None? then e.log.lastFill else e.log.lastFill[o.fkey := o.hedge.fts.value];
    Engine(
      PushBack(e.book.(orders := e.book.orders[o.fkey := o.(state := Pending)]), o.fkey, o.Key()),
      e.log.(first := first, lastFill := lastFill, counts := e.log.counts[o.fkey := o.hedge.closeCount]))
  }

  function LoadError(e: Engine, o: MarginOrder): Option<MatchError> {
    if o.remaining <= e.book.epsilon then Some(NonPendingSnapshot(o.fkey))
    else if o.fkey in e.book.orders then Some(DuplicatePending(o.fkey))
    else None
  }

  lemma LoadLinked(e: Engine, o: MarginOrder)
    requires Linked(e.book)
    ensures Linked(LoadOne(e, o).book)
  {
    var b := e.book.(orders := e.book.orders[o.fkey := o.(state := Pending)]);
    ShrinkLinked(e.book, b, b);
    PushLinked(b, o.fkey, o.Key());
  }

  function LoadAll(epsilon: real, pending: seq<MarginOrder>): (r: Result<Engine, MatchError>)
    requires epsilon >= 0.0
    ensures r.Ok? ==> Linked(r.value.book)
    decreases |pending|
  {
    if pending == [] then Ok(EmptyEngine(epsilon))
    else
      var before := LoadAll(epsilon, pending[..|pending| - 1]);
      var o := pending[|pending| - 1];
      if before.Err? then before
      else if LoadError(before.value, o).Some? then Err(LoadError(before.value, o).value)
      else
        LoadLinked(before.value, o);
        Ok(LoadOne(before.value, o))
  }

  function New(pending: seq<MarginOrder>, epsilon: real): (r: Result<Engine, MatchError>)
    ensures r.Ok? ==> Linked(r.value.book)
  {
    if epsilon < 0.0 then Err(InvalidEpsilon) else LoadAll(epsilon, StableSort(pending, MarginLe()))
  }

  // ---- Batching

  lemma {:induction false} RunConcat(p: Progress, xs: seq<MatchEvent>, ys: seq<MatchEvent>)
    requires Linked(p.engine.book)
    ensures Run(p, xs + ys) == Run(Run(p, xs), ys)
    decreases |xs|
  {
    if xs == [] {
      assert xs + ys == ys;
    } else {
      assert (xs + ys)[1..] == xs[1..] + ys;
      RunConcat(Step(p, xs[0]), xs[1..], ys);
    }
  }

  /** Hedges reported so far are only carried along. */
  lemma {:induction false} RunPrefix(e: Engine, hedges: seq<HedgeResult>, events: seq<MatchEvent>)
    requires Linked(e.book)
    ensures var r := Run(Progress(e, [], None), events);
            Run(Progress(e, hedges, None), events) == r.(hedges := hedges + r.hedges)
    decreases |events|
  {
    if events == [] {
      assert hedges + [] == hedges;
    } else {
      var n := Step(Progress(e, [], None), events[0]);
      var m := Step(Progress(e, hedges, None), events[0]);
      assert m == n.(hedges := hedges + n.hedges);
      if n.error.Some? {
        RunStopped(n, events[1..]);
        RunStopped(m, events[1..]);
      } else {
        RunPrefix(n.engine, n.hedges, events[1..]);
        RunPrefix(n.engine, m.hedges, events[1..]);
        var rest := Run(Progress(n.engine, [], None), events[1..]).hedges;
        assert hedges + (n.hedges + rest) == (hedges + n.hedges) + rest;
      }
    }
  }

  lemma {:induction false} RunStopped(p: Progress, events: seq<MatchEvent>)
    requires Linked(p.engine.book) && p.error.Some?
    ensures Run(p, events) == p
    decreases |events|
  {
    if events != [] {
      RunStopped(p, events[1..]);
    }
  }

  /** Batches applied one after the other, stopping at the first failure. */
  function ApplyBatches(e: Engine, batches: seq<seq<MatchEvent>>): (r: Progress)
    requires Linked(e.book)
    ensures Linked(r.engine.book)
    decreases |batches|
  {
    if batches == [] then Progress(e, [], None) else
      var p := ApplyBatches(e, batches[..|batches| - 1]);
      if p.error.Some? then p else
        var n := Apply(p.engine, batches[|batches| - 1]);
        n.(hedges := p.hedges + n.hedges)
  }

  function Flatten(batches: seq<seq<MatchEvent>>): seq<MatchEvent>
    decreases |batches|
  {
    if batches == [] then [] else Flatten(batches[..|batches| - 1]) + batches[|batches| - 1]
  }

  /** Each batch comes, by sort key, after everything in the batches before it. */
  ghost predicate InOrder(batches: seq<seq<MatchEvent>>)
    decreases |batches|
  {
    batches != [] ==>
      && InOrder(batches[..|batches| - 1])
      && AllLe(Flatten(batches[..|batches| - 1]), batches[|batches| - 1], EventLe())
  }

  /** However in-order events are cut into calls, the engine, its hedge results and its failure are the same. */
  lemma {:induction false} BatchingDoesNotMatter(e: Engine, batches: seq<seq<MatchEvent>>)
    requires Linked(e.book) && InOrder(batches)
    ensures ApplyBatches(e, batches) == Apply(e, Flatten(batches))
    decreases |batches|
  {
    if batches != [] {
      var init := batches[..|batches| - 1];
      var last := batches[|batches| - 1];
      BatchingDoesNotMatter(e, init);
      SortConcat(Flatten(init), last, EventLe());
      var xs := StableSort(Flatten(init), EventLe());
      var ys := StableSort(last, EventLe());
      RunConcat(Progress(e, [], None), xs, ys);
      var p := Run(Progress(e, [], None), xs);
      if p.error.Some? {
        RunStopped(p, ys);
      } else {
        RunPrefix(p.engine, p.hedges, ys);
      }
    }
  }

  // ---- In what order a batch is applied

  /**
   By opening or creation time, then by source time, then margin orders before futures orders, then by fkey or client
   order id.
   */
  predicate ComesBefore(x: MatchEvent, y: MatchEvent) {
    match x
    case Margin(a) => (
      match y
      case Margin(b) =>
        a.openUts < b.openUts
        || (a.openUts == b.openUts && a.openSourceTs < b.openSourceTs)
        || (a.openUts == b.openUts && a.openSourceTs == b.openSourceTs && a.fkey <= b.fkey)
      case Futures(g) =>
        a.openUts < g.createTs || (a.openUts == g.createTs && a.openSourceTs <= g.sourceTs))
    case Futures(f) => (
      match y
      case Margin(b) =>
        f.createTs < b.openUts || (f.createTs == b.openUts && f.sourceTs < b.openSourceTs)
      case Futures(g) =>
        f.createTs < g.createTs
        || (f.createTs == g.createTs && f.sourceTs < g.sourceTs)
        || (f.createTs == g.createTs && f.sourceTs == g.sourceTs && f.clientOrderId <= g.clientOrderId))
  }

  predicate SamePlace(x: MatchEvent, y: MatchEvent) { ComesBefore(x, y) && ComesBefore(y, x) }

  /** The events that share the place of `x`, as they come. */
  function AtPlaceOf(events: seq<MatchEvent>, x: MatchEvent): seq<MatchEvent> {
    if events == [] then []
    else (if SamePlace(events[0], x) then [events[0]] else []) + AtPlaceOf(events[1..], x)
  }

  /** `s` is the batch put in order; events that share a place stay as they came. */
  ghost predicate SourceOrdered(s: seq<MatchEvent>, batch: seq<MatchEvent>) {
    && multiset(s) == multiset(batch)
    && (forall i, j :: 0 <= i < j < |s| ==> ComesBefore(s[i], s[j]))
    && (forall x :: AtPlaceOf(s, x) == AtPlaceOf(batch, x))
  }

  /** `r` comes of applying the batch in order, one event after the other. */
  ghost predicate AppliedInOrder(e: Engine, batch: seq<MatchEvent>, r: Progress)
    requires Linked(e.book)
  {
    exists s :: SourceOrdered(s, batch) && r == Run(Progress(e, [], None), s)
  }

  lemma KeysAreFields(x: MatchEvent, y: MatchEvent)
    ensures EventLe()(x, y) <==> ComesBefore(x, y)
  {}

  lemma {:induction false} AtPlaceTied(events: seq<MatchEvent>, x: MatchEvent)
    ensures AtPlaceOf(events, x) == Tied(events, x, EventLe())
    decreases |events|
  {
    if events != [] {
      KeysAreFields(events[0], x);
      KeysAreFields(x, events[0]);
      AtPlaceTied(events[1..], x);
    }
  }

  /** The order in which one call applies its events. */
  lemma AppliedInSourceOrder(e: Engine, batch: seq<MatchEvent>) returns (s: seq<MatchEvent>)
    requires Linked(e.book)
    ensures SourceOrdered(s, batch) && Apply(e, batch) == Run(Progress(e, [], None), s)
  {
    s := StableSort(batch, EventLe());
    EventLeIsPreorder();
    SortPermutes(batch, EventLe());
    SortSorts(batch, EventLe());
    hide ComesBefore, EventLe;
    forall i, j | 0 <= i < j < |s| ensures ComesBefore(s[i], s[j]) {
      KeysAreFields(s[i], s[j]);
    }
    forall x ensures AtPlaceOf(s, x) == AtPlaceOf(batch, x) {
      SortIsStable(batch, x, EventLe());
      AtPlaceTied(s, x);
      AtPlaceTied(batch, x);
    }
  }

  lemma AppliesInOrder(e: Engine, batch: seq<MatchEvent>)
    requires Linked(e.book)
    ensures AppliedInOrder(e, batch, Apply(e, batch))
  {
    var s := AppliedInSourceOrder(e, batch);
  }

  /** No two events of a batch share a place. */
  ghost predicate PlacesDiffer(batch: seq<MatchEvent>) {
    forall i, j :: 0 <= i < j < |batch| ==> !SamePlace(batch[i], batch[j])
  }

  /**
   One call does not depend on the order its events were delivered in, when no two share a place: it applies the one
   sequence of them that is in order.
   */
  lemma DeliveryOrderDoesNotMatter(e: Engine, xs: seq<MatchEvent>, ys: seq<MatchEvent>, s: seq<MatchEvent>)
    requires Linked(e.book) && multiset(xs) == multiset(ys) && PlacesDiffer(xs) && SourceOrdered(s, xs)
    ensures Apply(e, xs) == Apply(e, ys) == Run(Progress(e, [], None), s)
  {
    EventLeIsPreorder();
    NoTiesAfterSort(xs);
    SortOfPermutation(xs, ys, EventLe());
    SortPermutes(xs, EventLe());
    SortSorts(xs, EventLe());
    hide ComesBefore, EventLe;
    assert Sorted(s, EventLe()) by {
      forall i, j | 0 <= i < j < |s| ensures EventLe()(s[i], s[j]) {
        KeysAreFields(s[i], s[j]);
      }
    }
    SortedUnique(StableSort(xs, EventLe()), s, EventLe());
  }

  lemma NoTiesAfterSort(xs: seq<MatchEvent>)
    requires PlacesDiffer(xs)
    ensures NoTies(StableSort(xs, EventLe()), EventLe())
  {
    var s := StableSort(xs, EventLe());
    SortPermutes(xs, EventLe());
    forall i, j | 0 <= i < j < |s| ensures !(EventLe()(s[i], s[j]) && EventLe()(s[j], s[i])) {
      SortedPlacesDiffer(xs, s, i, j);
      KeysAreFields(s[i], s[j]);
      KeysAreFields(s[j], s[i]);
    }
  }

  lemma SortedPlacesDiffer(xs: seq<MatchEvent>, s: seq<MatchEvent>, i: nat, j: nat)
    requires PlacesDiffer(xs) && multiset(s) == multiset(xs) && i < j < |s|
    ensures !SamePlace(s[i], s[j])
  {
    hide ComesBefore;
    var a, b := Positions(xs, s, i, j);
  }

  /** Two positions of a sequence have two positions in any permutation of it. */
  lemma Positions<T>(xs: seq<T>, s: seq<T>, i: nat, j: nat) returns (a: nat, b: nat)
    requires multiset(s) == multiset(xs) && i < j < |s|
    ensures a < |xs| && b < |xs| && a != b && xs[a] == s[i] && xs[b] == s[j]
  {
    RepeatedElement(s, i, j);
    assert s[i] in multiset(s) && s[j] in multiset(s);
    if s[i] == s[j] {
      a, b := TwoPositions(xs, s[i]);
    } else {
      a :| 0 <= a < |xs| && xs[a] == s[i];
      b :| 0 <= b < |xs| && xs[b] == s[j];
    }
  }

  lemma RepeatedElement<T>(s: seq<T>, i: nat, j: nat)
    requires i < j < |s|
    ensures s[i] == s[j] ==> multiset(s)[s[i]] >= 2
  {
    assert s == s[..j] + [s[j]] + s[j + 1..];
    assert s[i] == s[..j][i];
    assert multiset(s) == multiset(s[..j]) + multiset{s[j]} + multiset(s[j + 1..]);
    assert s[i] in multiset(s[..j]);
  }

  lemma TwoPositions<T>(s: seq<T>, x: T) returns (i: nat, j: nat)
    requires multiset(s)[x] >= 2
    ensures i < j < |s| && s[i] == s[j] == x
  {
    assert x in multiset(s);
    i :| i < |s| && s[i] == x;
    assert s == s[..i] + [x] + s[i + 1..];
    assert multiset(s) == multiset(s[..i]) + multiset{x} + multiset(s[i + 1..]);
    if x in s[..i] {
      var k :| 0 <= k < i && s[..i][k] == x;
      i, j := k, i;
    } else {
      assert x in multiset(s[i + 1..]);
      var k :| 0 <= k < |s[i + 1..]| && s[i + 1..][k] == x;
      j := i + 1 + k;
    }
  }
}
