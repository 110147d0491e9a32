/**
 The order book of the intra match engine as a value, and what each engine operation does to it.

 A margin fill first nets first-in first-out against opposite pending margin fills of its symbol; what is left
 is queued. A futures fill hedges the opposite queue first-in first-out. Remaining amounts are clamped to zero
 within `epsilon`.
 */
module MatchBook {
  import opened Prelude
  import opened StableSorting

  datatype Side = Buy | Sell {
    function Opposite(): Side { if this == Buy then Sell else Buy }
  }

  datatype MatchingState = Pending | Completed | Netted | Mixed

  /** What an order shows about the hedges anchored to it. */
  datatype HedgeInfo = HedgeInfo(
    hts: Option<int>, newTs: Option<int>, terminalTs: Option<int>, fts: Option<int>, closeCount: int)

  datatype MarginOrder = MarginOrder(
    fkey: int, symbol: string, side: Side, openUts: int, openSourceTs: int,
    hedge: HedgeInfo,
    fill: real, remaining: real, camount: real, netted: real, closeNotional: real,
    state: MatchingState)
  {
    function Key(): QueueKey { (symbol, side) }
  }

  datatype FuturesOrder = FuturesOrder(
    clientOrderId: int, mainFkey: Option<int>, symbol: string, side: Side,
    createTs: int, newTs: Option<int>, terminalTs: Option<int>, fillTs: Option<int>, sourceTs: int,
    amount: real, cprice: Option<real>)

  datatype HedgeResult = HedgeResult(
    order: FuturesOrder, allocatedAmount: real, unallocatedAmount: real, anchorMatched: bool)

  type QueueKey = (string, Side)

  datatype Book = Book(epsilon: real, orders: map<int, MarginOrder>, queues: map<QueueKey, seq<int>>)

  function Queue(b: Book, k: QueueKey): seq<int> {
    if k in b.queues then b.queues[k] else []
  }

  function ClampZero(value: real, epsilon: real): real {
    if Abs(value) <= epsilon then 0.0 else value
  }

  function StateOf(o: MarginOrder, epsilon: real): MatchingState {
    if o.remaining > epsilon then Pending
    else if o.camount > epsilon && o.netted > epsilon then Mixed
    else if o.camount > epsilon then Completed
    else Netted
  }

  function Refresh(o: MarginOrder, epsilon: real): MarginOrder {
    o.(state := StateOf(o, epsilon))
  }

  function NetBy(o: MarginOrder, quantity: real, epsilon: real): MarginOrder {
    Refresh(o.(remaining := ClampZero(o.remaining - quantity, epsilon), netted := o.netted + quantity), epsilon)
  }

  function CloseBy(o: MarginOrder, quantity: real, price: Option<real>, epsilon: real): MarginOrder {
    Refresh(
      o.(remaining := ClampZero(o.remaining - quantity, epsilon),
         camount := o.camount + quantity,
         closeNotional := o.closeNotional + (if price.Some? then quantity * price.value else 0.0)),
      epsilon)
  }

  /** Drops the head of queue `k` once the order there has nothing left. */
  function PopIfDone(b: Book, k: QueueKey, head: int): Book
    requires head in b.orders && Queue(b, k) != []
  {
    if b.orders[head].remaining <= b.epsilon then b.(queues := b.queues[k := Queue(b, k)[1..]]) else b
  }

  /** No queue gained an element. */
  ghost predicate QueuesShrink(b: Book, r: Book) {
    forall k: QueueKey, f :: f in Queue(r, k) ==> f in Queue(b, k)
  }

  // ---- Netting an arriving margin fill

  /** What netting relies on: every queued key is known, and the arriving order is not queued yet. */
  ghost predicate CanNet(b: Book, fkey: int, k: QueueKey) {
    && b.epsilon >= 0.0
    && fkey in b.orders
    && (forall f :: f in Queue(b, k) ==> f in b.orders && f != fkey)
  }

  function NetStep(b: Book, fkey: int, k: QueueKey): (r: Book)
    requires CanNet(b, fkey, k) && Queue(b, k) != []
    ensures CanNet(r, fkey, k) && r.orders.Keys == b.orders.Keys && QueuesShrink(b, r) && r.epsilon == b.epsilon
    ensures |Queue(r, k)| < |Queue(b, k)| || (Queue(r, k) == Queue(b, k) && r.orders[fkey].remaining <= r.epsilon)
  {
    var other := Queue(b, k)[0];
    assert other in Queue(b, k);
    var quantity := Min(b.orders[fkey].remaining, b.orders[other].remaining);
    var orders1 := b.orders[other := NetBy(b.orders[other], quantity, b.epsilon)];
    var orders2 := orders1[fkey := NetBy(orders1[fkey], quantity, b.epsilon)];
    PopIfDone(b.(orders := orders2), k, other)
  }

  function NetLoop(b: Book, fkey: int, k: QueueKey): (r: Book)
    requires CanNet(b, fkey, k)
    ensures CanNet(r, fkey, k) && r.orders.Keys == b.orders.Keys && QueuesShrink(b, r) && r.epsilon == b.epsilon
    decreases |Queue(b, k)|, b.orders[fkey].remaining > b.epsilon
  {
    if Queue(b, k) == [] || b.orders[fkey].remaining <= b.epsilon then b
    else NetLoop(NetStep(b, fkey, k), fkey, k)
  }

  lemma NetLoopUnfolds(b: Book, fkey: int, k: QueueKey)
    requires CanNet(b, fkey, k)
    ensures if Queue(b, k) == [] || b.orders[fkey].remaining <= b.epsilon then NetLoop(b, fkey, k) == b
            else NetLoop(b, fkey, k) == NetLoop(NetStep(b, fkey, k), fkey, k)
  {}

  function PushBack(b: Book, fkey: int, k: QueueKey): Book {
    b.(queues := b.queues[k := Queue(b, k) + [fkey]])
  }

  /** Every queued key is a known order. */
  ghost predicate Linked(b: Book) {
    b.epsilon >= 0.0 && forall k, f :: f in Queue(b, k) ==> f in b.orders
  }

  lemma ShrinkLinked(b: Book, b1: Book, b2: Book)
    requires Linked(b) && b1.queues == b.queues && b.orders.Keys <= b1.orders.Keys
    requires QueuesShrink(b1, b2) && b2.orders.Keys == b1.orders.Keys && b2.epsilon == b.epsilon
    ensures Linked(b2)
  {
    forall k: QueueKey, f | f in Queue(b2, k) ensures f in b2.orders {
      assert f in Queue(b1, k) && f in Queue(b, k);
    }
  }

  lemma PushLinked(b: Book, fkey: int, own: QueueKey)
    requires Linked(b) && fkey in b.orders
    ensures Linked(PushBack(b, fkey, own))
  {
    forall k: QueueKey, f | f in Queue(PushBack(b, fkey, own), k) ensures f in b.orders {
      assert f in Queue(b, k) || f == fkey;
    }
  }

  predicate RejectsMargin(b: Book, o: MarginOrder) {
    o.fill <= b.epsilon || o.fkey in b.orders
  }

  /** The order as it enters the book, before any matching. */
  function Fresh(o: MarginOrder): MarginOrder {
    o.(remaining := o.fill, state := Pending)
  }

  function AddMargin(b: Book, o: MarginOrder): (r: Book)
    requires Linked(b) && !RejectsMargin(b, o)
    ensures Linked(r) && r.epsilon == b.epsilon && r.orders.Keys == b.orders.Keys + {o.fkey}
  {
    var b1 := b.(orders := b.orders[o.fkey := Fresh(o)]);
    var k := (o.symbol, o.side.Opposite());
    assert Queue(b1, k) == Queue(b, k);
    var b2 := NetLoop(b1, o.fkey, k);
    ShrinkLinked(b, b1, b2);
    PushLinked(b2, o.fkey, o.Key());
    if b2.orders[o.fkey].remaining > b2.epsilon then PushBack(b2, o.fkey, o.Key()) else b2
  }

  // ---- Hedging with a futures fill

  datatype Hedging = Hedging(book: Book, left: real, anchor: bool)

  ghost predicate CanHedge(b: Book, k: QueueKey) {
    b.epsilon >= 0.0 && forall f :: f in Queue(b, k) ==> f in b.orders
  }

  function HedgeStep(h: Hedging, f: FuturesOrder, k: QueueKey): (r: Hedging)
    requires CanHedge(h.book, k) && Queue(h.book, k) != []
    ensures CanHedge(r.book, k) && r.book.orders.Keys == h.book.orders.Keys && QueuesShrink(h.book, r.book)
    ensures r.book.epsilon == h.book.epsilon
    ensures |Queue(r.book, k)| < |Queue(h.book, k)|
         || (Queue(r.book, k) == Queue(h.book, k) && r.left <= r.book.epsilon)
  {
    var b := h.book;
    var head := Queue(b, k)[0];
    assert head in Queue(b, k);
    var quantity := Min(h.left, b.orders[head].remaining);
    var orders1 := b.orders[head := CloseBy(b.orders[head], quantity, f.cprice, b.epsilon)];
    Hedging(
      PopIfDone(b.(orders := orders1), k, head),
      ClampZero(h.left - quantity, b.epsilon),
      h.anchor || f.mainFkey == Some(head))
  }

  function HedgeLoop(h: Hedging, f: FuturesOrder, k: QueueKey): (r: Hedging)
    requires CanHedge(h.book, k)
    ensures CanHedge(r.book, k) && r.book.orders.Keys == h.book.orders.Keys && QueuesShrink(h.book, r.book)
    ensures r.book.epsilon == h.book.epsilon
    decreases |Queue(h.book, k)|, h.left > h.book.epsilon
  {
    if h.left <= h.book.epsilon || Queue(h.book, k) == [] then h
    else HedgeLoop(HedgeStep(h, f, k), f, k)
  }

  lemma HedgeLoopUnfolds(h: Hedging, f: FuturesOrder, k: QueueKey)
    requires CanHedge(h.book, k)
    ensures if h.left <= h.book.epsilon || Queue(h.book, k) == [] then HedgeLoop(h, f, k) == h
            else HedgeLoop(h, f, k) == HedgeLoop(HedgeStep(h, f, k), f, k)
  {}

  predicate RejectsFutures(b: Book, f: FuturesOrder) {
    f.amount < -b.epsilon || (f.amount > b.epsilon && f.fillTs.None?)
  }

  function HedgeStart(b: Book, f: FuturesOrder): Hedging {
    Hedging(b, Max(f.amount, 0.0), f.amount <= b.epsilon)
  }

  function AddFutures(b: Book, f: FuturesOrder): (r: (Book, HedgeResult))
    requires Linked(b)
    ensures Linked(r.0) && r.0.epsilon == b.epsilon && r.0.orders.Keys == b.orders.Keys
  {
    var h := HedgeLoop(HedgeStart(b, f), f, (f.symbol, f.side.Opposite()));
    (h.book, HedgeResult(f, f.amount - h.left, h.left, h.anchor))
  }
}
