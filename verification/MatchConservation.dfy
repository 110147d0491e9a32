/** Book-wide conservation: netting is symmetric, hedges are fully accounted for, and both consume queues in order. */
module MatchConservation {
  import opened Prelude
  import opened MapSum
  import opened MatchBook
  import opened MatchInvariants

  function NettedOn(symbol: string, side: Side): MarginOrder -> real {
    (o: MarginOrder) => if o.symbol == symbol && o.side == side then o.netted else 0.0
  }

  function ClosedAmount(): MarginOrder -> real { (o: MarginOrder) => o.camount }

  function CloseNotional(): MarginOrder -> real { (o: MarginOrder) => o.closeNotional }

  /** Buys and sells of every symbol have netted the same total. */
  ghost predicate NettingBalanced(b: Book) {
    forall s: string :: SumOver(b.orders, NettedOn(s, Buy)) == SumOver(b.orders, NettedOn(s, Sell))
  }

  lemma NetStepBalances(b: Book, fkey: int, k: QueueKey)
    requires Netting(b, fkey, k) && CanNet(b, fkey, k) && Queue(b, k) != [] && NettingBalanced(b)
    ensures NettingBalanced(NetStep(b, fkey, k))
  {
    var other := Queue(b, k)[0];
    assert other in Queue(b, k) && QueueOk(b, k, {fkey});
    var quantity := Min(b.orders[fkey].remaining, b.orders[other].remaining);
    var o := NetBy(b.orders[other], quantity, b.epsilon);
    var c := NetBy(b.orders[fkey], quantity, b.epsilon);
    var m := b.orders[other := o];
    forall s: string
      ensures SumOver(m[fkey := c], NettedOn(s, Buy)) == SumOver(m[fkey := c], NettedOn(s, Sell))
    {
      SumUpdate(b.orders, other, o, NettedOn(s, Buy));
      SumUpdate(b.orders, other, o, NettedOn(s, Sell));
      SumUpdate(m, fkey, c, NettedOn(s, Buy));
      SumUpdate(m, fkey, c, NettedOn(s, Sell));
    }
  }

  lemma {:induction false} NetLoopBalances(b: Book, fkey: int, k: QueueKey)
    requires Netting(b, fkey, k) && CanNet(b, fkey, k) && NettingBalanced(b)
    ensures NettingBalanced(NetLoop(b, fkey, k))
    decreases |Queue(b, k)|, b.orders[fkey].remaining > b.epsilon
  {
    if Queue(b, k) != [] && b.orders[fkey].remaining > b.epsilon {
      NetStepBalances(b, fkey, k);
      NetStepKeeps(b, fkey, k);
      NetLoopBalances(NetStep(b, fkey, k), fkey, k);
    }
  }

  /** A margin fill adds the same netted amount to both sides of its symbol. */
  lemma AddMarginBalances(b: Book, o: MarginOrder)
    requires Inv(b) && !RejectsMargin(b, o) && Unmatched(o) && NettingBalanced(b)
    ensures Linked(b) && NettingBalanced(AddMargin(b, o))
  {
    InvLinked(b);
    EnterLoose(b, o);
    var k := (o.symbol, o.side.Opposite());
    var b1 := b.(orders := b.orders[o.fkey := Fresh(o)]);
    forall s: string ensures SumOver(b1.orders, NettedOn(s, Buy)) == SumOver(b1.orders, NettedOn(s, Sell)) {
      SumUpdate(b.orders, o.fkey, Fresh(o), NettedOn(s, Buy));
      SumUpdate(b.orders, o.fkey, Fresh(o), NettedOn(s, Sell));
    }
    NettingCanNet(b1, o.fkey, k);
    NetLoopBalances(b1, o.fkey, k);
  }

  lemma HedgeStepAccounts(h: Hedging, f: FuturesOrder, k: QueueKey, m: MarginOrder -> real)
    requires CanHedge(h.book, k) && Queue(h.book, k) != []
    ensures Queue(h.book, k)[0] in h.book.orders
    ensures var b := h.book; var head := b.orders[Queue(b, k)[0]];
            var quantity := Min(h.left, head.remaining);
            SumOver(HedgeStep(h, f, k).book.orders, m)
            == SumOver(b.orders, m) + m(CloseBy(head, quantity, f.cprice, b.epsilon)) - m(head)
  {
    var b := h.book;
    var head := Queue(b, k)[0];
    assert head in Queue(b, k);
    var quantity := Min(h.left, b.orders[head].remaining);
    SumUpdate(b.orders, head, CloseBy(b.orders[head], quantity, f.cprice, b.epsilon), m);
  }

  /** The closed amount a hedge adds is what it gave up, up to one clamp; its notional follows at the hedge price. */
  ghost predicate HedgeAccounted(h: Hedging, r: Hedging, f: FuturesOrder) {
    var closed := SumOver(r.book.orders, ClosedAmount()) - SumOver(h.book.orders, ClosedAmount());
    var notional := SumOver(r.book.orders, CloseNotional()) - SumOver(h.book.orders, CloseNotional());
    && (r.left == h.left - closed || (r.left == 0.0 && 0.0 <= h.left - closed <= h.book.epsilon))
    && notional == (if f.cprice.Some? then closed * f.cprice.value else 0.0)
    && (forall s: string, d :: SumOver(r.book.orders, NettedOn(s, d)) == SumOver(h.book.orders, NettedOn(s, d)))
  }

  lemma HedgeStepAccounted(h: Hedging, f: FuturesOrder, k: QueueKey)
    requires CanHedge(h.book, k) && Queue(h.book, k) != [] && 0.0 <= h.left
    ensures HedgeAccounted(h, HedgeStep(h, f, k), f)
  {
    HedgeStepAccounts(h, f, k, ClosedAmount());
    HedgeStepAccounts(h, f, k, CloseNotional());
    forall s: string, d
      ensures SumOver(HedgeStep(h, f, k).book.orders, NettedOn(s, d)) == SumOver(h.book.orders, NettedOn(s, d))
    {
      HedgeStepAccounts(h, f, k, NettedOn(s, d));
    }
  }

  lemma HedgeAccountedChain(h: Hedging, n: Hedging, r: Hedging, f: FuturesOrder)
    requires HedgeAccounted(h, n, f) && HedgeAccounted(n, r, f)
    requires n == r || n.left > h.book.epsilon >= 0.0
    requires n.book.epsilon == h.book.epsilon
    ensures HedgeAccounted(h, r, f)
  {
    if n != r && f.cprice.Some? {
      Distribute(
        SumOver(n.book.orders, ClosedAmount()) - SumOver(h.book.orders, ClosedAmount()),
        SumOver(r.book.orders, ClosedAmount()) - SumOver(n.book.orders, ClosedAmount()), f.cprice.value);
    }
  }

  lemma {:induction false} HedgeLoopAccounts(h: Hedging, f: FuturesOrder, k: QueueKey)
    requires CanHedge(h.book, k) && 0.0 <= h.left
    ensures HedgeAccounted(h, HedgeLoop(h, f, k), f)
    decreases |Queue(h.book, k)|, h.left > h.book.epsilon
  {
    if h.left > h.book.epsilon && Queue(h.book, k) != [] {
      var n := HedgeStep(h, f, k);
      HedgeStepAccounted(h, f, k);
      HedgeLoopAccounts(n, f, k);
      HedgeAccountedChain(h, n, HedgeLoop(n, f, k), f);
    }
  }

  /** The closed amount a book gained between two states. */
  ghost function ClosedBetween(b: Book, r: Book): real {
    SumOver(r.orders, ClosedAmount()) - SumOver(b.orders, ClosedAmount())
  }

  /** What the end of the hedging loop says about the fill. */
  ghost predicate FillAccounted(b: Book, f: FuturesOrder, r: Hedging) {
    && Abs(f.amount - r.left - ClosedBetween(b, r.book)) <= b.epsilon
    && (r.left == 0.0 || Queue(r.book, (f.symbol, f.side.Opposite())) == [] || f.amount <= b.epsilon)
    && (NettingBalanced(b) ==> NettingBalanced(r.book))
  }

  lemma AccountedBalances(h: Hedging, r: Hedging, f: FuturesOrder)
    requires HedgeAccounted(h, r, f) && NettingBalanced(h.book)
    ensures NettingBalanced(r.book)
  {
    hide SumOver, NettedOn;
    forall s: string ensures SumOver(r.book.orders, NettedOn(s, Buy)) == SumOver(r.book.orders, NettedOn(s, Sell)) {
      assert SumOver(h.book.orders, NettedOn(s, Buy)) == SumOver(h.book.orders, NettedOn(s, Sell));
    }
  }

  lemma AccountedFill(b: Book, f: FuturesOrder, r: Hedging, k: QueueKey)
    requires HedgeAccounted(HedgeStart(b, f), r, f) && !RejectsFutures(b, f) && b.epsilon >= 0.0
    requires k == (f.symbol, f.side.Opposite())
    requires r.left <= b.epsilon || Queue(r.book, k) == []
    requires r.left == 0.0 || r.left > b.epsilon || r.left == HedgeStart(b, f).left
    ensures FillAccounted(b, f, r)
  {
    if NettingBalanced(b) {
      AccountedBalances(HedgeStart(b, f), r, f);
    }
    hide SumOver, NettingBalanced, Queue, NettedOn;
  }

  /**
   A futures fill: its allocated amount is what it closed within `epsilon`, nothing is netted, and an amount is
   left over only when the opposite queue is exhausted or the fill was dust to begin with.
   */
  lemma AddFuturesAccounts(b: Book, f: FuturesOrder)
    requires Inv(b) && !RejectsFutures(b, f)
    ensures Linked(b) && Inv(AddFutures(b, f).0)
    ensures var (r, h) := AddFutures(b, f);
            && Abs(h.allocatedAmount - ClosedBetween(b, r)) <= b.epsilon
            && h.allocatedAmount + h.unallocatedAmount == f.amount
            && (h.unallocatedAmount == 0.0 || Queue(r, (f.symbol, f.side.Opposite())) == [] || f.amount <= b.epsilon)
            && (NettingBalanced(b) ==> NettingBalanced(r))
  {
    InvLinked(b);
    HedgedFill(b, f);
    AddFuturesShape(b, f);
    hide Inv, HedgeLoop, ClosedBetween, NettingBalanced, Queue, AddFutures, HedgeStart, RejectsFutures;
  }

  /** The book and the fill once the hedging loop has ended. */
  function Hedged(b: Book, f: FuturesOrder): Hedging
    requires Linked(b)
  {
    HedgeLoop(HedgeStart(b, f), f, (f.symbol, f.side.Opposite()))
  }

  lemma AddFuturesShape(b: Book, f: FuturesOrder)
    requires Linked(b)
    ensures var r := Hedged(b, f);
            AddFutures(b, f) == (r.book, HedgeResult(f, f.amount - r.left, r.left, r.anchor))
  {}

  lemma HedgedFill(b: Book, f: FuturesOrder)
    requires Inv(b) && Linked(b) && !RejectsFutures(b, f)
    ensures Inv(Hedged(b, f).book) && FillAccounted(b, f, Hedged(b, f))
  {
    var k := (f.symbol, f.side.Opposite());
    var h := HedgeStart(b, f);
    assert h.book == b && 0.0 <= h.left && b.epsilon >= 0.0 && CanHedge(b, k);
    hide Inv, HedgeLoop, HedgeAccounted, FillAccounted, Queue, HedgeStart, RejectsFutures, Linked, CanHedge;
    HedgeLoopKeeps(h, f, k);
    HedgeLoopAccounts(h, f, k);
    HedgeLeftover(h, f, k);
    AccountedFill(b, f, HedgeLoop(h, f, k), k);
  }

  lemma {:induction false} HedgeLeftover(h: Hedging, f: FuturesOrder, k: QueueKey)
    requires CanHedge(h.book, k) && 0.0 <= h.left
    ensures var r := HedgeLoop(h, f, k); r.left == 0.0 || r.left > h.book.epsilon || r.left == h.left
    decreases |Queue(h.book, k)|, h.left > h.book.epsilon
  {
    if h.left > h.book.epsilon && Queue(h.book, k) != [] {
      HedgeLeftover(HedgeStep(h, f, k), f, k);
    }
  }

  /** The orders a match may touch: the first `cut`, which it finishes, and the next one. */
  function Touched(q: seq<int>, cut: nat): seq<int> {
    if cut < |q| then q[..cut + 1] else q
  }

  /**
   First in, first out: from `b` to `r` the queue lost exactly its first `cut` orders, all of them finished, and
   apart from those, the next one and `loose`, no order changed.
   */
  ghost predicate ConsumedInOrder(b: Book, r: Book, k: QueueKey, cut: nat, loose: set<int>) {
    var q := Queue(b, k);
    && cut <= |q| && Queue(r, k) == q[cut..]
    && (forall k': QueueKey :: k' != k ==> Queue(r, k') == Queue(b, k'))
    && r.orders.Keys == b.orders.Keys && r.epsilon == b.epsilon
    && (forall i :: 0 <= i < cut ==> FinishedIn(r, q[i]))
    && (forall f :: f in b.orders && f !in loose && f !in Touched(q, cut) ==> r.orders[f] == b.orders[f])
  }

  ghost predicate FinishedIn(b: Book, fkey: int) {
    fkey in b.orders && b.orders[fkey].remaining == 0.0
  }

  lemma TouchedChain(q: seq<int>, c1: nat, c2: nat, f: int)
    requires c1 + c2 <= |q| && f !in Touched(q, c1 + c2)
    ensures f !in Touched(q, c1) && f !in Touched(q[c1..], c2)
  {
    if c1 + c2 < |q| {
      assert Touched(q[c1..], c2) == q[c1..c1 + c2 + 1];
    }
  }

  /** An order that has left the queue is not touched again. */
  lemma TouchedLater(q: seq<int>, c1: nat, c2: nat, i: nat)
    requires forall i, j :: 0 <= i < j < |q| ==> q[i] != q[j]
    requires i < c1 <= |q|
    ensures q[i] !in Touched(q[c1..], c2)
  {
    var t := Touched(q[c1..], c2);
    forall j | 0 <= j < |t| ensures t[j] != q[i] {
      assert t[j] == q[c1 + j];
    }
  }

  lemma ConsumedChain(b: Book, m: Book, r: Book, k: QueueKey, c1: nat, c2: nat, cut: nat, loose: set<int>)
    requires ConsumedInOrder(b, m, k, c1, loose) && ConsumedInOrder(m, r, k, c2, loose)
    requires DistinctFrom(Queue(b, k), loose) && cut == c1 + c2
    ensures ConsumedInOrder(b, r, k, cut, loose)
  {
    hide Touched;
    var q := Queue(b, k);
    forall i | 0 <= i < c1 + c2 ensures FinishedIn(r, q[i]) {
      if i < c1 {
        TouchedLater(q, c1, c2, i);
        assert FinishedIn(m, q[i]) && q[i] in q;
      } else {
        assert q[i] == Queue(m, k)[i - c1];
      }
    }
    forall f | f in b.orders && f !in loose && f !in Touched(q, c1 + c2) ensures r.orders[f] == b.orders[f] {
      TouchedChain(q, c1, c2, f);
    }
  }

  ghost predicate DistinctFrom(q: seq<int>, loose: set<int>) {
    (forall i, j :: 0 <= i < j < |q| ==> q[i] != q[j]) && forall f :: f in q ==> f !in loose
  }

  lemma QueueDistinct(b: Book, k: QueueKey, loose: set<int>)
    requires InvExcept(b, loose)
    ensures DistinctFrom(Queue(b, k), loose)
  {
    assert QueueOk(b, k, loose);
  }

  lemma InvIsExcept(b: Book)
    requires Inv(b)
    ensures InvExcept(b, {})
  {}

  lemma NettingExcept(b: Book, fkey: int, k: QueueKey)
    requires Netting(b, fkey, k)
    ensures InvExcept(b, {fkey})
  {}

  lemma HedgeStepInOrder(h: Hedging, f: FuturesOrder, k: QueueKey) returns (cut: nat)
    requires Inv(h.book) && CanHedge(h.book, k) && Queue(h.book, k) != [] && h.left > h.book.epsilon
    ensures ConsumedInOrder(h.book, HedgeStep(h, f, k).book, k, cut, {})
  {
    var b := h.book;
    var head := Queue(b, k)[0];
    assert head in Queue(b, k) && QueueOk(b, k, {});
    var r := HedgeStep(h, f, k).book;
    cut := if r.orders[head].remaining <= b.epsilon then 1 else 0;
    assert Queue(b, k)[..1] == [head];
  }

  lemma ConsumedNothing(b: Book, k: QueueKey, loose: set<int>)
    ensures ConsumedInOrder(b, b, k, 0, loose)
  {}

  /** Hedging consumes the queue strictly oldest first. */
  lemma {:induction false} HedgeInOrder(h: Hedging, f: FuturesOrder, k: QueueKey) returns (cut: nat)
    requires Inv(h.book) && CanHedge(h.book, k)
    ensures ConsumedInOrder(h.book, HedgeLoop(h, f, k).book, k, cut, {})
    decreases |Queue(h.book, k)|, h.left > h.book.epsilon
  {
    InvIsExcept(h.book);
    hide Inv, InvExcept, CanHedge, ConsumedInOrder, HedgeStep, Queue, DistinctFrom;
    if h.left > h.book.epsilon && Queue(h.book, k) != [] {
      var n := HedgeStep(h, f, k);
      var c1 := HedgeStepInOrder(h, f, k);
      HedgeStepKeeps(h, f, k);
      var c2 := HedgeInOrder(n, f, k);
      QueueDistinct(h.book, k, {});
      cut := c1 + c2;
      ConsumedChain(h.book, n.book, HedgeLoop(n, f, k).book, k, c1, c2, cut, {});
    } else {
      ConsumedNothing(h.book, k, {});
      cut := 0;
    }
  }

  /** Popping the head once it is done, or leaving it, is consuming in order. */
  lemma PopInOrder(b: Book, r: Book, k: QueueKey, head: int, loose: set<int>) returns (cut: nat)
    requires Queue(b, k) != [] && Queue(b, k)[0] == head && head in b.orders
    requires r.queues == b.queues && r.epsilon == b.epsilon && r.orders.Keys == b.orders.Keys
    requires r.orders[head].remaining > r.epsilon || r.orders[head].remaining == 0.0 <= r.epsilon
    requires forall f :: f in b.orders && f != head && f !in loose ==> r.orders[f] == b.orders[f]
    ensures Queue(r, k) != [] && ConsumedInOrder(b, PopIfDone(r, k, head), k, cut, loose)
  {
    cut := if r.orders[head].remaining <= b.epsilon then 1 else 0;
    assert Queue(b, k)[..1] == [head];
  }

  lemma NetStepInOrder(b: Book, fkey: int, k: QueueKey) returns (cut: nat)
    requires Netting(b, fkey, k) && CanNet(b, fkey, k)
    requires Queue(b, k) != [] && b.orders[fkey].remaining > b.epsilon
    ensures ConsumedInOrder(b, NetStep(b, fkey, k), k, cut, {fkey})
  {
    var head := Queue(b, k)[0];
    assert head in Queue(b, k);
    var quantity := Min(b.orders[fkey].remaining, b.orders[head].remaining);
    var o := NetBy(b.orders[head], quantity, b.epsilon);
    var c := NetBy(b.orders[fkey], quantity, b.epsilon);
    NetStepOrders(b, fkey, k, o, c);
    NetStepShape(b, fkey, k, o, c);
    hide NetBy, Min, NetStep, ConsumedInOrder, Netting, Queue;
    var r := b.(orders := b.orders[fkey := c][head := o]);
    assert r.orders[head] == o && r.orders.Keys == b.orders.Keys;
    cut := PopInOrder(b, r, k, head, {fkey});
  }

  /** Netting consumes the opposite queue strictly oldest first. */
  lemma {:induction false} NetInOrder(b: Book, fkey: int, k: QueueKey) returns (cut: nat)
    requires Netting(b, fkey, k) && CanNet(b, fkey, k)
    ensures ConsumedInOrder(b, NetLoop(b, fkey, k), k, cut, {fkey})
    decreases |Queue(b, k)|, b.orders[fkey].remaining > b.epsilon
  {
    NettingExcept(b, fkey, k);
    hide Netting, InvExcept, CanNet, ConsumedInOrder, NetStep, Queue, DistinctFrom;
    if Queue(b, k) != [] && b.orders[fkey].remaining > b.epsilon {
      var n := NetStep(b, fkey, k);
      var c1 := NetStepInOrder(b, fkey, k);
      NetStepKeeps(b, fkey, k);
      var c2 := NetInOrder(n, fkey, k);
      QueueDistinct(b, k, {fkey});
      cut := c1 + c2;
      ConsumedChain(b, n, NetLoop(n, fkey, k), k, c1, c2, cut, {fkey});
    } else {
      ConsumedNothing(b, k, {fkey});
      cut := 0;
    }
  }

  // ---- The anchor

  /** The order `anchor` names gained closed amount from `b` to `r`. */
  ghost predicate Gained(b: Book, r: Book, anchor: Option<int>) {
    && anchor.Some? && anchor.value in b.orders && anchor.value in r.orders
    && r.orders[anchor.value].camount > b.orders[anchor.value].camount
  }

  ghost predicate NeverLoses(b: Book, r: Book) {
    b.orders.Keys == r.orders.Keys && forall f :: f in b.orders ==> r.orders[f].camount >= b.orders[f].camount
  }

  lemma HedgeStepAnchors(h: Hedging, f: FuturesOrder, k: QueueKey)
    requires Inv(h.book) && CanHedge(h.book, k) && Queue(h.book, k) != [] && h.left > h.book.epsilon
    ensures var r := HedgeStep(h, f, k);
            NeverLoses(h.book, r.book) && (r.anchor <==> h.anchor || Gained(h.book, r.book, f.mainFkey))
  {
    assert Queue(h.book, k)[0] in Queue(h.book, k) && QueueOk(h.book, k, {});
  }

  lemma {:induction false} HedgeLoopAnchors(h: Hedging, f: FuturesOrder, k: QueueKey)
    requires Inv(h.book) && CanHedge(h.book, k)
    ensures var r := HedgeLoop(h, f, k);
            NeverLoses(h.book, r.book) && (r.anchor <==> h.anchor || Gained(h.book, r.book, f.mainFkey))
    decreases |Queue(h.book, k)|, h.left > h.book.epsilon
  {
    if h.left > h.book.epsilon && Queue(h.book, k) != [] {
      HedgeStepKeeps(h, f, k);
      HedgeStepAnchors(h, f, k);
      hide HedgeStep, Inv;
      HedgeLoopAnchors(HedgeStep(h, f, k), f, k);
    }
  }

  /** A hedge is anchored iff it closed some of the order it names, or had nothing to close in the first place. */
  lemma AnchorMatchedIff(b: Book, f: FuturesOrder)
    requires Inv(b)
    ensures Linked(b)
    ensures var (r, h) := AddFutures(b, f);
            h.anchorMatched <==> f.amount <= b.epsilon || Gained(b, r, f.mainFkey)
  {
    InvLinked(b);
    HedgeLoopAnchors(HedgeStart(b, f), f, (f.symbol, f.side.Opposite()));
  }
}
