/**
 What every reachable book satisfies: amounts are conserved up to one clamp per order, the queues hold exactly
 the pending orders, and at most one side of a symbol is pending.
 */
module MatchInvariants {
  import opened Prelude
  import opened MapSum
  import opened MatchBook

  /** Conservation for one order; every match moved more than `epsilon`, so a used bucket is above it. */
  ghost predicate OrderOk(o: MarginOrder, epsilon: real) {
    && o.fill > epsilon
    && (if o.remaining > epsilon
        then o.remaining + o.camount + o.netted == o.fill
        else o.remaining == 0.0 && o.fill - epsilon <= o.camount + o.netted <= o.fill)
    && (o.camount == 0.0 || o.camount > epsilon)
    && (o.netted == 0.0 || o.netted > epsilon)
    && o.state == StateOf(o, epsilon)
  }

  ghost predicate OrdersOk(b: Book) {
    b.epsilon >= 0.0 && forall f :: f in b.orders ==> b.orders[f].fkey == f && OrderOk(b.orders[f], b.epsilon)
  }

  /** A queue lists, without repetition, pending orders of its own symbol and side. */
  ghost predicate QueueOk(b: Book, k: QueueKey, loose: set<int>) {
    var q := Queue(b, k);
    && (forall f :: f in q ==>
          f in b.orders && f !in loose && b.orders[f].Key() == k && b.orders[f].remaining > b.epsilon)
    && (forall i, j :: 0 <= i < j < |q| ==> q[i] != q[j])
  }

  ghost predicate Complete(b: Book, loose: set<int>) {
    forall f :: f in b.orders && f !in loose && b.orders[f].remaining > b.epsilon ==>
      f in Queue(b, b.orders[f].Key())
  }

  ghost predicate OneSided(b: Book) {
    forall s: string :: Queue(b, (s, Buy)) == [] || Queue(b, (s, Sell)) == []
  }

  /** The invariant; orders in `loose` are being matched and are not queued. */
  ghost predicate InvExcept(b: Book, loose: set<int>) {
    OrdersOk(b) && (forall k: QueueKey :: QueueOk(b, k, loose)) && Complete(b, loose) && OneSided(b)
  }

  ghost predicate Inv(b: Book) {
    InvExcept(b, {})
  }

  /** One match takes more than `epsilon` from an order that had more than `epsilon`. */
  lemma TakeKeepsOrderOk(o: MarginOrder, quantity: real, price: Option<real>, epsilon: real)
    requires epsilon >= 0.0 && OrderOk(o, epsilon) && epsilon < quantity <= o.remaining
    ensures OrderOk(NetBy(o, quantity, epsilon), epsilon)
    ensures OrderOk(CloseBy(o, quantity, price, epsilon), epsilon)
  {}

  /** Shrinking the head order of queue `k`, and popping it once done, keeps the queues and the map agreeing. */
  lemma ShrinkHead(b: Book, k: QueueKey, o: MarginOrder, loose: set<int>)
    requires InvExcept(b, loose) && Queue(b, k) != []
    requires o.fkey == Queue(b, k)[0] && o.Key() == k && OrderOk(o, b.epsilon)
    ensures o.fkey in b.orders
    ensures InvExcept(PopIfDone(b.(orders := b.orders[o.fkey := o]), k, o.fkey), loose)
  {
    hide OrderOk;
    var head := Queue(b, k)[0];
    assert head in Queue(b, k) && QueueOk(b, k, loose);
    var b1 := b.(orders := b.orders[head := o]);
    var r := PopIfDone(b1, k, head);
    forall k': QueueKey ensures QueueOk(r, k', loose) {
      assert QueueOk(b, k', loose);
      assert forall i :: 1 <= i < |Queue(b, k)| ==> Queue(b, k)[i] != head;
    }
    forall f | f in r.orders && f !in loose && r.orders[f].remaining > r.epsilon
      ensures f in Queue(r, r.orders[f].Key())
    {
      if f != head {
        assert f in Queue(b, b.orders[f].Key());
      }
    }
    forall s: string ensures Queue(r, (s, Buy)) == [] || Queue(r, (s, Sell)) == [] {
      assert Queue(b, (s, Buy)) == [] || Queue(b, (s, Sell)) == [];
    }
  }

  /** Changing the amounts of an order that is being matched touches no queue. */
  lemma ShrinkLoose(b: Book, o: MarginOrder, loose: set<int>)
    requires InvExcept(b, loose) && o.fkey in loose && OrderOk(o, b.epsilon)
    ensures InvExcept(b.(orders := b.orders[o.fkey := o]), loose)
  {
    var r := b.(orders := b.orders[o.fkey := o]);
    forall k: QueueKey ensures QueueOk(r, k, loose) {
      assert QueueOk(b, k, loose);
    }
    forall f | f in r.orders && f !in loose && r.orders[f].remaining > r.epsilon
      ensures f in Queue(r, r.orders[f].Key())
    {
      assert f in Queue(b, b.orders[f].Key());
    }
    forall s: string ensures Queue(r, (s, Buy)) == [] || Queue(r, (s, Sell)) == [] {
      assert Queue(b, (s, Buy)) == [] || Queue(b, (s, Sell)) == [];
    }
  }

  ghost predicate Netting(b: Book, fkey: int, k: QueueKey) {
    && InvExcept(b, {fkey})
    && fkey in b.orders
    && k == (b.orders[fkey].symbol, b.orders[fkey].side.Opposite())
  }

  lemma NettingCanNet(b: Book, fkey: int, k: QueueKey)
    requires Netting(b, fkey, k)
    ensures CanNet(b, fkey, k)
  {
    assert QueueOk(b, k, {fkey});
  }

  /** What the arriving order and the head of the queue become. */
  lemma NetStepOrders(b: Book, fkey: int, k: QueueKey, o: MarginOrder, c: MarginOrder)
    requires Netting(b, fkey, k) && CanNet(b, fkey, k)
    requires Queue(b, k) != [] && b.orders[fkey].remaining > b.epsilon
    requires Queue(b, k)[0] in b.orders
    requires var other := Queue(b, k)[0];
             var quantity := Min(b.orders[fkey].remaining, b.orders[other].remaining);
             o == NetBy(b.orders[other], quantity, b.epsilon) && c == NetBy(b.orders[fkey], quantity, b.epsilon)
    ensures OrderOk(o, b.epsilon) && OrderOk(c, b.epsilon)
    ensures o.fkey == Queue(b, k)[0] != fkey == c.fkey && o.Key() == k && c.Key() == b.orders[fkey].Key()
  {
    var other := Queue(b, k)[0];
    assert other in Queue(b, k) && QueueOk(b, k, {fkey});
    var quantity := Min(b.orders[fkey].remaining, b.orders[other].remaining);
    TakeKeepsOrderOk(b.orders[other], quantity, None, b.epsilon);
    TakeKeepsOrderOk(b.orders[fkey], quantity, None, b.epsilon);
  }

  lemma NetStepShape(b: Book, fkey: int, k: QueueKey, o: MarginOrder, c: MarginOrder)
    requires CanNet(b, fkey, k) && Queue(b, k) != [] && Queue(b, k)[0] in b.orders
    requires var other := Queue(b, k)[0];
             var quantity := Min(b.orders[fkey].remaining, b.orders[other].remaining);
             o == NetBy(b.orders[other], quantity, b.epsilon) && c == NetBy(b.orders[fkey], quantity, b.epsilon)
    requires Queue(b, k)[0] != fkey
    ensures var b1 := b.(orders := b.orders[fkey := c]);
            Queue(b1, k) == Queue(b, k) && NetStep(b, fkey, k)
                == PopIfDone(b1.(orders := b1.orders[Queue(b, k)[0] := o]), k, Queue(b, k)[0])
  {
    hide NetBy, Min;
    var other := Queue(b, k)[0];
    assert b.orders[other := o][fkey := c] == b.orders[fkey := c][other := o];
  }

  lemma NetStepKeeps(b: Book, fkey: int, k: QueueKey)
    requires Netting(b, fkey, k) && CanNet(b, fkey, k)
    requires Queue(b, k) != [] && b.orders[fkey].remaining > b.epsilon
    ensures Netting(NetStep(b, fkey, k), fkey, k)
  {
    var other := Queue(b, k)[0];
    assert other in Queue(b, k);
    var quantity := Min(b.orders[fkey].remaining, b.orders[other].remaining);
    var o := NetBy(b.orders[other], quantity, b.epsilon);
    var c := NetBy(b.orders[fkey], quantity, b.epsilon);
    NetStepOrders(b, fkey, k, o, c);
    NetStepShape(b, fkey, k, o, c);
    hide NetBy, Min, OrderOk, InvExcept, NetStep, Queue;
    ShrinkLoose(b, c, {fkey});
    ShrinkHead(b.(orders := b.orders[fkey := c]), k, o, {fkey});
  }

  lemma {:induction false} NetLoopKeeps(b: Book, fkey: int, k: QueueKey)
    requires Netting(b, fkey, k) && CanNet(b, fkey, k)
    ensures Netting(NetLoop(b, fkey, k), fkey, k)
    ensures Queue(NetLoop(b, fkey, k), k) == [] || NetLoop(b, fkey, k).orders[fkey].remaining <= b.epsilon
    ensures NetLoop(b, fkey, k).orders[fkey].Key() == b.orders[fkey].Key()
    ensures NetLoop(b, fkey, k).epsilon == b.epsilon
    decreases |Queue(b, k)|, b.orders[fkey].remaining > b.epsilon
  {
    if Queue(b, k) != [] && b.orders[fkey].remaining > b.epsilon {
      NetStepKeeps(b, fkey, k);
      NetLoopKeeps(NetStep(b, fkey, k), fkey, k);
    }
  }

  /** Incoming margin orders carry no matched amounts yet. */
  predicate Unmatched(o: MarginOrder) {
    o.camount == 0.0 && o.netted == 0.0 && o.closeNotional == 0.0
  }

  lemma InvLinked(b: Book)
    requires Inv(b)
    ensures Linked(b)
  {
    forall k: QueueKey, f | f in Queue(b, k) ensures f in b.orders {
      assert QueueOk(b, k, {});
    }
  }

  lemma EnterLoose(b: Book, o: MarginOrder)
    requires Inv(b) && !RejectsMargin(b, o) && Unmatched(o)
    ensures Netting(b.(orders := b.orders[o.fkey := Fresh(o)]), o.fkey, (o.symbol, o.side.Opposite()))
  {
    InvLinked(b);
    var r := b.(orders := b.orders[o.fkey := Fresh(o)]);
    forall k: QueueKey ensures QueueOk(r, k, {o.fkey}) {
      assert QueueOk(b, k, {});
      assert o.fkey !in Queue(b, k);
    }
    forall f | f in r.orders && f !in {o.fkey} && r.orders[f].remaining > r.epsilon
      ensures f in Queue(r, r.orders[f].Key())
    {
      assert f in Queue(b, b.orders[f].Key());
    }
    forall s: string ensures Queue(r, (s, Buy)) == [] || Queue(r, (s, Sell)) == [] {
      assert Queue(b, (s, Buy)) == [] || Queue(b, (s, Sell)) == [];
    }
  }

  /** Queueing a pending order behind its own side is sound once the other side is empty. */
  lemma PushKeeps(b: Book, fkey: int, k: QueueKey)
    requires Netting(b, fkey, k) && Queue(b, k) == [] && b.orders[fkey].remaining > b.epsilon
    ensures Inv(PushBack(b, fkey, b.orders[fkey].Key()))
  {
    var own := b.orders[fkey].Key();
    var r := PushBack(b, fkey, own);
    forall k': QueueKey ensures QueueOk(r, k', {}) {
      assert QueueOk(b, k', {fkey});
    }
    forall f | f in r.orders && r.orders[f].remaining > r.epsilon
      ensures f in Queue(r, r.orders[f].Key())
    {
      if f != fkey {
        assert f in Queue(b, b.orders[f].Key());
      } else {
        assert Queue(r, own)[|Queue(b, own)|] == fkey;
      }
    }
    forall s: string ensures Queue(r, (s, Buy)) == [] || Queue(r, (s, Sell)) == [] {
      assert Queue(b, (s, Buy)) == [] || Queue(b, (s, Sell)) == [];
    }
  }

  lemma DropLoose(b: Book, fkey: int, k: QueueKey)
    requires Netting(b, fkey, k) && b.orders[fkey].remaining <= b.epsilon
    ensures Inv(b)
  {
    forall k': QueueKey ensures QueueOk(b, k', {}) {
      assert QueueOk(b, k', {fkey});
    }
  }

  /** A margin fill keeps the invariant. */
  lemma AddMarginKeeps(b: Book, o: MarginOrder)
    requires Inv(b) && !RejectsMargin(b, o) && Unmatched(o)
    ensures Linked(b) && Inv(AddMargin(b, o))
  {
    InvLinked(b);
    EnterLoose(b, o);
    var k := (o.symbol, o.side.Opposite());
    var b1 := b.(orders := b.orders[o.fkey := Fresh(o)]);
    NettingCanNet(b1, o.fkey, k);
    NetLoopKeeps(b1, o.fkey, k);
    var b2 := NetLoop(b1, o.fkey, k);
    if b2.orders[o.fkey].remaining > b2.epsilon {
      PushKeeps(b2, o.fkey, k);
    } else {
      DropLoose(b2, o.fkey, k);
    }
  }

  lemma HedgeStepKeeps(h: Hedging, f: FuturesOrder, k: QueueKey)
    requires Inv(h.book) && CanHedge(h.book, k) && Queue(h.book, k) != [] && h.left > h.book.epsilon
    ensures Inv(HedgeStep(h, f, k).book)
  {
    var b := h.book;
    var head := Queue(b, k)[0];
    assert head in Queue(b, k) && QueueOk(b, k, {});
    var quantity := Min(h.left, b.orders[head].remaining);
    TakeKeepsOrderOk(b.orders[head], quantity, f.cprice, b.epsilon);
    ShrinkHead(b, k, CloseBy(b.orders[head], quantity, f.cprice, b.epsilon), {});
  }

  lemma {:induction false} HedgeLoopKeeps(h: Hedging, f: FuturesOrder, k: QueueKey)
    requires Inv(h.book) && CanHedge(h.book, k)
    ensures Inv(HedgeLoop(h, f, k).book)
    ensures HedgeLoop(h, f, k).left <= h.book.epsilon || Queue(HedgeLoop(h, f, k).book, k) == []
    ensures HedgeLoop(h, f, k).book.epsilon == h.book.epsilon
    decreases |Queue(h.book, k)|, h.left > h.book.epsilon
  {
    if h.left > h.book.epsilon && Queue(h.book, k) != [] {
      HedgeStepKeeps(h, f, k);
      HedgeLoopKeeps(HedgeStep(h, f, k), f, k);
    }
  }
}
