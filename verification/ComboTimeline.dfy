/** The merge of orders, funding and interest keeps every row and puts each charge before the orders it has to meet. */
module ComboTimeline {
  import opened Prelude
  import opened ComboFifo
  import opened ComboEngine

  datatype Kind = Orders | Fundings | Interests

  predicate Is(kind: Kind, ev: CarryEvent) {
    match kind
    case Orders => ev.OrderEvent?
    case Fundings => ev.FundingEvent?
    case Interests => ev.InterestEvent?
  }

  /** The events of one kind, in their order. */
  function Of(kind: Kind, events: seq<CarryEvent>): seq<CarryEvent> {
    if events == [] then [] else (if Is(kind, events[0]) then [events[0]] else []) + Of(kind, events[1..])
  }

  function OrderRows(rows: seq<Order>): (r: seq<CarryEvent>)
    ensures |r| == |rows| && forall i :: 0 <= i < |r| ==> r[i] == OrderEvent(rows[i])
  {
    seq(|rows|, i requires 0 <= i < |rows| => OrderEvent(rows[i]))
  }

  function FundingRows(rows: seq<FundingRow>): (r: seq<CarryEvent>)
    ensures |r| == |rows| && forall i :: 0 <= i < |r| ==> r[i] == FundingEvent(rows[i].symbol, rows[i].amount)
  {
    seq(|rows|, i requires 0 <= i < |rows| => FundingEvent(rows[i].symbol, rows[i].amount))
  }

  function InterestRows(rows: seq<InterestRow>): (r: seq<CarryEvent>)
    ensures |r| == |rows| && forall i :: 0 <= i < |r| ==> r[i] == InterestEvent(rows[i].scope, rows[i].cost)
  {
    seq(|rows|, i requires 0 <= i < |rows| => InterestEvent(rows[i].scope, rows[i].cost))
  }

  /** These events are exactly these rows, each kind in its own order. */
  ghost predicate Consists(
    events: seq<CarryEvent>, orders: seq<Order>, funding: seq<FundingRow>, interest: seq<InterestRow>)
  {
    && Of(Orders, events) == OrderRows(orders)
    && Of(Fundings, events) == FundingRows(funding)
    && Of(Interests, events) == InterestRows(interest)
  }

  lemma OfHead(kind: Kind, ev: CarryEvent, events: seq<CarryEvent>)
    ensures Of(kind, [ev] + events) == (if Is(kind, ev) then [ev] else []) + Of(kind, events)
  {
    assert ([ev] + events)[1..] == events;
  }

  lemma RowsHead(orders: seq<Order>, funding: seq<FundingRow>, interest: seq<InterestRow>)
    ensures orders != [] ==> OrderRows(orders) == [OrderEvent(orders[0])] + OrderRows(orders[1..])
    ensures funding != [] ==>
              FundingRows(funding) == [FundingEvent(funding[0].symbol, funding[0].amount)] + FundingRows(funding[1..])
    ensures interest != [] ==>
              InterestRows(interest)
              == [InterestEvent(interest[0].scope, interest[0].cost)] + InterestRows(interest[1..])
  {}

  lemma ConsistsOrder(events: seq<CarryEvent>, orders: seq<Order>, funding: seq<FundingRow>, interest: seq<InterestRow>)
    requires orders != [] && Consists(events, orders[1..], funding, interest)
    ensures Consists([OrderEvent(orders[0])] + events, orders, funding, interest)
  {
    ConsistsHead(OrderEvent(orders[0]), events);
    RowsHead(orders, [], []);
    hide Of;
  }

  lemma ConsistsFunding(
    events: seq<CarryEvent>, orders: seq<Order>, funding: seq<FundingRow>, interest: seq<InterestRow>)
    requires funding != [] && Consists(events, orders, funding[1..], interest)
    ensures Consists([FundingEvent(funding[0].symbol, funding[0].amount)] + events, orders, funding, interest)
  {
    ConsistsHead(FundingEvent(funding[0].symbol, funding[0].amount), events);
    RowsHead([], funding, []);
    hide Of;
  }

  lemma ConsistsInterest(
    events: seq<CarryEvent>, orders: seq<Order>, funding: seq<FundingRow>, interest: seq<InterestRow>)
    requires interest != [] && Consists(events, orders, funding, interest[1..])
    ensures Consists([InterestEvent(interest[0].scope, interest[0].cost)] + events, orders, funding, interest)
  {
    ConsistsHead(InterestEvent(interest[0].scope, interest[0].cost), events);
    RowsHead([], [], interest);
    hide Of;
  }

  lemma ConsistsHead(ev: CarryEvent, events: seq<CarryEvent>)
    ensures forall kind ::
              Of(kind, [ev] + events) == if Is(kind, ev) then [ev] + Of(kind, events) else Of(kind, events)
  {
    forall kind ensures Of(kind, [ev] + events) == if Is(kind, ev) then [ev] + Of(kind, events) else Of(kind, events) {
      OfHead(kind, ev, events);
    }
  }

  /** The merge consists of all rows. */
  lemma {:induction false} TimelineConsists(orders: seq<Order>, funding: seq<FundingRow>, interest: seq<InterestRow>)
    ensures Consists(Timeline(orders, funding, interest), orders, funding, interest)
    decreases |orders| + |funding| + |interest|
  {
    hide Consists;
    if funding != [] && (orders == [] || funding[0].ts <= orders[0].completedAtMs) {
      TimelineConsists(orders, funding[1..], interest);
      ConsistsFunding(Timeline(orders, funding[1..], interest), orders, funding, interest);
    } else if interest != [] && (orders == [] || interest[0].ts <= orders[0].completedAtMs) {
      TimelineConsists(orders, funding, interest[1..]);
      ConsistsInterest(Timeline(orders, funding, interest[1..]), orders, funding, interest);
    } else if orders != [] {
      TimelineConsists(orders[1..], funding, interest);
      ConsistsOrder(Timeline(orders[1..], funding, interest), orders, funding, interest);
    } else {
      NothingConsists();
    }
  }

  lemma NothingConsists()
    ensures Consists([], [], [], [])
  {}

  /** Rows come sorted by time. */
  ghost predicate Sorted(orders: seq<Order>, funding: seq<FundingRow>, interest: seq<InterestRow>) {
    && (forall i, j :: 0 <= i < j < |orders| ==> orders[i].completedAtMs <= orders[j].completedAtMs)
    && (forall i, j :: 0 <= i < j < |funding| ==> funding[i].ts <= funding[j].ts)
    && (forall i, j :: 0 <= i < j < |interest| ==> interest[i].ts <= interest[j].ts)
  }

  /** The first `a` funding rows and the first `b` interest rows are those at or before `t`. */
  ghost predicate UpTo(t: int, funding: seq<FundingRow>, a: nat, interest: seq<InterestRow>, b: nat) {
    && a <= |funding| && b <= |interest|
    && (forall i :: 0 <= i < |funding| ==> (funding[i].ts <= t <==> i < a))
    && (forall i :: 0 <= i < |interest| ==> (interest[i].ts <= t <==> i < b))
  }

  /** Order `j` stands at `p`; before it stand the earlier orders and exactly the charges up to its time. */
  ghost predicate StandsAt(events: seq<CarryEvent>, orders: seq<Order>, funding: seq<FundingRow>,
                           interest: seq<InterestRow>, j: nat, p: nat, a: nat, b: nat)
    requires j < |orders|
  {
    && p < |events| && events[p] == OrderEvent(orders[j])
    && UpTo(orders[j].completedAtMs, funding, a, interest, b)
    && Consists(events[..p], orders[..j], funding[..a], interest[..b])
  }

  lemma Shifted(ev: CarryEvent, rest: seq<CarryEvent>, p: nat)
    requires p < |rest|
    ensures ([ev] + rest)[p + 1] == rest[p] && ([ev] + rest)[..p + 1] == [ev] + rest[..p]
  {}

  lemma FundingBefore(orders: seq<Order>, funding: seq<FundingRow>, interest: seq<InterestRow>, j: nat,
                      rest: seq<CarryEvent>, p: nat, a: nat, b: nat)
    requires j < |orders| && funding != [] && funding[0].ts <= orders[j].completedAtMs
    requires StandsAt(rest, orders, funding[1..], interest, j, p, a, b)
    ensures StandsAt([FundingEvent(funding[0].symbol, funding[0].amount)] + rest, orders, funding, interest,
                     j, p + 1, a + 1, b)
  {
    var t := orders[j].completedAtMs;
    Shifted(FundingEvent(funding[0].symbol, funding[0].amount), rest, p);
    assert funding[..a + 1][1..] == funding[1..][..a] && funding[..a + 1][0] == funding[0];
    ConsistsFunding(rest[..p], orders[..j], funding[..a + 1], interest[..b]);
    forall i | 0 <= i < |funding| ensures funding[i].ts <= t <==> i < a + 1 {
      assert i > 0 ==> funding[i] == funding[1..][i - 1];
    }
    hide Consists;
  }

  lemma InterestBefore(orders: seq<Order>, funding: seq<FundingRow>, interest: seq<InterestRow>, j: nat,
                       rest: seq<CarryEvent>, p: nat, a: nat, b: nat)
    requires j < |orders| && interest != [] && interest[0].ts <= orders[j].completedAtMs
    requires StandsAt(rest, orders, funding, interest[1..], j, p, a, b)
    ensures StandsAt([InterestEvent(interest[0].scope, interest[0].cost)] + rest, orders, funding, interest,
                     j, p + 1, a, b + 1)
  {
    var t := orders[j].completedAtMs;
    Shifted(InterestEvent(interest[0].scope, interest[0].cost), rest, p);
    assert interest[..b + 1][1..] == interest[1..][..b] && interest[..b + 1][0] == interest[0];
    ConsistsInterest(rest[..p], orders[..j], funding[..a], interest[..b + 1]);
    forall i | 0 <= i < |interest| ensures interest[i].ts <= t <==> i < b + 1 {
      assert i > 0 ==> interest[i] == interest[1..][i - 1];
    }
    hide Consists;
  }

  lemma OrderBefore(orders: seq<Order>, funding: seq<FundingRow>, interest: seq<InterestRow>, j: nat,
                    rest: seq<CarryEvent>, p: nat, a: nat, b: nat)
    requires 0 < j < |orders| && StandsAt(rest, orders[1..], funding, interest, j - 1, p, a, b)
    ensures StandsAt([OrderEvent(orders[0])] + rest, orders, funding, interest, j, p + 1, a, b)
  {
    Shifted(OrderEvent(orders[0]), rest, p);
    assert orders[..j][1..] == orders[1..][..j - 1] && orders[..j][0] == orders[0];
    ConsistsOrder(rest[..p], orders[..j], funding[..a], interest[..b]);
    hide Consists;
  }

  /**
   In the merge of sorted rows, before each order stand the orders before it and exactly the funding and interest rows
   at or before its time; so each such row meets exactly the orders completed at or after it.
   */
  lemma {:induction false} ChargesMeetOrders(
    orders: seq<Order>, funding: seq<FundingRow>, interest: seq<InterestRow>, j: nat)
    returns (p: nat, a: nat, b: nat)
    requires Sorted(orders, funding, interest) && j < |orders|
    ensures StandsAt(Timeline(orders, funding, interest), orders, funding, interest, j, p, a, b)
    decreases |orders| + |funding| + |interest|
  {
    var all := Timeline(orders, funding, interest);
    assert orders[0].completedAtMs <= orders[j].completedAtMs;
    if funding != [] && funding[0].ts <= orders[0].completedAtMs {
      assert Sorted(orders, funding[1..], interest);
      var rest := Timeline(orders, funding[1..], interest);
      p, a, b := ChargesMeetOrders(orders, funding[1..], interest, j);
      hide Timeline, Sorted;
      FundingBefore(orders, funding, interest, j, rest, p, a, b);
      p, a := p + 1, a + 1;
    } else if interest != [] && interest[0].ts <= orders[0].completedAtMs {
      assert Sorted(orders, funding, interest[1..]);
      var rest := Timeline(orders, funding, interest[1..]);
      p, a, b := ChargesMeetOrders(orders, funding, interest[1..], j);
      hide Timeline, Sorted;
      InterestBefore(orders, funding, interest, j, rest, p, a, b);
      p, b := p + 1, b + 1;
    } else {
      var rest := Timeline(orders[1..], funding, interest);
      if j == 0 {
        p, a, b := 0, 0, 0;
        NothingConsists();
        hide Timeline, Consists;
        assert all == [OrderEvent(orders[0])] + rest;
        assert all[..0] == [] && orders[..0] == [] && funding[..0] == [] && interest[..0] == [];
      } else {
        assert Sorted(orders[1..], funding, interest);
        p, a, b := ChargesMeetOrders(orders[1..], funding, interest, j - 1);
        hide Timeline, Sorted;
        OrderBefore(orders, funding, interest, j, rest, p, a, b);
        p := p + 1;
      }
    }
  }
}
