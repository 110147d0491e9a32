/**
 The REST dispatcher's quota: requests reserve weight on the least used source IP, per-IP windows reset when
 they have run their length, and a rate-limited IP is blocked for a while. Steps are atomic (the lock) and read
 the clock inside the step.
 */
module RestQuota {
  import opened Prelude

  const U32_MAX: nat := 0xFFFF_FFFF

  function SaturatingAdd(a: nat, b: nat): nat { if a + b > U32_MAX then U32_MAX else a + b }

  datatype IpClient = IpClient(usedWeight: nat, windowStartedAt: int, blockedUntil: Option<int>)

  datatype Config = Config(limit: nat, window: nat) {
    predicate Valid() { 0 < limit <= U32_MAX && window > 0 }
  }

  datatype Pool = Pool(clients: seq<IpClient>, nextTieBreak: nat)

  function Refresh(c: IpClient, now: int, window: nat): IpClient {
    var c1 := if now - c.windowStartedAt >= window then c.(usedWeight := 0, windowStartedAt := now) else c;
    if c1.blockedUntil.Some? && now >= c1.blockedUntil.value then c1.(blockedUntil := None) else c1
  }

  function RefreshAll(clients: seq<IpClient>, now: int, window: nat): (r: seq<IpClient>)
    ensures |r| == |clients| && forall i :: 0 <= i < |r| ==> r[i] == Refresh(clients[i], now, window)
  {
    seq(|clients|, i requires 0 <= i < |clients| => Refresh(clients[i], now, window))
  }

  predicate Available(c: IpClient, weight: nat, limit: nat) {
    c.blockedUntil.None? && SaturatingAdd(c.usedWeight, weight) <= limit
  }

  /** The `k`-th client in rotation order. */
  function Rotated(start: nat, k: nat, len: nat): (i: nat)
    requires len > 0
    ensures i < len
  {
    (start + k) % len
  }

  /** The least used available client among the first `n` in rotation order; earlier ones win ties. */
  function Best(clients: seq<IpClient>, start: nat, n: nat, weight: nat, limit: nat): (r: Option<nat>)
    requires clients != [] && n <= |clients|
    ensures r.Some? ==> r.value < |clients|
    decreases n
  {
    if n == 0 then None else
      var best := Best(clients, start, n - 1, weight, limit);
      var i := Rotated(start, n - 1, |clients|);
      if Available(clients[i], weight, limit)
         && (best.None? || clients[i].usedWeight < clients[best.value].usedWeight)
      then Some(i) else best
  }

  /** When a client could next take `weight`, as of `now`. */
  function ReadyAt(c: IpClient, now: int, weight: nat, cfg: Config): int {
    var r1 := if c.blockedUntil.Some? then MaxInt(now, c.blockedUntil.value) else now;
    if SaturatingAdd(c.usedWeight, weight) > cfg.limit then MaxInt(r1, c.windowStartedAt + cfg.window) else r1
  }

  function EarliestReady(clients: seq<IpClient>, now: int, weight: nat, cfg: Config): int
    requires clients != []
  {
    var first := ReadyAt(clients[0], now, weight, cfg);
    if |clients| == 1 then first else
      var rest := EarliestReady(clients[1..], now, weight, cfg);
      if first <= rest then first else rest
  }

  datatype Reservation = Granted(index: nat) | NoAvailableIp(retryAfter: int)

  function Reserve(p: Pool, now: int, weight: nat, cfg: Config): (r: (Pool, Reservation))
    requires p.clients != []
    ensures |r.0.clients| == |p.clients| && (r.1.Granted? ==> r.1.index < |p.clients|)
  {
    var clients := RefreshAll(p.clients, now, cfg.window);
    var n := |clients|;
    match Best(clients, p.nextTieBreak % n, n, weight, cfg.limit)
    case None => (p.(clients := clients), NoAvailableIp(EarliestReady(clients, now, weight, cfg) - now))
    case Some(i) =>
      (Pool(clients[i := clients[i].(usedWeight := SaturatingAdd(clients[i].usedWeight, weight))], (i + 1) % n),
       Granted(i))
  }

  function Block(p: Pool, now: int, index: nat, duration: nat): Pool
    requires index < |p.clients|
  {
    p.(clients := p.clients[index := p.clients[index].(blockedUntil := Some(now + duration))])
  }

  function Observe(p: Pool, index: nat, observed: nat): Pool
    requires index < |p.clients|
  {
    var c := p.clients[index];
    p.(clients := p.clients[index := c.(usedWeight := if c.usedWeight >= observed then c.usedWeight else observed)])
  }

  // ---- Which client is chosen

  /** The choice is available, no available client is used less, and there is one whenever some client is available. */
  lemma {:induction false} BestIsLeastUsed(clients: seq<IpClient>, start: nat, n: nat, weight: nat, limit: nat)
    requires clients != [] && n <= |clients|
    ensures var r := Best(clients, start, n, weight, limit);
            && (r.Some? ==> Available(clients[r.value], weight, limit))
            && (forall k: nat :: k < n && Available(clients[Rotated(start, k, |clients|)], weight, limit) ==>
                  r.Some? && clients[r.value].usedWeight <= clients[Rotated(start, k, |clients|)].usedWeight)
    decreases n
  {
    if n > 0 {
      BestIsLeastUsed(clients, start, n - 1, weight, limit);
    }
  }

  lemma RotationCovers(len: nat, start: nat, i: nat) returns (k: nat)
    requires start < len && i < len
    ensures k < len && Rotated(start, k, len) == i
  {
    if i >= start {
      k := i - start;
      SmallRemainder(i, len);
      assert start + k == i;
    } else {
      k := i + len - start;
      SmallRemainder(i, len);
      assert start + k == i + len;
    }
  }

  lemma SmallRemainder(i: nat, len: nat)
    requires i < len
    ensures i % len == i && (i + len) % len == i
  {
    assert (i + len) / len == 1 by {
      assert i + len == len * 1 + i;
    }
  }

  lemma ChosenIsLeastUsed(clients: seq<IpClient>, start: nat, weight: nat, limit: nat, i: nat)
    requires clients != [] && start < |clients| && i < |clients| && Available(clients[i], weight, limit)
    ensures var r := Best(clients, start, |clients|, weight, limit);
            r.Some? && clients[r.value].usedWeight <= clients[i].usedWeight
  {
    BestIsLeastUsed(clients, start, |clients|, weight, limit);
    var k := RotationCovers(|clients|, start, i);
  }

  /** A reservation succeeds exactly when some client is available after refreshing. */
  lemma GrantedIff(p: Pool, now: int, weight: nat, cfg: Config)
    requires p.clients != []
    ensures Reserve(p, now, weight, cfg).1.Granted? <==>
              exists i :: 0 <= i < |p.clients| && Available(Refresh(p.clients[i], now, cfg.window), weight, cfg.limit)
  {
    var clients := RefreshAll(p.clients, now, cfg.window);
    var start := p.nextTieBreak % |clients|;
    BestIsLeastUsed(clients, start, |clients|, weight, cfg.limit);
    forall i | 0 <= i < |clients| && Available(clients[i], weight, cfg.limit)
      ensures Reserve(p, now, weight, cfg).1.Granted?
    {
      ChosenIsLeastUsed(clients, start, weight, cfg.limit, i);
    }
  }

  // ---- The reported wait

  /** A client refreshed at `now` can take the weight at a later `t` exactly from its ready time on. */
  lemma AvailableFrom(c: IpClient, now: int, t: int, weight: nat, cfg: Config)
    requires weight <= cfg.limit <= U32_MAX && now <= t
    ensures var r := Refresh(c, now, cfg.window);
            Available(Refresh(r, t, cfg.window), weight, cfg.limit) <==> t >= ReadyAt(r, now, weight, cfg)
  {}

  lemma {:induction false} EarliestIsLeast(clients: seq<IpClient>, now: int, weight: nat, cfg: Config)
    requires clients != []
    ensures forall i :: 0 <= i < |clients| ==>
              EarliestReady(clients, now, weight, cfg) <= ReadyAt(clients[i], now, weight, cfg)
    ensures exists i :: 0 <= i < |clients|
              && EarliestReady(clients, now, weight, cfg) == ReadyAt(clients[i], now, weight, cfg)
    decreases |clients|
  {
    if |clients| == 1 {
      assert EarliestReady(clients, now, weight, cfg) == ReadyAt(clients[0], now, weight, cfg);
    } else {
      var rest := clients[1..];
      EarliestIsLeast(rest, now, weight, cfg);
      var j :| 0 <= j < |rest| && EarliestReady(rest, now, weight, cfg) == ReadyAt(rest[j], now, weight, cfg);
      assert clients[j + 1] == rest[j];
      assert EarliestReady(clients, now, weight, cfg) == ReadyAt(clients[0], now, weight, cfg)
             || EarliestReady(clients, now, weight, cfg) == ReadyAt(clients[j + 1], now, weight, cfg);
      forall i | 0 <= i < |clients|
        ensures EarliestReady(clients, now, weight, cfg) <= ReadyAt(clients[i], now, weight, cfg)
      {
        assert i > 0 ==> clients[i] == rest[i - 1];
      }
    }
  }

  /**
   The reported wait is exact: with no step in between, the same reservation fails at every instant before
   `now + retryAfter` and succeeds from then on.
   */
  lemma WaitIsExact(p: Pool, now: int, weight: nat, cfg: Config, t: int)
    requires cfg.Valid() && p.clients != [] && weight <= cfg.limit && now <= t
    requires Reserve(p, now, weight, cfg).1.NoAvailableIp?
    ensures var (q, r) := Reserve(p, now, weight, cfg);
            && r.retryAfter >= 0
            && (Reserve(q, t, weight, cfg).1.Granted? <==> t >= now + r.retryAfter)
  {
    var (q, r) := Reserve(p, now, weight, cfg);
    var clients := q.clients;
    EarliestIsLeast(clients, now, weight, cfg);
    GrantedIff(q, t, weight, cfg);
    forall i | 0 <= i < |clients|
      ensures Available(Refresh(clients[i], t, cfg.window), weight, cfg.limit)
              <==> t >= ReadyAt(clients[i], now, weight, cfg)
    {
      AvailableFrom(p.clients[i], now, t, weight, cfg);
    }
  }

  // ---- Runs

  datatype Op = ReserveOp(weight: nat) | BlockOp(index: nat, duration: nat) | ObserveOp(index: nat, observed: nat)

  /** An operation and the clock read inside its step. */
  datatype Event = Event(now: int, op: Op)

  datatype Grant = Grant(at: int, index: nat, weight: nat)

  datatype Ran = Ran(pool: Pool, grants: seq<Grant>)

  predicate InRange(ev: Event, n: nat) {
    match ev.op
    case ReserveOp(w) => true
    case BlockOp(i, d) => i < n
    case ObserveOp(i, o) => i < n
  }

  function StepOf(r: Ran, ev: Event, cfg: Config): (s: Ran)
    requires r.pool.clients != [] && InRange(ev, |r.pool.clients|)
    ensures |s.pool.clients| == |r.pool.clients|
  {
    match ev.op
    case ReserveOp(weight) =>
      var (pool, outcome) := Reserve(r.pool, ev.now, weight, cfg);
      Ran(pool, if outcome.Granted? then r.grants + [Grant(ev.now, outcome.index, weight)] else r.grants)
    case BlockOp(i, d) => r.(pool := Block(r.pool, ev.now, i, d))
    case ObserveOp(i, o) => r.(pool := Observe(r.pool, i, o))
  }

  /** A new dispatcher with `n` source IPs. */
  function Start(n: nat, now: int): Ran {
    Ran(Pool(seq(n, i => IpClient(0, now, None)), 0), [])
  }

  /** Clock reads never go back, and operations name existing clients. */
  ghost predicate WellTimed(n: nat, start: int, events: seq<Event>) {
    && (forall i :: 0 <= i < |events| ==> InRange(events[i], n) && start <= events[i].now)
    && (forall i, j :: 0 <= i < j < |events| ==> events[i].now <= events[j].now)
  }

  function Run(n: nat, start: int, events: seq<Event>, cfg: Config): (r: Ran)
    requires n > 0 && forall i :: 0 <= i < |events| ==> InRange(events[i], n)
    ensures |r.pool.clients| == n
    decreases |events|
  {
    if events == [] then Start(n, start)
    else StepOf(Run(n, start, events[..|events| - 1], cfg), events[|events| - 1], cfg)
  }

  /** Weight granted to client `i` between two instants, both included. */
  function Weight(grants: seq<Grant>, i: nat, lo: int, hi: int): nat
    decreases |grants|
  {
    if grants == [] then 0 else
      var g := grants[|grants| - 1];
      Weight(grants[..|grants| - 1], i, lo, hi) + (if g.index == i && lo <= g.at <= hi then g.weight else 0)
  }

  lemma WeightAppend(grants: seq<Grant>, g: Grant, i: nat, lo: int, hi: int)
    ensures Weight(grants + [g], i, lo, hi)
            == Weight(grants, i, lo, hi) + (if g.index == i && lo <= g.at <= hi then g.weight else 0)
  {
    assert (grants + [g])[..|grants|] == grants;
  }

  lemma {:induction false} WeightSplit(grants: seq<Grant>, i: nat, lo: int, mid: int, hi: int)
    requires lo <= mid <= hi + 1
    ensures Weight(grants, i, lo, hi) == Weight(grants, i, lo, mid - 1) + Weight(grants, i, mid, hi)
    decreases |grants|
  {
    if grants != [] {
      WeightSplit(grants[..|grants| - 1], i, lo, mid, hi);
    }
  }

  lemma {:induction false} WeightMonotone(grants: seq<Grant>, i: nat, lo: int, hi: int, lo': int, hi': int)
    requires lo' <= lo && hi <= hi'
    ensures Weight(grants, i, lo, hi) <= Weight(grants, i, lo', hi')
    decreases |grants|
  {
    if grants != [] {
      WeightMonotone(grants[..|grants| - 1], i, lo, hi, lo', hi');
    }
  }

  lemma {:induction false} WeightAfter(grants: seq<Grant>, i: nat, lo: int, hi: int)
    requires forall k :: 0 <= k < |grants| && grants[k].index == i ==> grants[k].at < lo
    ensures Weight(grants, i, lo, hi) == 0
    decreases |grants|
  {
    if grants != [] {
      WeightAfter(grants[..|grants| - 1], i, lo, hi);
    }
  }

  /** The sliding bound for one client over all intervals of one window length. */
  ghost predicate Bounded(grants: seq<Grant>, i: nat, cfg: Config) {
    forall a: int :: BoundedFrom(grants, i, a, cfg)
  }

  ghost predicate BoundedFrom(grants: seq<Grant>, i: nat, a: int, cfg: Config) {
    Weight(grants, i, a, a + cfg.window) <= 2 * cfg.limit
  }

  /** Every grant to client `i` was made by `now` and before its current window ends. */
  ghost predicate GrantedBy(grants: seq<Grant>, i: nat, now: int, windowEnd: int) {
    forall k :: 0 <= k < |grants| && grants[k].index == i ==> grants[k].at <= now && grants[k].at < windowEnd
  }

  lemma GrantedAppend(grants: seq<Grant>, g: Grant, i: nat, now: int, windowEnd: int)
    requires GrantedBy(grants, i, now, windowEnd) && (g.index == i ==> g.at <= now && g.at < windowEnd)
    ensures GrantedBy(grants + [g], i, now, windowEnd)
  {}

  /**
   For client `i` at clock `now`: the current window holds what was granted since it began, never more than the
   limit, and the window length before it held no more than the limit either.
   */
  ghost predicate QuotaOk(c: IpClient, grants: seq<Grant>, i: nat, now: int, cfg: Config) {
    && c.windowStartedAt <= now
    && GrantedBy(grants, i, now, c.windowStartedAt + cfg.window)
    && Weight(grants, i, c.windowStartedAt, now) <= c.usedWeight
    && Weight(grants, i, c.windowStartedAt, now) <= cfg.limit
    && Weight(grants, i, c.windowStartedAt - cfg.window, c.windowStartedAt - 1) <= cfg.limit
    && Bounded(grants, i, cfg)
  }

  /** Time passing changes nothing. */
  lemma LaterClock(c: IpClient, grants: seq<Grant>, i: nat, now: int, later: int, cfg: Config)
    requires QuotaOk(c, grants, i, now, cfg) && now <= later
    ensures QuotaOk(c, grants, i, later, cfg)
  {
    WeightSplit(grants, i, c.windowStartedAt, now + 1, later);
    WeightAfter(grants, i, now + 1, later);
  }

  lemma RefreshKeepsQuota(c: IpClient, grants: seq<Grant>, i: nat, now: int, cfg: Config)
    requires QuotaOk(c, grants, i, now, cfg) && cfg.Valid()
    ensures QuotaOk(Refresh(c, now, cfg.window), grants, i, now, cfg)
    ensures now < Refresh(c, now, cfg.window).windowStartedAt + cfg.window
  {
    if now - c.windowStartedAt >= cfg.window {
      WeightAfter(grants, i, now, now);
      WeightMonotone(grants, i, now - cfg.window, now - 1, c.windowStartedAt, now);
    }
  }

  /** An interval that began before the current window holds at most one limit from before it. */
  lemma BeforeWindow(c: IpClient, grants: seq<Grant>, i: nat, now: int, cfg: Config, a: int)
    requires QuotaOk(c, grants, i, now, cfg) && now <= a + cfg.window
    ensures Weight(grants, i, a, c.windowStartedAt - 1) <= cfg.limit
  {
    var s := c.windowStartedAt;
    hide Weight;
    WeightMonotone(grants, i, a, s - 1, s - cfg.window, s - 1);
  }

  /** What the current window holds of an interval is all of it from the window's start on. */
  lemma InsideWindow(c: IpClient, grants: seq<Grant>, i: nat, now: int, cfg: Config, from: int, to: int)
    requires QuotaOk(c, grants, i, now, cfg) && c.windowStartedAt <= from <= now <= to
    ensures Weight(grants, i, from, to) <= Weight(grants, i, c.windowStartedAt, now)
  {
    WeightAfter(grants, i, now + 1, to);
    hide Weight;
    WeightSplit(grants, i, from, now + 1, to);
    WeightMonotone(grants, i, from, now, c.windowStartedAt, now);
  }

  /** Whatever an interval around `now` holds, the current grant still fits under twice the limit. */
  lemma RoomLeft(c: IpClient, grants: seq<Grant>, i: nat, now: int, weight: nat, cfg: Config, a: int)
    requires QuotaOk(c, grants, i, now, cfg) && a <= now <= a + cfg.window
    requires Weight(grants, i, c.windowStartedAt, now) + weight <= cfg.limit
    ensures Weight(grants, i, a, a + cfg.window) + weight <= 2 * cfg.limit
  {
    hide Weight;
    var s := c.windowStartedAt;
    var to := a + cfg.window;
    if s <= a {
      InsideWindow(c, grants, i, now, cfg, a, to);
    } else {
      BeforeWindow(c, grants, i, now, cfg, a);
      WeightSplit(grants, i, a, s, to);
      InsideWindow(c, grants, i, now, cfg, s, to);
    }
  }

  lemma GrantBounded(c: IpClient, grants: seq<Grant>, i: nat, now: int, weight: nat, cfg: Config, a: int)
    requires QuotaOk(c, grants, i, now, cfg) && now < c.windowStartedAt + cfg.window
    requires Weight(grants, i, c.windowStartedAt, now) + weight <= cfg.limit
    ensures BoundedFrom(grants + [Grant(now, i, weight)], i, a, cfg)
  {
    hide Weight;
    WeightAppend(grants, Grant(now, i, weight), i, a, a + cfg.window);
    assert BoundedFrom(grants, i, a, cfg);
    if a <= now <= a + cfg.window {
      RoomLeft(c, grants, i, now, weight, cfg, a);
    }
  }

  /** A grant inside the current window keeps every bound, as long as used weight does not saturate. */
  lemma GrantKeepsQuota(c: IpClient, grants: seq<Grant>, i: nat, now: int, weight: nat, cfg: Config)
    requires QuotaOk(c, grants, i, now, cfg) && cfg.Valid() && cfg.limit < U32_MAX
    requires now < c.windowStartedAt + cfg.window && Available(c, weight, cfg.limit)
    ensures QuotaOk(c.(usedWeight := SaturatingAdd(c.usedWeight, weight)), grants + [Grant(now, i, weight)], i, now,
                    cfg)
  {
    hide Weight, BoundedFrom, GrantedBy;
    var g := Grant(now, i, weight);
    var s := c.windowStartedAt;
    GrantedAppend(grants, g, i, now, s + cfg.window);
    WeightAppend(grants, g, i, s, now);
    WeightAppend(grants, g, i, s - cfg.window, s - 1);
    forall a: int ensures BoundedFrom(grants + [g], i, a, cfg) {
      GrantBounded(c, grants, i, now, weight, cfg, a);
    }
  }

  /** Grants to another client do not count. */
  lemma OtherGrant(c: IpClient, grants: seq<Grant>, i: nat, now: int, g: Grant, cfg: Config)
    requires QuotaOk(c, grants, i, now, cfg) && g.index != i
    ensures QuotaOk(c, grants + [g], i, now, cfg)
  {
    hide Weight, GrantedBy;
    GrantedAppend(grants, g, i, now, c.windowStartedAt + cfg.window);
    WeightAppend(grants, g, i, c.windowStartedAt, now);
    WeightAppend(grants, g, i, c.windowStartedAt - cfg.window, c.windowStartedAt - 1);
    forall a: int ensures BoundedFrom(grants + [g], i, a, cfg) {
      WeightAppend(grants, g, i, a, a + cfg.window);
      assert BoundedFrom(grants, i, a, cfg);
    }
  }

  ghost predicate PoolOk(r: Ran, now: int, cfg: Config) {
    forall i :: 0 <= i < |r.pool.clients| ==> QuotaOk(r.pool.clients[i], r.grants, i, now, cfg)
  }

  lemma ReserveKeepsQuota(r: Ran, now: int, weight: nat, cfg: Config)
    requires r.pool.clients != [] && PoolOk(r, now, cfg) && cfg.Valid() && cfg.limit < U32_MAX
    ensures PoolOk(StepOf(r, Event(now, ReserveOp(weight)), cfg), now, cfg)
  {
    var s := StepOf(r, Event(now, ReserveOp(weight)), cfg);
    var clients := RefreshAll(r.pool.clients, now, cfg.window);
    var best := Best(clients, r.pool.nextTieBreak % |clients|, |clients|, weight, cfg.limit);
    BestIsLeastUsed(clients, r.pool.nextTieBreak % |clients|, |clients|, weight, cfg.limit);
    forall i | 0 <= i < |s.pool.clients| ensures QuotaOk(s.pool.clients[i], s.grants, i, now, cfg) {
      RefreshKeepsQuota(r.pool.clients[i], r.grants, i, now, cfg);
      if best.Some? {
        if best.value == i {
          GrantKeepsQuota(clients[i], r.grants, i, now, weight, cfg);
        } else {
          OtherGrant(clients[i], r.grants, i, now, Grant(now, best.value, weight), cfg);
        }
      }
    }
  }

  /** A later block or a larger used weight does not loosen a quota. */
  lemma StricterKeepsQuota(c: IpClient, d: IpClient, grants: seq<Grant>, i: nat, now: int, cfg: Config)
    requires QuotaOk(c, grants, i, now, cfg) && d.windowStartedAt == c.windowStartedAt && d.usedWeight >= c.usedWeight
    ensures QuotaOk(d, grants, i, now, cfg)
  {
    hide Weight, GrantedBy, Bounded;
  }

  lemma StepKeepsQuota(r: Ran, ev: Event, cfg: Config)
    requires r.pool.clients != [] && InRange(ev, |r.pool.clients|)
    requires PoolOk(r, ev.now, cfg) && cfg.Valid() && cfg.limit < U32_MAX
    ensures PoolOk(StepOf(r, ev, cfg), ev.now, cfg)
  {
    if ev.op.ReserveOp? {
      ReserveKeepsQuota(r, ev.now, ev.op.weight, cfg);
    } else {
      hide QuotaOk, Reserve;
      var s := StepOf(r, ev, cfg);
      forall i | 0 <= i < |s.pool.clients| ensures QuotaOk(s.pool.clients[i], s.grants, i, ev.now, cfg) {
        StricterKeepsQuota(r.pool.clients[i], s.pool.clients[i], r.grants, i, ev.now, cfg);
      }
    }
  }

  ghost function LastClock(start: int, events: seq<Event>): int {
    if events == [] then start else events[|events| - 1].now
  }

  lemma {:induction false} RunKeepsQuota(n: nat, start: int, events: seq<Event>, cfg: Config)
    requires n > 0 && WellTimed(n, start, events) && cfg.Valid() && cfg.limit < U32_MAX
    ensures PoolOk(Run(n, start, events, cfg), LastClock(start, events), cfg)
    decreases |events|
  {
    if events == [] {
      forall i | 0 <= i < n ensures QuotaOk(Start(n, start).pool.clients[i], [], i, start, cfg) {
        assert Start(n, start).pool.clients[i] == IpClient(0, start, None);
        assert forall a: int :: BoundedFrom([], i, a, cfg);
      }
    } else {
      var init := events[..|events| - 1];
      var ev := events[|events| - 1];
      assert forall i :: 0 <= i < |init| ==> init[i] == events[i];
      RunKeepsQuota(n, start, init, cfg);
      var r := Run(n, start, init, cfg);
      forall i | 0 <= i < n ensures QuotaOk(r.pool.clients[i], r.grants, i, ev.now, cfg) {
        LaterClock(r.pool.clients[i], r.grants, i, LastClock(start, init), ev.now, cfg);
      }
      StepKeepsQuota(r, ev, cfg);
    }
  }

  /**
   Over any run: a source IP is granted at most twice the limit in any interval of one window length, and at
   most the limit since its current local window began.
   */
  lemma SlidingRateBound(n: nat, start: int, events: seq<Event>, cfg: Config, i: nat, a: int)
    requires n > 0 && WellTimed(n, start, events) && cfg.Valid() && cfg.limit < U32_MAX && i < n
    ensures var r := Run(n, start, events, cfg);
            && Weight(r.grants, i, a, a + cfg.window) <= 2 * cfg.limit
            && Weight(r.grants, i, r.pool.clients[i].windowStartedAt, LastClock(start, events)) <= cfg.limit
  {
    RunKeepsQuota(n, start, events, cfg);
    hide Run, WellTimed;
    var r := Run(n, start, events, cfg);
    assert QuotaOk(r.pool.clients[i], r.grants, i, LastClock(start, events), cfg);
    QuotaBounds(r.pool.clients[i], r.grants, i, LastClock(start, events), cfg, a);
  }

  lemma QuotaBounds(c: IpClient, grants: seq<Grant>, i: nat, now: int, cfg: Config, a: int)
    requires QuotaOk(c, grants, i, now, cfg)
    ensures Weight(grants, i, a, a + cfg.window) <= 2 * cfg.limit
    ensures Weight(grants, i, c.windowStartedAt, now) <= cfg.limit
  {
    hide Weight, GrantedBy;
    assert BoundedFrom(grants, i, a, cfg);
  }

  const FULL := Event(0, ReserveOp(U32_MAX))

  /** The same full-weight request `k` times at one instant. */
  function Burst(k: nat): seq<Event> {
    if k == 0 then [] else Burst(k - 1) + [FULL]
  }

  lemma FullWeightGranted(r: Ran, cfg: Config)
    requires cfg.Valid() && cfg.limit == U32_MAX && |r.pool.clients| == 1
    requires r.pool.clients[0].windowStartedAt == 0 && r.pool.clients[0].blockedUntil.None?
    ensures var s := StepOf(r, FULL, cfg);
            && s.grants == r.grants + [Grant(0, 0, U32_MAX)]
            && s.pool.clients[0].windowStartedAt == 0 && s.pool.clients[0].blockedUntil.None?
  {
    var clients := RefreshAll(r.pool.clients, 0, cfg.window);
    assert Best(clients, r.pool.nextTieBreak % 1, 0, U32_MAX, U32_MAX) == None;
    assert Best(clients, r.pool.nextTieBreak % 1, 1, U32_MAX, U32_MAX) == Some(0);
  }

  lemma {:induction false} BurstShape(k: nat)
    ensures |Burst(k)| == k && forall i :: 0 <= i < k ==> Burst(k)[i] == FULL
    ensures WellTimed(1, 0, Burst(k))
    decreases k
  {
    if k > 0 {
      BurstShape(k - 1);
    }
  }

  lemma RunAppend(n: nat, start: int, events: seq<Event>, ev: Event, cfg: Config)
    requires n > 0 && (forall i :: 0 <= i < |events| ==> InRange(events[i], n)) && InRange(ev, n)
    ensures Run(n, start, events + [ev], cfg) == StepOf(Run(n, start, events, cfg), ev, cfg)
  {
    assert (events + [ev])[..|events|] == events;
  }

  /** All `k` requests so far were granted, and the client is still in its first window. */
  ghost predicate AllGranted(r: Ran, k: nat, cfg: Config) {
    && |r.pool.clients| == 1
    && r.pool.clients[0].windowStartedAt == 0 && r.pool.clients[0].blockedUntil.None?
    && Weight(r.grants, 0, 0, cfg.window) == k * U32_MAX
  }

  lemma OneMoreGranted(r: Ran, k: nat, cfg: Config)
    requires cfg.Valid() && cfg.limit == U32_MAX && AllGranted(r, k, cfg)
    ensures AllGranted(StepOf(r, FULL, cfg), k + 1, cfg)
  {
    FullWeightGranted(r, cfg);
    WeightAppend(r.grants, Grant(0, 0, U32_MAX), 0, 0, cfg.window);
    hide StepOf, Weight;
    assert (k + 1) * U32_MAX == k * U32_MAX + U32_MAX;
  }

  /** With the largest limit the used weight saturates: every burst on one IP is granted in full. */
  lemma {:induction false} BurstIsGranted(k: nat, cfg: Config)
    requires cfg.Valid() && cfg.limit == U32_MAX
    ensures WellTimed(1, 0, Burst(k)) && AllGranted(Run(1, 0, Burst(k), cfg), k, cfg)
    decreases k
  {
    BurstShape(k);
    hide WellTimed;
    if k > 0 {
      BurstShape(k - 1);
      BurstIsGranted(k - 1, cfg);
      hide AllGranted, StepOf, Run;
      OneMoreGranted(Run(1, 0, Burst(k - 1), cfg), k - 1, cfg);
      RunAppend(1, 0, Burst(k - 1), FULL, cfg);
    }
  }

  /** One run keeps one IP within twice the limit in every interval of one window length. */
  ghost predicate HoldsOf(n: nat, start: int, events: seq<Event>, i: nat, cfg: Config) {
    n > 0 && WellTimed(n, start, events) && i < n ==> Bounded(Run(n, start, events, cfg).grants, i, cfg)
  }

  /** Every run keeps every IP within the bound. */
  ghost predicate AlwaysBounded(cfg: Config) {
    forall n: nat, start: int, events: seq<Event>, i: nat :: HoldsOf(n, start, events, i, cfg)
  }

  lemma BelowLargestIsBounded(n: nat, start: int, events: seq<Event>, cfg: Config, i: nat)
    requires n > 0 && WellTimed(n, start, events) && cfg.Valid() && cfg.limit < U32_MAX && i < n
    ensures Bounded(Run(n, start, events, cfg).grants, i, cfg)
  {
    RunKeepsQuota(n, start, events, cfg);
    hide Run, Bounded;
    var r := Run(n, start, events, cfg);
    assert QuotaOk(r.pool.clients[i], r.grants, i, LastClock(start, events), cfg);
  }

  /** Three full-weight requests at one instant are too many, and all are granted. */
  lemma BurstBreaksBound(cfg: Config)
    requires cfg.Valid() && cfg.limit == U32_MAX
    ensures WellTimed(1, 0, Burst(3)) && !Bounded(Run(1, 0, Burst(3), cfg).grants, 0, cfg)
  {
    BurstIsGranted(3, cfg);
    hide Run, Burst, Weight;
    assert !BoundedFrom(Run(1, 0, Burst(3), cfg).grants, 0, 0, cfg);
  }

  /** The bound holds of a configuration exactly when its limit is below the largest 32-bit weight. */
  lemma BoundedIffBelowLargest(cfg: Config)
    requires cfg.Valid()
    ensures AlwaysBounded(cfg) <==> cfg.limit < U32_MAX
  {
    hide Run, WellTimed, Bounded, Burst;
    if cfg.limit < U32_MAX {
      forall n: nat, start: int, events: seq<Event>, i: nat | n > 0 && WellTimed(n, start, events) && i < n
        ensures HoldsOf(n, start, events, i, cfg)
      {
        BelowLargestIsBounded(n, start, events, cfg, i);
      }
    } else {
      BurstBreaksBound(cfg);
      assert !HoldsOf(1, 0, Burst(3), 0, cfg);
    }
  }

  // ---- Blocks

  /** When the latest block of client `i` ends, if it was ever blocked. */
  function LastBlock(events: seq<Event>, i: nat): Option<int>
    decreases |events|
  {
    if events == [] then None else
      var ev := events[|events| - 1];
      if ev.op.BlockOp? && ev.op.index == i then Some(ev.now + ev.op.duration)
      else LastBlock(events[..|events| - 1], i)
  }

  /** The client shows its latest block until that has run out. */
  ghost predicate BlockOk(c: IpClient, last: Option<int>, now: int) {
    c.blockedUntil == last || (c.blockedUntil.None? && last.Some? && last.value <= now)
  }

  /** One step, at a clock no earlier than the steps before it. */
  lemma StepShowsBlock(r: Ran, ev: Event, cfg: Config, i: nat, last: Option<int>, now: int)
    requires r.pool.clients != [] && InRange(ev, |r.pool.clients|) && i < |r.pool.clients| && now <= ev.now
    requires BlockOk(r.pool.clients[i], last, now)
    ensures BlockOk(StepOf(r, ev, cfg).pool.clients[i],
                    if ev.op.BlockOp? && ev.op.index == i then Some(ev.now + ev.op.duration) else last, ev.now)
  {}

  lemma {:induction false} RunShowsBlocks(n: nat, start: int, events: seq<Event>, cfg: Config, i: nat)
    requires n > 0 && WellTimed(n, start, events) && i < n
    ensures BlockOk(Run(n, start, events, cfg).pool.clients[i], LastBlock(events, i), LastClock(start, events))
    decreases |events|
  {
    if events != [] {
      var init := events[..|events| - 1];
      assert forall k :: 0 <= k < |init| ==> init[k] == events[k];
      RunShowsBlocks(n, start, init, cfg, i);
      assert LastClock(start, init) <= events[|events| - 1].now;
      hide StepOf, BlockOk;
      StepShowsBlock(Run(n, start, init, cfg), events[|events| - 1], cfg, i, LastBlock(init, i),
                     LastClock(start, init));
    }
  }

  /** Whatever happened before, a reservation is only granted on an IP whose latest block has run out. */
  lemma NothingGrantedWhileBlocked(n: nat, start: int, events: seq<Event>, cfg: Config, now: int, weight: nat)
    requires n > 0 && WellTimed(n, start, events) && LastClock(start, events) <= now
    ensures var r := Reserve(Run(n, start, events, cfg).pool, now, weight, cfg).1;
            r.Granted? && LastBlock(events, r.index).Some? ==> LastBlock(events, r.index).value <= now
  {
    var pool := Run(n, start, events, cfg).pool;
    var r := Reserve(pool, now, weight, cfg).1;
    if r.Granted? {
      RunShowsBlocks(n, start, events, cfg, r.index);
      var clients := RefreshAll(pool.clients, now, cfg.window);
      BestIsLeastUsed(clients, pool.nextTieBreak % n, n, weight, cfg.limit);
    }
  }

  /** A shorter block replaces a longer one, so an IP can be used again before an earlier block would have ended. */
  lemma LaterBlockCanShorten()
    ensures var cfg := Config(10, 60);
            var events := [Event(0, BlockOp(0, 120)), Event(1, BlockOp(0, 10))];
            WellTimed(1, 0, events) && Reserve(Run(1, 0, events, cfg).pool, 11, 1, cfg).1 == Granted(0)
  {
    var cfg := Config(10, 60);
    var events := [Event(0, BlockOp(0, 120)), Event(1, BlockOp(0, 10))];
    assert events[..1] == [events[0]] && [events[0]][..0] == [];
    var p0 := Run(1, 0, [], cfg).pool;
    assert Run(1, 0, [events[0]], cfg).pool == Block(p0, 0, 0, 120);
    var pool := Run(1, 0, events, cfg).pool;
    assert pool == Block(Block(p0, 0, 0, 120), 1, 0, 10);
    var clients := RefreshAll(pool.clients, 11, 60);
    assert clients[0] == IpClient(0, 0, None);
    assert Best(clients, 0, 0, 1, 10) == None && Best(clients, 0, 1, 1, 10) == Some(0);
  }

  // ---- Whole blocks

  predicate Blocks(ev: Event, i: nat) { ev.op.BlockOp? && ev.op.index == i }

  function EndOf(ev: Event): int
    requires ev.op.BlockOp?
  {
    ev.now + ev.op.duration
  }

  /** A moment of a run: after `r` steps, with the clock at `t` and no later than the next step. */
  ghost predicate Moment(start: int, events: seq<Event>, r: nat, t: int) {
    && r <= |events| && LastClock(start, events[..r]) <= t
    && (r < |events| ==> t <= events[r].now)
  }

  /** Client `i` cannot be chosen by a reservation made at clock `t` after `r` steps. */
  ghost predicate OutOfUse(n: nat, start: int, events: seq<Event>, cfg: Config, i: nat, r: nat, t: int)
    requires n > 0 && WellTimed(n, start, events) && i < n && r <= |events|
  {
    WellTimedPrefix(n, start, events, r);
    Refresh(Run(n, start, events[..r], cfg).pool.clients[i], t, cfg.window).blockedUntil.Some?
  }

  lemma WellTimedPrefix(n: nat, start: int, events: seq<Event>, r: nat)
    requires WellTimed(n, start, events) && r <= |events|
    ensures WellTimed(n, start, events[..r])
  {
    assert forall k :: 0 <= k < r ==> events[..r][k] == events[k];
  }

  /** Block `j` keeps its IP out of use at every moment from when it is imposed until it ends. */
  ghost predicate Holds(n: nat, start: int, events: seq<Event>, cfg: Config, j: nat)
    requires n > 0 && WellTimed(n, start, events) && j < |events| && events[j].op.BlockOp?
  {
    forall r: nat, t: int {:trigger Moment(start, events, r, t)} ::
      j < r && Moment(start, events, r, t) && t < EndOf(events[j]) ==>
        OutOfUse(n, start, events, cfg, events[j].op.index, r, t)
  }

  /** A later block of the same IP replaces block `k` before `k` has run out. */
  ghost predicate ReplacedInTime(events: seq<Event>, k: nat)
    requires k < |events| && events[k].op.BlockOp?
  {
    exists m :: k < m < |events| && Blocks(events[m], events[k].op.index) && events[m].now < EndOf(events[k])
  }

  /** No later block of the same IP cuts block `j` short: each that ends sooner is replaced before it runs out. */
  ghost predicate NotCutShort(events: seq<Event>, j: nat)
    requires j < |events| && events[j].op.BlockOp?
  {
    forall k :: j < k < |events| && Blocks(events[k], events[j].op.index) && EndOf(events[k]) < EndOf(events[j]) ==>
      ReplacedInTime(events, k)
  }

  /** The latest block of client `i` is one of the events, and none after it blocks `i`. */
  lemma {:induction false} LatestBlock(events: seq<Event>, i: nat, j: nat) returns (k: nat)
    requires j < |events| && Blocks(events[j], i)
    ensures j <= k < |events| && Blocks(events[k], i) && LastBlock(events, i) == Some(EndOf(events[k]))
    ensures forall m :: k < m < |events| ==> !Blocks(events[m], i)
    decreases |events|
  {
    var last := |events| - 1;
    if Blocks(events[last], i) {
      k := last;
    } else {
      k := LatestBlock(events[..last], i, j);
      assert forall m :: 0 <= m < last ==> events[..last][m] == events[m];
    }
  }

  /** At any moment a client is out of use iff its latest block has not run out. */
  lemma OutOfUseIff(n: nat, start: int, events: seq<Event>, cfg: Config, i: nat, r: nat, t: int)
    requires n > 0 && WellTimed(n, start, events) && i < n && Moment(start, events, r, t)
    ensures OutOfUse(n, start, events, cfg, i, r, t)
            <==> LastBlock(events[..r], i).Some? && t < LastBlock(events[..r], i).value
  {
    WellTimedPrefix(n, start, events, r);
    RunShowsBlocks(n, start, events[..r], cfg, i);
    hide Run, LastBlock, WellTimed;
  }

  lemma HoldsWhenNotCutShort(n: nat, start: int, events: seq<Event>, cfg: Config, j: nat, r: nat, t: int)
    requires n > 0 && WellTimed(n, start, events) && j < |events| && events[j].op.BlockOp?
    requires NotCutShort(events, j) && j < r && Moment(start, events, r, t) && t < EndOf(events[j])
    ensures OutOfUse(n, start, events, cfg, events[j].op.index, r, t)
  {
    var i := events[j].op.index;
    OutOfUseIff(n, start, events, cfg, i, r, t);
    var k := LatestBlock(events[..r], i, j);
    hide OutOfUse, LastBlock;
    if j < k {
      assert forall m :: k < m < r ==> events[..r][m] == events[m];
      if EndOf(events[k]) < EndOf(events[j]) {
        ReplacedLater(start, events, k, i, r, t);
      }
    }
  }

  /** A block replaced in time has not run out at any moment before its replacement. */
  lemma ReplacedLater(start: int, events: seq<Event>, k: nat, i: nat, r: nat, t: int)
    requires forall a, b :: 0 <= a < b < |events| ==> events[a].now <= events[b].now
    requires k < r && Moment(start, events, r, t) && Blocks(events[k], i) && ReplacedInTime(events, k)
    requires forall m :: k < m < r ==> !Blocks(events[m], i)
    ensures t < EndOf(events[k])
  {
    var m :| k < m < |events| && Blocks(events[m], i) && events[m].now < EndOf(events[k]);
    assert r <= m;
  }

  /** The first later event that blocks client `i`, or the end of the run. */
  lemma NextBlock(events: seq<Event>, i: nat, k: nat) returns (r: nat)
    requires k < |events|
    ensures k < r <= |events| && (r < |events| ==> Blocks(events[r], i))
    ensures forall m :: k < m < r ==> !Blocks(events[m], i)
  {
    r := k + 1;
    while r < |events| && !Blocks(events[r], i)
      invariant k < r <= |events| && forall m :: k < m < r ==> !Blocks(events[m], i)
    {
      r := r + 1;
    }
  }

  /** The moment block `k` runs out without having been replaced. */
  lemma GapMoment(start: int, events: seq<Event>, k: nat, i: nat) returns (r: nat)
    requires (forall a, b :: 0 <= a < b < |events| ==> events[a].now <= events[b].now)
    requires k < |events| && Blocks(events[k], i) && !ReplacedInTime(events, k)
    ensures k < r && Moment(start, events, r, EndOf(events[k]))
    ensures forall m :: k < m < r ==> !Blocks(events[m], i)
  {
    var stop := NextBlock(events, i, k);
    r := k + 1;
    while r < stop && events[r].now < EndOf(events[k])
      invariant k < r <= stop && events[r - 1].now <= EndOf(events[k])
    {
      r := r + 1;
    }
    assert r < |events| ==> EndOf(events[k]) <= events[r].now;
    assert LastClock(start, events[..r]) == events[r - 1].now;
  }

  /**
   A block keeps its IP out of use at every moment until it ends exactly when every later block of that IP that ends
   sooner is itself replaced before it runs out.
   */
  lemma BlockHoldsIff(n: nat, start: int, events: seq<Event>, cfg: Config, j: nat)
    requires n > 0 && WellTimed(n, start, events) && j < |events| && events[j].op.BlockOp?
    ensures Holds(n, start, events, cfg, j) <==> NotCutShort(events, j)
  {
    var i := events[j].op.index;
    if NotCutShort(events, j) {
      forall r: nat, t: int | j < r && Moment(start, events, r, t) && t < EndOf(events[j])
        ensures OutOfUse(n, start, events, cfg, i, r, t)
      {
        HoldsWhenNotCutShort(n, start, events, cfg, j, r, t);
      }
    } else {
      var k :| j < k < |events| && Blocks(events[k], i) && EndOf(events[k]) < EndOf(events[j])
               && !ReplacedInTime(events, k);
      var r := GapMoment(start, events, k, i);
      var t := EndOf(events[k]);
      OutOfUseIff(n, start, events, cfg, i, r, t);
      var last := LatestBlock(events[..r], i, k);
      assert last == k;
      assert !OutOfUse(n, start, events, cfg, i, r, t);
    }
  }

  /** In any run, no reservation is granted inside a block that no later block cuts short. */
  lemma NoGrantInsideBlock(n: nat, start: int, events: seq<Event>, cfg: Config, j: nat, r: nat)
    requires n > 0 && WellTimed(n, start, events) && j < r < |events|
    requires events[j].op.BlockOp? && NotCutShort(events, j)
    requires events[r].op.ReserveOp? && events[r].now < EndOf(events[j])
    ensures WellTimed(n, start, events[..r])
    ensures Reserve(Run(n, start, events[..r], cfg).pool, events[r].now, events[r].op.weight, cfg).1
            != Granted(events[j].op.index)
  {
    WellTimedPrefix(n, start, events, r);
    assert LastClock(start, events[..r]) == events[r - 1].now;
    HoldsWhenNotCutShort(n, start, events, cfg, j, r, events[r].now);
    var pool := Run(n, start, events[..r], cfg).pool;
    hide Run, WellTimed, NotCutShort;
    GrantedIsAvailable(pool, events[r].now, events[r].op.weight, cfg);
  }

  /** No block of client `i` ends sooner than an earlier one. */
  ghost predicate BlocksOnlyExtend(events: seq<Event>, i: nat) {
    forall j, k :: 0 <= j < k < |events| && Blocks(events[j], i) && Blocks(events[k], i) ==>
      EndOf(events[j]) <= EndOf(events[k])
  }

  /** When later blocks of an IP never end sooner, no grant falls inside any of its blocks. */
  lemma GrantsRespectEveryBlock(
    n: nat, start: int, events: seq<Event>, cfg: Config, now: int, weight: nat, j: nat)
    requires n > 0 && WellTimed(n, start, events) && LastClock(start, events) <= now
    requires j < |events| && events[j].op.BlockOp?
    requires BlocksOnlyExtend(events, events[j].op.index)
    ensures Reserve(Run(n, start, events, cfg).pool, now, weight, cfg).1 == Granted(events[j].op.index) ==>
              EndOf(events[j]) <= now
  {
    var all := events + [Event(now, ReserveOp(weight))];
    assert all[..|events|] == events;
    assert LastClock(start, events) == events[|events| - 1].now;
    assert WellTimed(n, start, all) && NotCutShort(all, j);
    hide Run, WellTimed, NotCutShort, BlocksOnlyExtend;
    if now < EndOf(events[j]) {
      NoGrantInsideBlock(n, start, all, cfg, j, |events|);
    }
  }

  lemma GrantedIsAvailable(p: Pool, now: int, weight: nat, cfg: Config)
    requires p.clients != []
    ensures var r := Reserve(p, now, weight, cfg).1;
            r.Granted? ==> Available(Refresh(p.clients[r.index], now, cfg.window), weight, cfg.limit)
  {
    var clients := RefreshAll(p.clients, now, cfg.window);
    BestIsLeastUsed(clients, p.nextTieBreak % |clients|, |clients|, weight, cfg.limit);
  }

  // ---- The dispatcher as the shared object it is

  class Dispatcher {
    const cfg: Config
    var clients: seq<IpClient>
    var nextTieBreak: nat

    function View(): Pool
      reads this
    {
      Pool(clients, nextTieBreak)
    }

    constructor (cfg: Config, sources: nat, now: int)
      requires cfg.Valid() && sources > 0
      ensures this.cfg == cfg && View() == Start(sources, now).pool
    {
      this.cfg := cfg;
      clients := seq(sources, i => IpClient(0, now, None));
      nextTieBreak := 0;
    }

    /** Refreshes every client in place. */
    method RefreshClients(now: int)
      modifies this`clients
      ensures clients == RefreshAll(old(clients), now, cfg.window)
    {
      var i := 0;
      while i < |clients|
        invariant i <= |clients| == |old(clients)|
        invariant forall k :: 0 <= k < |clients| ==>
                    clients[k] == if k < i then Refresh(old(clients)[k], now, cfg.window) else old(clients)[k]
      {
        clients := clients[i := Refresh(clients[i], now, cfg.window)];
        i := i + 1;
      }
    }

    method SelectClient(weight: nat) returns (best: Option<nat>)
      requires clients != []
      ensures best == Best(clients, nextTieBreak % |clients|, |clients|, weight, cfg.limit)
    {
      var start := nextTieBreak % |clients|;
      best := None;
      var n := 0;
      while n < |clients|
        invariant n <= |clients| && best == Best(clients, start, n, weight, cfg.limit)
      {
        var i := Rotated(start, n, |clients|);
        if Available(clients[i], weight, cfg.limit)
           && (best.None? || clients[i].usedWeight < clients[best.value].usedWeight) {
          best := Some(i);
        }
        n := n + 1;
      }
    }

    method WaitTime(now: int, weight: nat) returns (wait: int)
      requires clients != []
      ensures wait == EarliestReady(clients, now, weight, cfg) - now
    {
      var i := |clients| - 1;
      var ready := ReadyAt(clients[i], now, weight, cfg);
      while i > 0
        invariant 0 <= i < |clients| && ready == EarliestReady(clients[i..], now, weight, cfg)
      {
        i := i - 1;
        assert clients[i..][1..] == clients[i + 1..];
        var other := ReadyAt(clients[i], now, weight, cfg);
        if other <= ready {
          ready := other;
        }
      }
      assert clients[0..] == clients;
      wait := ready - now;
    }

    method ReserveClient(now: int, weight: nat) returns (r: Reservation)
      requires clients != []
      modifies this
      ensures (View(), r) == Reserve(old(View()), now, weight, cfg)
    {
      RefreshClients(now);
      var best := SelectClient(weight);
      match best
      case None =>
        var wait := WaitTime(now, weight);
        return NoAvailableIp(wait);
      case Some(i) =>
        nextTieBreak := (i + 1) % |clients|;
        clients := clients[i := clients[i].(usedWeight := SaturatingAdd(clients[i].usedWeight, weight))];
        return Granted(i);
    }

    method BlockClient(now: int, index: nat, duration: nat)
      requires index < |clients|
      modifies this`clients
      ensures View() == Block(old(View()), now, index, duration)
    {
      clients := clients[index := clients[index].(blockedUntil := Some(now + duration))];
    }

    /** Responses may arrive out of order, so the estimate never moves back within a window. */
    method UpdateObservedWeight(index: nat, observed: nat)
      requires index < |clients|
      modifies this`clients
      ensures View() == Observe(old(View()), index, observed)
      ensures clients[index].usedWeight >= old(clients[index].usedWeight)
    {
      var used := clients[index].usedWeight;
      clients := clients[index := clients[index].(usedWeight := if used >= observed then used else observed)];
    }
  }
}
