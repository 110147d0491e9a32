/** The rotation shares equal requests evenly: nothing blocked, the source IPs are used strictly in turn. */
module RestFairness {
  import opened Prelude
  import opened RestQuota

  /** The choice stands at some rotation offset; whoever is available before it is used more. */
  lemma {:induction false} BestIsFirst(clients: seq<IpClient>, start: nat, n: nat, weight: nat, limit: nat)
    returns (k: nat)
    requires clients != [] && n <= |clients| && Best(clients, start, n, weight, limit).Some?
    ensures var best := Best(clients, start, n, weight, limit).value;
            && k < n && Rotated(start, k, |clients|) == best
            && forall j: nat :: j < k && Available(clients[Rotated(start, j, |clients|)], weight, limit) ==>
                 clients[best].usedWeight < clients[Rotated(start, j, |clients|)].usedWeight
    decreases n
  {
    BestIsLeastUsed(clients, start, n - 1, weight, limit);
    if Best(clients, start, n, weight, limit) == Best(clients, start, n - 1, weight, limit) {
      k := BestIsFirst(clients, start, n - 1, weight, limit);
    } else {
      k := n - 1;
    }
  }

  /** A client at the head of the rotation that is available and used by no one less is chosen. */
  lemma HeadIsChosen(clients: seq<IpClient>, start: nat, weight: nat, limit: nat)
    requires start < |clients| && Available(clients[start], weight, limit)
    requires forall i :: 0 <= i < |clients| ==> clients[start].usedWeight <= clients[i].usedWeight
    ensures Best(clients, start, |clients|, weight, limit) == Some(start)
  {
    ChosenIsLeastUsed(clients, start, weight, limit, start);
    var k := BestIsFirst(clients, start, |clients|, weight, limit);
    HeadOfRotation(start, |clients|);
    hide Best, Rotated, Available;
    var best := Best(clients, start, |clients|, weight, limit).value;
    assert clients[start].usedWeight <= clients[best].usedWeight;
    assert k == 0;
  }

  lemma HeadOfRotation(start: nat, len: nat)
    requires start < len
    ensures Rotated(start, 0, len) == start
  {
    Quotient(0, start, len);
  }

  /** Used weight of client `i` after `m` turns of weight `w` over `n` clients. */
  function Share(i: nat, m: nat, w: nat, n: nat): nat
    requires n > 0
  {
    w * (m / n + (if i < m % n then 1 else 0))
  }

  /** `m` equal requests have gone round, all in the first window. */
  ghost predicate Balanced(p: Pool, m: nat, w: nat, n: nat, start: int) {
    && n > 0 && |p.clients| == n && p.nextTieBreak == m % n
    && forall i :: 0 <= i < n ==> p.clients[i] == IpClient(Share(i, m, w, n), start, None)
  }

  lemma NextTurn(m: nat, n: nat)
    requires n > 0
    ensures if m % n + 1 < n then (m + 1) / n == m / n && (m + 1) % n == m % n + 1
            else (m + 1) / n == m / n + 1 && (m + 1) % n == 0
  {
    var q, r := m / n, m % n;
    assert m == q * n + r;
    if r + 1 < n {
      Quotient(q, r + 1, n);
    } else {
      assert (q + 1) * n == q * n + n;
      Quotient(q + 1, 0, n);
    }
  }

  lemma Quotient(q: nat, r: nat, n: nat)
    requires r < n
    ensures (q * n + r) / n == q && (q * n + r) % n == r
  {
    var x := q * n + r;
    var d := x / n - q;
    assert x == n * (x / n) + x % n;
    assert n * (x / n) == n * q + n * d;
    Remainder(n, d, r - x % n);
  }

  lemma Remainder(n: int, d: int, gap: int)
    requires n > 0 && n * d == gap && 0 - n < gap < n
    ensures d == 0
  {
    assert n * -d == -gap;
    if d >= 1 {
      Times(n, 1, d);
      assert false;
    } else if d <= -1 {
      Times(n, 1, -d);
      assert false;
    }
  }

  lemma TurnsLeft(m: nat, n: nat, q: nat)
    requires n > 0 && m < n * q
    ensures m / n + 1 <= q
  {
    assert m == n * (m / n) + m % n;
    if m / n >= q {
      Times(n, q, m / n);
      assert false;
    }
  }

  lemma ShareNext(i: nat, m: nat, w: nat, n: nat)
    requires n > 0 && i < n
    ensures Share(i, m + 1, w, n) == Share(i, m, w, n) + (if i == m % n then w else 0)
    ensures Share(m % n, m, w, n) <= Share(i, m, w, n)
    ensures Share(m % n, m, w, n) == w * (m / n)
  {
    NextTurn(m, n);
    Times(w, m / n, m / n + 1);
    assert w * (m / n + 1) == w * (m / n) + w;
  }

  /** One more request goes to the IP whose turn it is. */
  lemma TakesTurn(p: Pool, m: nat, w: nat, n: nat, q: nat, start: int, now: int, cfg: Config)
    requires Balanced(p, m, w, n, start) && start <= now < start + cfg.window
    requires m < n * q && w * q <= cfg.limit <= U32_MAX
    ensures var (r, outcome) := Reserve(p, now, w, cfg);
            outcome == Granted(m % n) && Balanced(r, m + 1, w, n, start)
  {
    var c := m % n;
    var clients := RefreshAll(p.clients, now, cfg.window);
    assert clients == p.clients;
    TurnsLeft(m, n, q);
    Times(w, m / n + 1, q);
    assert w * (m / n + 1) == w * (m / n) + w;
    forall i | 0 <= i < n ensures clients[c].usedWeight <= clients[i].usedWeight {
      ShareNext(i, m, w, n);
    }
    ShareNext(c, m, w, n);
    assert Available(clients[c], w, cfg.limit);
    HeadIsChosen(clients, c, w, cfg.limit);
    NextTurn(m, n);
    Wraps(c, n);
    var r := Reserve(p, now, w, cfg).0;
    hide Share, Best, Refresh;
    forall i | 0 <= i < n ensures r.clients[i] == IpClient(Share(i, m + 1, w, n), start, None) {
      ShareNext(i, m, w, n);
    }
  }

  lemma Wraps(c: nat, n: nat)
    requires c < n
    ensures c % n == c && (c + 1) % n == if c + 1 < n then c + 1 else 0
  {
    Quotient(0, c, n);
    if c + 1 < n {
      Quotient(0, c + 1, n);
    } else {
      Quotient(1, 0, n);
    }
  }

  /** One request of weight `w` at each clock reading. */
  function Requests(clocks: seq<int>, w: nat): (r: seq<Event>)
    ensures |r| == |clocks| && forall k :: 0 <= k < |r| ==> r[k] == Event(clocks[k], ReserveOp(w))
  {
    seq(|clocks|, k requires 0 <= k < |clocks| => Event(clocks[k], ReserveOp(w)))
  }

  /**
   Equal requests are spread evenly: inside the first window, while every IP has room for `q` of them, the `k`-th
   of `n * q` requests is granted on IP `k % n`.
   */
  lemma {:induction false} RoundRobin(n: nat, start: int, clocks: seq<int>, w: nat, q: nat, cfg: Config)
    requires n > 0 && |clocks| <= n * q && w * q <= cfg.limit <= U32_MAX
    requires forall k :: 0 <= k < |clocks| ==> start <= clocks[k] < start + cfg.window
    ensures var r := Run(n, start, Requests(clocks, w), cfg);
            && |r.grants| == |clocks| && Balanced(r.pool, |clocks|, w, n, start)
            && forall k :: 0 <= k < |clocks| ==> r.grants[k] == Grant(clocks[k], k % n, w)
    decreases |clocks|
  {
    if clocks == [] {
      NoTurns(n, start, w, cfg);
    } else {
      var m := |clocks| - 1;
      var init := clocks[..m];
      var ev := Event(clocks[m], ReserveOp(w));
      RequestsAppend(clocks, w);
      hide Run, Balanced, Reserve, Requests;
      RoundRobin(n, start, init, w, q, cfg);
      var r := Run(n, start, Requests(init, w), cfg);
      TakesTurn(r.pool, m, w, n, q, start, clocks[m], cfg);
      RunAppend(n, start, Requests(init, w), ev, cfg);
      Appended(clocks, r.grants, Grant(clocks[m], m % n, w), n, w);
    }
  }

  lemma NoTurns(n: nat, start: int, w: nat, cfg: Config)
    requires n > 0
    ensures var r := Run(n, start, Requests([], w), cfg); r.grants == [] && Balanced(r.pool, 0, w, n, start)
  {
    Quotient(0, 0, n);
    assert w * 0 == 0;
  }

  lemma RequestsAppend(clocks: seq<int>, w: nat)
    requires clocks != []
    ensures Requests(clocks, w)
            == Requests(clocks[..|clocks| - 1], w) + [Event(clocks[|clocks| - 1], ReserveOp(w))]
  {}

  lemma Appended(clocks: seq<int>, grants: seq<Grant>, g: Grant, n: nat, w: nat)
    requires n > 0 && |grants| + 1 == |clocks| && g == Grant(clocks[|grants|], |grants| % n, w)
    requires forall k :: 0 <= k < |grants| ==> grants[k] == Grant(clocks[..|grants|][k], k % n, w)
    ensures forall k :: 0 <= k < |clocks| ==> (grants + [g])[k] == Grant(clocks[k], k % n, w)
  {}
}
