/**
 A dispatch is meant to retry on a different source IP. Whatever pool it starts from it does so exactly when each
 retry comes before every earlier pause has run out, or the earlier attempt was told its IP is over the limit and no
 window could have restarted since.
 */
module RestRetries {
  import opened Prelude
  import opened RestQuota
  import opened RestFairness
  import opened RestDispatch

  /** The IPs a dispatch sent through, attempt by attempt. */
  function UsedIps(d: Dispatch): seq<nat> {
    Indices(d.tries)
    + (if d.outcome.Some? && LastIndex(d.outcome.value).Some? then [LastIndex(d.outcome.value).value] else [])
  }

  function Indices(tries: seq<Try>): (r: seq<nat>)
    ensures |r| == |tries| && forall k :: 0 <= k < |r| ==> r[k] == tries[k].index
  {
    seq(|tries|, k requires 0 <= k < |tries| => tries[k].index)
  }

  ghost predicate NoReuse(d: Dispatch) {
    var used := UsedIps(d);
    forall j, k :: 0 <= j < k < |used| ==> used[j] != used[k]
  }

  predicate Limited(reply: Reply) { reply.status.Some? && IsRateLimit(reply.status.value) }

  function EndOfPause(reply: Reply, policy: Policy): int { reply.doneAt + Pause(reply, policy) }

  /** These answers lead to a further attempt `k` wherever it finds an IP. */
  ghost predicate Retries(replies: seq<Reply>, policy: Policy, k: nat) {
    k < |replies| && k < policy.MaxAttempts() && forall i :: 0 <= i < k ==> Limited(replies[i])
  }

  /** Every retry comes before any earlier pause has run out. */
  ghost predicate PausesOutlast(replies: seq<Reply>, policy: Policy) {
    forall j, k :: 0 <= j < k && Retries(replies, policy, k) ==> replies[k].sentAt < EndOfPause(replies[j], policy)
  }

  /** The answer reported more used weight than the limit lets an IP have. */
  predicate Overused(reply: Reply, policy: Policy) {
    reply.observed.Some? && SaturatingAdd(reply.observed.value, 0) > policy.quota.limit
  }

  /** When the window of an IP began, after `m` attempts have refreshed it; it began at `s` before the first. */
  function WindowStart(s: int, replies: seq<Reply>, window: nat, m: nat): int
    requires m <= |replies|
  {
    if m == 0 then s else
      var w, now := WindowStart(s, replies, window, m - 1), replies[m - 1].sentAt;
      if now - w >= window then now else w
  }

  /** A window that began at `s` restarts after attempt `j` and by the time attempt `k` reserves. */
  ghost predicate Restarts(s: int, replies: seq<Reply>, window: nat, j: nat, k: nat)
    requires j < k < |replies|
  {
    WindowStart(s, replies, window, j + 1) != WindowStart(s, replies, window, k + 1)
  }

  /** The latest start, no later than the first attempt, of a window that has run its length at attempt `i`. */
  function Candidate(replies: seq<Reply>, window: nat, i: nat): int
    requires i < |replies|
  {
    if replies[i].sentAt - window <= replies[0].sentAt then replies[i].sentAt - window else replies[0].sentAt
  }

  ghost predicate MayRestart(replies: seq<Reply>, window: nat, j: nat, k: nat)
    requires j < k < |replies|
  {
    exists i :: 0 <= i <= k && Restarts(Candidate(replies, window, i), replies, window, j, k)
  }

  /** By attempt `k`, attempt `j` no longer keeps its IP out of reach. */
  ghost predicate Reusable(replies: seq<Reply>, policy: Policy, j: nat, k: nat)
    requires j < k < |replies|
  {
    && replies[k].sentAt >= EndOfPause(replies[j], policy)
    && (Overused(replies[j], policy) ==> MayRestart(replies, policy.quota.window, j, k))
  }

  /** No retry can reach the IP of an earlier attempt. */
  ghost predicate KeepsOut(replies: seq<Reply>, policy: Policy) {
    forall j, k :: 0 <= j < k && Retries(replies, policy, k) ==> !Reusable(replies, policy, j, k)
  }

  // ---- When windows restart

  lemma {:induction false} WindowsMoveOn(s: int, replies: seq<Reply>, window: nat, a: nat, b: nat)
    requires a <= b <= |replies|
    ensures WindowStart(s, replies, window, a) <= WindowStart(s, replies, window, b)
    decreases b
  {
    if a < b {
      WindowsMoveOn(s, replies, window, a, b - 1);
    }
  }

  /** A window that is the same after attempts `j` and `k` was not restarted by attempt `k`. */
  lemma SameWindow(s: int, replies: seq<Reply>, window: nat, j: nat, k: nat)
    requires j < k < |replies| && window > 0 && !Restarts(s, replies, window, j, k)
    ensures WindowStart(s, replies, window, j + 1) == WindowStart(s, replies, window, k)
    ensures replies[k].sentAt - WindowStart(s, replies, window, k) < window
  {
    WindowsMoveOn(s, replies, window, j + 1, k);
    WindowsMoveOn(s, replies, window, k, k + 1);
  }

  /** A window that began at `s` is first restarted by attempt `i`. */
  ghost predicate FirstRestart(s: int, replies: seq<Reply>, window: nat, i: nat)
    requires i < |replies|
  {
    WindowStart(s, replies, window, i) == s && replies[i].sentAt - s >= window
  }

  lemma {:induction false} FindRestart(s: int, replies: seq<Reply>, window: nat, k: nat) returns (i: nat)
    requires k <= |replies| && WindowStart(s, replies, window, k) != s
    ensures i < k && FirstRestart(s, replies, window, i)
  {
    if WindowStart(s, replies, window, k - 1) == s {
      i := k - 1;
    } else {
      i := FindRestart(s, replies, window, k - 1);
    }
  }

  lemma {:induction false} Unmoved(s: int, replies: seq<Reply>, window: nat, c: int, i: nat)
    requires i <= |replies| && s <= c && window > 0 && WindowStart(s, replies, window, i) == s
    ensures WindowStart(c, replies, window, i) == c
  {
    if i > 0 {
      WindowsMoveOn(s, replies, window, 0, i - 1);
      WindowsMoveOn(s, replies, window, i - 1, i);
      Unmoved(s, replies, window, c, i - 1);
    }
  }

  /** Windows that restarted together stay together. */
  lemma {:induction false} Together(s: int, c: int, replies: seq<Reply>, window: nat, i: nat, m: nat)
    requires i <= m <= |replies| && WindowStart(s, replies, window, i) == WindowStart(c, replies, window, i)
    ensures WindowStart(s, replies, window, m) == WindowStart(c, replies, window, m)
    decreases m
  {
    if i < m {
      Together(s, c, replies, window, i, m - 1);
    }
  }

  /** If any window that began by the first attempt restarts, one of the candidates does. */
  lemma RestartsAsCandidate(s: int, replies: seq<Reply>, window: nat, j: nat, k: nat)
    requires j < k < |replies| && window > 0 && s <= replies[0].sentAt && Restarts(s, replies, window, j, k)
    ensures MayRestart(replies, window, j, k)
  {
    WindowsMoveOn(s, replies, window, 0, j + 1);
    WindowsMoveOn(s, replies, window, j + 1, k + 1);
    var i := FindRestart(s, replies, window, k + 1);
    var c := Candidate(replies, window, i);
    Unmoved(s, replies, window, c, i);
    assert WindowStart(c, replies, window, i + 1) == replies[i].sentAt == WindowStart(s, replies, window, i + 1);
    Together(s, c, replies, window, i + 1, k + 1);
    if i <= j {
      Together(s, c, replies, window, i + 1, j + 1);
    } else {
      WindowsMoveOn(c, replies, window, i + 1, k + 1);
      WindowsMoveOn(c, replies, window, j + 1, i);
    }
    assert Restarts(c, replies, window, j, k);
  }

  // ---- Retries that are kept out use other IPs, whatever the pool

  /** Attempt by attempt, the tries are the rate-limited replies. */
  ghost predicate TriesOf(d: Dispatch, replies: seq<Reply>, policy: Policy) {
    && |d.tries| <= |replies|
    && (forall k :: 0 <= k < |d.tries| ==>
          && Limited(replies[k]) && d.tries[k].sentAt == replies[k].sentAt
          && d.tries[k].until == EndOfPause(replies[k], policy))
  }

  lemma AttemptTries(d: Dispatch, weight: nat, done: seq<Reply>, reply: Reply, policy: Policy)
    requires d.pool.clients != [] && d.outcome.None? && |d.tries| == |done| && TriesOf(d, done, policy)
    ensures var r := Attempt(d, weight, reply, policy);
            TriesOf(r, done + [reply], policy) && (r.outcome.None? ==> |r.tries| == |done| + 1)
  {
    hide Reserve, Observe, Block;
  }

  lemma {:induction false} AttemptsTries(
    d: Dispatch, weight: nat, done: seq<Reply>, replies: seq<Reply>, policy: Policy)
    requires d.pool.clients != [] && TriesOf(d, done, policy) && (d.outcome.None? ==> |d.tries| == |done|)
    ensures TriesOf(Attempts(d, weight, replies, policy), done + replies, policy)
    decreases |replies|
  {
    if d.outcome.None? && replies != [] {
      AttemptTries(d, weight, done, replies[0], policy);
      hide Attempt, EndOfPause;
      AttemptsTries(Attempt(d, weight, replies[0], policy), weight, done + [replies[0]], replies[1..], policy);
      RepliesJoin(done, replies);
    }
  }

  /** Every IP used after the first was reached by a retry. */
  lemma UsedByRetry(d: Dispatch, replies: seq<Reply>, policy: Policy, k: nat)
    requires TriesOf(d, replies, policy) && Within(d, policy) && LastAvoids(d, replies) && k < |UsedIps(d)|
    ensures Retries(replies, policy, k)
  {
    hide EndOfPause, Limited, Avoids;
  }

  lemma LongPausesSuffice(p: Pool, weight: nat, replies: seq<Reply>, policy: Policy)
    requires p.clients != [] && Timed(replies) && PausesOutlast(replies, policy)
    ensures NoReuse(Dispatched(p, weight, replies, policy))
  {
    DispatchFacts(p, weight, replies, policy);
    var d := Dispatched(p, weight, replies, policy);
    hide Dispatched, TriesOf, Within, LastAvoids, AllAvoid, UsedIps, EndOfPause, Retries;
    forall j, k | 0 <= j < k < |UsedIps(d)| ensures UsedIps(d)[j] != UsedIps(d)[k] {
      UsedByRetry(d, replies, policy, k);
      RetryExists(replies, policy, k);
      UsedApart(d, replies, policy, j, k);
    }
  }

  lemma DispatchFacts(p: Pool, weight: nat, replies: seq<Reply>, policy: Policy)
    requires p.clients != [] && Timed(replies)
    ensures var d := Dispatched(p, weight, replies, policy);
            AllAvoid(d.tries) && LastAvoids(d, replies) && TriesOf(d, replies, policy) && Within(d, policy)
  {
    RetriesUseOtherIps(p, weight, replies, policy);
    DispatchTries(p, weight, replies, policy);
    AttemptsBounded(Dispatch(p, [], None), weight, replies, policy);
    hide Attempts;
    assert Within(Dispatched(p, weight, replies, policy), policy);
  }

  lemma RetryExists(replies: seq<Reply>, policy: Policy, k: nat)
    requires Retries(replies, policy, k)
    ensures k < |replies|
  {}

  lemma DispatchTries(p: Pool, weight: nat, replies: seq<Reply>, policy: Policy)
    requires p.clients != []
    ensures TriesOf(Dispatched(p, weight, replies, policy), replies, policy)
  {
    AttemptsTries(Dispatch(p, [], None), weight, [], replies, policy);
    assert [] + replies == replies;
  }

  lemma UsedApart(d: Dispatch, replies: seq<Reply>, policy: Policy, j: nat, k: nat)
    requires TriesOf(d, replies, policy) && AllAvoid(d.tries) && LastAvoids(d, replies)
    requires j < k < |UsedIps(d)| && k < |replies| && replies[k].sentAt < EndOfPause(replies[j], policy)
    ensures UsedIps(d)[j] != UsedIps(d)[k]
  {
    hide EndOfPause;
    if k < |d.tries| {
      assert Avoids(d.tries[..k], d.tries[k].index, d.tries[k].sentAt);
      assert d.tries[..k][j] == d.tries[j];
    }
  }

  /** A dispatch makes at most the configured number of attempts, also while replies are still to come. */
  lemma {:induction false} AttemptsBounded(d: Dispatch, weight: nat, replies: seq<Reply>, policy: Policy)
    requires d.pool.clients != [] && Within(d, policy)
    ensures Within(Attempts(d, weight, replies, policy), policy)
    decreases |replies|
  {
    if d.outcome.None? && replies != [] {
      AttemptBounded(d, weight, replies[0], policy);
      AttemptsBounded(Attempt(d, weight, replies[0], policy), weight, replies[1..], policy);
    }
  }

  ghost predicate Within(d: Dispatch, policy: Policy) {
    && |d.tries| <= policy.MaxAttempts()
    && (d.outcome.None? || LastIndex(d.outcome.value).Some? ==> |d.tries| < policy.MaxAttempts())
  }

  lemma AttemptBounded(d: Dispatch, weight: nat, reply: Reply, policy: Policy)
    requires d.pool.clients != [] && d.outcome.None? && Within(d, policy)
    ensures Within(Attempt(d, weight, reply, policy), policy)
  {
    hide Reserve, Observe, Block, Pause;
  }

  // ---- An IP over the limit is not used again in the same window

  /** No request fits on the client before its window restarts. */
  predicate Full(c: IpClient, limit: nat) { SaturatingAdd(c.usedWeight, 0) > limit }

  /** `starts` are the windows of the pool the dispatch began with. */
  ghost predicate Spent(d: Dispatch, starts: seq<int>, replies: seq<Reply>, policy: Policy) {
    var m, window := |d.tries|, policy.quota.window;
    && m <= |replies| && |starts| == |d.pool.clients|
    && (forall i :: 0 <= i < |starts| ==>
          d.pool.clients[i].windowStartedAt == WindowStart(starts[i], replies, window, m))
    && (forall j :: 0 <= j < m ==> d.tries[j].index < |starts|)
    && (forall j: nat :: j < m ==> SpentBy(d, starts, replies, policy, j, m))
  }

  /** After `m` attempts the IP of attempt `j` is full when it was over the limit and its window is still the same. */
  ghost predicate SpentBy(
    d: Dispatch, starts: seq<int>, replies: seq<Reply>, policy: Policy, j: nat, m: nat)
    requires j < m <= |replies| && j < |d.tries| && d.tries[j].index < |starts| == |d.pool.clients|
  {
    var i, window := d.tries[j].index, policy.quota.window;
    Overused(replies[j], policy)
    && WindowStart(starts[i], replies, window, j + 1) == WindowStart(starts[i], replies, window, m) ==>
      Full(d.pool.clients[i], policy.quota.limit)
  }

  /** No IP over the limit was used again while its window was the same. */
  ghost predicate Dodged(used: seq<nat>, starts: seq<int>, replies: seq<Reply>, policy: Policy) {
    && |used| <= |replies|
    && (forall j :: 0 <= j < |used| ==> used[j] < |starts|)
    && (forall j, k :: 0 <= j < k < |used| && Kept(starts[used[j]], replies, policy, j, k) ==> used[j] != used[k])
  }

  /** Attempt `j` was told its IP is over the limit, whose window is still the same at attempt `k`. */
  ghost predicate Kept(s: int, replies: seq<Reply>, policy: Policy, j: nat, k: nat)
    requires j < k < |replies|
  {
    Overused(replies[j], policy) && !Restarts(s, replies, policy.quota.window, j, k)
  }

  lemma DodgedOnce(used: seq<nat>, i: nat, starts: seq<int>, replies: seq<Reply>, policy: Policy)
    requires Dodged(used, starts, replies, policy) && |used| < |replies| && i < |starts|
    requires forall j :: 0 <= j < |used| && Kept(starts[used[j]], replies, policy, j, |used|) ==> used[j] != i
    ensures Dodged(used + [i], starts, replies, policy)
  {
    hide Kept;
    var more := used + [i];
    assert forall j :: 0 <= j < |used| ==> more[j] == used[j];
  }

  /** Reserving restarts windows that have run their length, and picks no client that stays full. */
  lemma ReserveWindows(p: Pool, now: int, weight: nat, cfg: Config)
    requires p.clients != []
    ensures var (q, r) := Reserve(p, now, weight, cfg);
            forall i :: 0 <= i < |p.clients| ==>
              && q.clients[i].windowStartedAt
                 == (if now - p.clients[i].windowStartedAt >= cfg.window then now else p.clients[i].windowStartedAt)
              && (Full(p.clients[i], cfg.limit) && now - p.clients[i].windowStartedAt < cfg.window ==>
                    r != Granted(i) && Full(q.clients[i], cfg.limit))
  {
    var clients := RefreshAll(p.clients, now, cfg.window);
    BestIsLeastUsed(clients, p.nextTieBreak % |clients|, |clients|, weight, cfg.limit);
    hide Best;
  }

  /** The rest of an attempt leaves windows alone and full clients full. */
  lemma AttemptWindows(d: Dispatch, weight: nat, reply: Reply, policy: Policy)
    requires d.pool.clients != []
    ensures var q := Reserve(d.pool, reply.sentAt, weight, policy.quota).0;
            var r := Attempt(d, weight, reply, policy).pool;
            forall i :: 0 <= i < |q.clients| ==>
              && r.clients[i].windowStartedAt == q.clients[i].windowStartedAt
              && (Full(q.clients[i], policy.quota.limit) ==> Full(r.clients[i], policy.quota.limit))
  {
    hide Reserve, Pause;
  }

  /** The IP an attempt was limited on is full when the answer reports it over the limit. */
  lemma AttemptFills(d: Dispatch, weight: nat, reply: Reply, policy: Policy)
    requires d.pool.clients != [] && Overused(reply, policy)
    ensures var r := Attempt(d, weight, reply, policy);
            |r.tries| > |d.tries| ==>
              Full(r.pool.clients[r.tries[|d.tries|].index], policy.quota.limit)
  {
    hide Reserve, Pause;
  }

  /** An attempt adds the IP it reserved, if any, to those used. */
  lemma AttemptUses(d: Dispatch, weight: nat, reply: Reply, policy: Policy)
    requires d.pool.clients != [] && d.outcome.None?
    ensures var i := Used(d, weight, reply, policy);
            && UsedIps(Attempt(d, weight, reply, policy)) == UsedIps(d) + (if i.Some? then [i.value] else [])
            && (i.Some? ==> i.value < |d.pool.clients|)
    ensures UsedIps(d) == Indices(d.tries)
    ensures var r := Attempt(d, weight, reply, policy);
            && (r.tries == d.tries || (|r.tries| == |d.tries| + 1 && r.tries[..|d.tries|] == d.tries
                                       && r.tries[|d.tries|].index < |d.pool.clients|))
            && (r.outcome.None? ==> |r.tries| == |d.tries| + 1)
  {
    hide Reserve, Observe, Block, Pause;
  }

  /** An attempt against what earlier ones left behind. */
  lemma AttemptSpares(d: Dispatch, weight: nat, starts: seq<int>, replies: seq<Reply>, policy: Policy, j: nat)
    requires d.pool.clients != [] && d.outcome.None? && policy.quota.Valid() && Spent(d, starts, replies, policy)
    requires j < |d.tries| < |replies| && Kept(starts[d.tries[j].index], replies, policy, j, |d.tries|)
    ensures var i, m := d.tries[j].index, |d.tries|;
            && Used(d, weight, replies[m], policy) != Some(i)
            && Full(Attempt(d, weight, replies[m], policy).pool.clients[i], policy.quota.limit)
  {
    var i, m := d.tries[j].index, |d.tries|;
    assert SpentBy(d, starts, replies, policy, j, m);
    SameWindow(starts[i], replies, policy.quota.window, j, m);
    ReserveWindows(d.pool, replies[m].sentAt, weight, policy.quota);
    AttemptWindows(d, weight, replies[m], policy);
    hide Reserve, Attempt, WindowStart, Full;
  }

  lemma AttemptDodges(d: Dispatch, weight: nat, starts: seq<int>, replies: seq<Reply>, policy: Policy)
    requires d.pool.clients != [] && d.outcome.None? && policy.quota.Valid() && |d.tries| < |replies|
    requires Spent(d, starts, replies, policy) && Dodged(UsedIps(d), starts, replies, policy)
    ensures Dodged(UsedIps(Attempt(d, weight, replies[|d.tries|], policy)), starts, replies, policy)
  {
    var m := |d.tries|;
    var i := Used(d, weight, replies[m], policy);
    AttemptUses(d, weight, replies[m], policy);
    hide Attempt, Used, UsedIps, Kept, Dodged;
    if i.Some? {
      forall j | 0 <= j < m && Kept(starts[d.tries[j].index], replies, policy, j, m)
        ensures d.tries[j].index != i.value
      {
        AttemptSpares(d, weight, starts, replies, policy, j);
      }
      hide Spent;
      DodgedOnce(UsedIps(d), i.value, starts, replies, policy);
    }
  }

  lemma AttemptSpends(d: Dispatch, weight: nat, starts: seq<int>, replies: seq<Reply>, policy: Policy)
    requires d.pool.clients != [] && d.outcome.None? && policy.quota.Valid() && |d.tries| < |replies|
    requires Spent(d, starts, replies, policy)
    ensures var r := Attempt(d, weight, replies[|d.tries|], policy);
            r.outcome.None? ==> Spent(r, starts, replies, policy)
  {
    var m := |d.tries|;
    var r := Attempt(d, weight, replies[m], policy);
    AttemptUses(d, weight, replies[m], policy);
    if r.outcome.None? {
      ReserveWindows(d.pool, replies[m].sentAt, weight, policy.quota);
      AttemptWindows(d, weight, replies[m], policy);
      hide Attempt, Reserve, Full;
      assert forall j :: 0 <= j < m ==> r.tries[j] == d.tries[j];
      var next := |r.tries|;
      forall j: nat | j < next ensures SpentBy(r, starts, replies, policy, j, next) {
        if j < m {
          if Kept(starts[d.tries[j].index], replies, policy, j, m) {
            AttemptSpares(d, weight, starts, replies, policy, j);
          }
        } else if Overused(replies[m], policy) {
          AttemptFills(d, weight, replies[m], policy);
        }
      }
    }
  }

  lemma {:induction false} AttemptsDodge(
    d: Dispatch, weight: nat, starts: seq<int>, replies: seq<Reply>, policy: Policy)
    requires d.pool.clients != [] && policy.quota.Valid() && d.outcome.None? && |d.tries| <= |replies|
    requires Spent(d, starts, replies, policy) && Dodged(UsedIps(d), starts, replies, policy)
    ensures Dodged(UsedIps(Attempts(d, weight, replies[|d.tries|..], policy)), starts, replies, policy)
    decreases |replies| - |d.tries|
  {
    var m := |d.tries|;
    if m < |replies| {
      AttemptDodges(d, weight, starts, replies, policy);
      AttemptSpends(d, weight, starts, replies, policy);
      AttemptUses(d, weight, replies[m], policy);
      assert replies[m..][1..] == replies[m + 1..];
      hide Attempt, Spent, Dodged, UsedIps;
      var r := Attempt(d, weight, replies[m], policy);
      if r.outcome.None? {
        AttemptsDodge(r, weight, starts, replies, policy);
      }
    }
  }

  function Starts(p: Pool): (r: seq<int>)
    ensures |r| == |p.clients| && forall i :: 0 <= i < |r| ==> r[i] == p.clients[i].windowStartedAt
  {
    seq(|p.clients|, i requires 0 <= i < |p.clients| => p.clients[i].windowStartedAt)
  }

  lemma DispatchDodges(p: Pool, weight: nat, replies: seq<Reply>, policy: Policy)
    requires p.clients != [] && policy.quota.Valid()
    ensures Dodged(UsedIps(Dispatched(p, weight, replies, policy)), Starts(p), replies, policy)
  {
    if weight <= policy.quota.limit {
      assert replies[0..] == replies;
      AttemptsDodge(Dispatch(p, [], None), weight, Starts(p), replies, policy);
    }
  }

  /** No window of the pool began after the first attempt reserved. */
  ghost predicate StartedBefore(p: Pool, replies: seq<Reply>) {
    replies != [] ==> forall i :: 0 <= i < |p.clients| ==> p.clients[i].windowStartedAt <= replies[0].sentAt
  }

  /** Answers that keep every retry out spread the attempts from every pool, for every weight. */
  lemma KeptOutSpreads(p: Pool, weight: nat, replies: seq<Reply>, policy: Policy)
    requires p.clients != [] && StartedBefore(p, replies) && policy.quota.Valid() && Timed(replies)
    requires KeepsOut(replies, policy)
    ensures NoReuse(Dispatched(p, weight, replies, policy))
  {
    DispatchFacts(p, weight, replies, policy);
    DispatchDodges(p, weight, replies, policy);
    var d := Dispatched(p, weight, replies, policy);
    hide Dispatched, TriesOf, Within, LastAvoids, AllAvoid, UsedIps, EndOfPause, Retries, Overused, Restarts;
    hide MayRestart;
    forall j, k | 0 <= j < k < |UsedIps(d)| ensures UsedIps(d)[j] != UsedIps(d)[k] {
      UsedByRetry(d, replies, policy, k);
      RetryExists(replies, policy, k);
      assert !Reusable(replies, policy, j, k);
      if replies[k].sentAt < EndOfPause(replies[j], policy) {
        UsedApart(d, replies, policy, j, k);
      } else {
        assert j < |UsedIps(d)|;
        var s := Starts(p)[UsedIps(d)[j]];
        if Restarts(s, replies, policy.quota.window, j, k) {
          RestartsAsCandidate(s, replies, policy.quota.window, j, k);
        }
      }
    }
  }

  // ---- A retry that is not kept out is caught by a new dispatcher

  /** After `m` rate-limited attempts without weight over `n` IPs, new at `s`: the first `m` have been used, in turn. */
  ghost predicate Turned(d: Dispatch, s: int, replies: seq<Reply>, policy: Policy, n: nat) {
    var m := |d.tries|;
    && m <= n == |d.pool.clients| && m <= |replies| && d.outcome.None?
    && d.pool.nextTieBreak == (if m < n then m else 0)
    && (forall i :: 0 <= i < m ==> d.tries[i].index == i)
    && (forall i :: 0 <= i < n ==> TurnOf(d.pool.clients[i], s, replies, policy, i, m))
  }

  /** After `m` attempts client `i` shows its pause and, until its window restarts, what attempt `i` observed. */
  ghost predicate TurnOf(c: IpClient, s: int, replies: seq<Reply>, policy: Policy, i: nat, m: nat)
    requires m <= |replies|
  {
    var window := policy.quota.window;
    && c.windowStartedAt == WindowStart(s, replies, window, m)
    && (c.blockedUntil.None? || (i < m && c.blockedUntil.value == EndOfPause(replies[i], policy)))
    && (i < m && !Overused(replies[i], policy) ==> !Full(c, policy.quota.limit))
    && (i >= m || WindowStart(s, replies, window, i + 1) != c.windowStartedAt ==> c.usedWeight == 0)
  }

  /** The client as attempt `m` finds it. */
  ghost predicate TurnComes(c: IpClient, s: int, replies: seq<Reply>, policy: Policy, i: nat, m: nat)
    requires m < |replies|
  {
    var window := policy.quota.window;
    && c.windowStartedAt == WindowStart(s, replies, window, m + 1)
    && (c.blockedUntil.None? || (i < m && c.blockedUntil.value == EndOfPause(replies[i], policy) > replies[m].sentAt))
    && (i < m && !Overused(replies[i], policy) ==> !Full(c, policy.quota.limit))
    && (i >= m || WindowStart(s, replies, window, i + 1) != c.windowStartedAt ==> c.usedWeight == 0)
  }

  lemma TurnRefreshed(c: IpClient, s: int, replies: seq<Reply>, policy: Policy, i: nat, m: nat)
    requires m < |replies| && TurnOf(c, s, replies, policy, i, m) && policy.quota.Valid()
    ensures TurnComes(Refresh(c, replies[m].sentAt, policy.quota.window), s, replies, policy, i, m)
  {
    hide EndOfPause;
  }

  lemma TurnsRefreshed(d: Dispatch, s: int, replies: seq<Reply>, policy: Policy, n: nat)
    requires Turned(d, s, replies, policy, n) && |d.tries| < |replies| && policy.quota.Valid()
    ensures var clients := RefreshAll(d.pool.clients, replies[|d.tries|].sentAt, policy.quota.window);
            forall i :: 0 <= i < n ==> TurnComes(clients[i], s, replies, policy, i, |d.tries|)
  {
    var m := |d.tries|;
    var clients := RefreshAll(d.pool.clients, replies[m].sentAt, policy.quota.window);
    hide TurnOf, TurnComes, Refresh;
    forall i | 0 <= i < n ensures TurnComes(clients[i], s, replies, policy, i, m) {
      TurnRefreshed(d.pool.clients[i], s, replies, policy, i, m);
    }
  }

  lemma NextTurnTaken(d: Dispatch, s: int, replies: seq<Reply>, policy: Policy, n: nat)
    requires Turned(d, s, replies, policy, n) && |d.tries| < n && |d.tries| < |replies| && policy.quota.Valid()
    ensures var now := replies[|d.tries|].sentAt;
            var clients := RefreshAll(d.pool.clients, now, policy.quota.window);
            && Reserve(d.pool, now, 0, policy.quota)
               == (Pool(clients, if |d.tries| + 1 < n then |d.tries| + 1 else 0), Granted(|d.tries|))
  {
    var m, now := |d.tries|, replies[|d.tries|].sentAt;
    TurnsRefreshed(d, s, replies, policy, n);
    var clients := RefreshAll(d.pool.clients, now, policy.quota.window);
    assert TurnComes(clients[m], s, replies, policy, m, m);
    assert Available(clients[m], 0, policy.quota.limit);
    Wraps(m, n);
    HeadIsChosen(clients, m, 0, policy.quota.limit);
    hide Best, Refresh, TurnComes, TurnOf;
    assert clients[m].(usedWeight := SaturatingAdd(clients[m].usedWeight, 0)) == clients[m];
    assert clients[m := clients[m]] == clients;
  }

  /** A client that was not limited by attempt `m`, and the one that was. */
  lemma TurnGoes(c: IpClient, s: int, replies: seq<Reply>, policy: Policy, i: nat, m: nat)
    requires m < |replies| && TurnComes(c, s, replies, policy, i, m)
    ensures i != m ==> TurnOf(c, s, replies, policy, i, m + 1)
    ensures var observed := if replies[m].observed.Some? then replies[m].observed.value else 0;
            var c1 := c.(usedWeight := observed, blockedUntil := Some(EndOfPause(replies[m], policy)));
            i == m ==> TurnOf(c1, s, replies, policy, i, m + 1)
  {
    hide EndOfPause;
  }

  lemma AttemptTurns(d: Dispatch, s: int, replies: seq<Reply>, policy: Policy, n: nat)
    requires Turned(d, s, replies, policy, n) && |d.tries| < n && |d.tries| < |replies| && policy.quota.Valid()
    requires |d.tries| + 1 < policy.MaxAttempts() && Limited(replies[|d.tries|])
    ensures var r := Attempt(d, 0, replies[|d.tries|], policy);
            Turned(r, s, replies, policy, n) && |r.tries| == |d.tries| + 1
  {
    var m, reply := |d.tries|, replies[|d.tries|];
    NextTurnTaken(d, s, replies, policy, n);
    TurnsRefreshed(d, s, replies, policy, n);
    var clients := RefreshAll(d.pool.clients, reply.sentAt, policy.quota.window);
    var r := Attempt(d, 0, reply, policy);
    var observed := if reply.observed.Some? then reply.observed.value else 0;
    assert TurnComes(clients[m], s, replies, policy, m, m);
    assert r.pool.clients[m]
           == clients[m].(usedWeight := observed, blockedUntil := Some(EndOfPause(reply, policy)));
    hide Pause, Best, Refresh, Reserve, TurnComes, TurnOf;
    forall i | 0 <= i < n ensures TurnOf(r.pool.clients[i], s, replies, policy, i, m + 1) {
      TurnGoes(clients[i], s, replies, policy, i, m);
      assert i != m ==> r.pool.clients[i] == clients[i];
    }
  }

  /** From `m` attempts on, the rest of the first `n` attempts use the remaining IPs. */
  lemma {:induction false} AttemptsTurn(d: Dispatch, s: int, replies: seq<Reply>, policy: Policy, n: nat)
    returns (e: Dispatch)
    requires n > 0 && Turned(d, s, replies, policy, n) && policy.quota.Valid() && Retries(replies, policy, n)
    ensures Turned(e, s, replies, policy, n) && |e.tries| == n
    ensures Attempts(d, 0, replies[|d.tries|..], policy) == Attempts(e, 0, replies[n..], policy)
    decreases n - |d.tries|
  {
    e := d;
    var m := |d.tries|;
    if m < n {
      AttemptTurns(d, s, replies, policy, n);
      assert replies[m..][1..] == replies[m + 1..];
      hide Attempt, Turned;
      e := AttemptsTurn(Attempt(d, 0, replies[m], policy), s, replies, policy, n);
    }
  }

  /** With all IPs used, an attempt that finds one available again uses one for the second time. */
  lemma AttemptRepeats(d: Dispatch, s: int, replies: seq<Reply>, policy: Policy, n: nat, j: nat)
    requires Turned(d, s, replies, policy, n) && |d.tries| == n && j < n < |replies| && policy.quota.Valid()
    requires replies[n].sentAt >= EndOfPause(replies[j], policy)
    requires Overused(replies[j], policy) ==> Restarts(s, replies, policy.quota.window, j, n)
    ensures !NoReuse(Attempt(d, 0, replies[n], policy))
  {
    var now := replies[n].sentAt;
    var clients := RefreshAll(d.pool.clients, now, policy.quota.window);
    TurnsRefreshed(d, s, replies, policy, n);
    assert TurnComes(clients[j], s, replies, policy, j, n);
    assert Available(clients[j], 0, policy.quota.limit);
    assert d.pool.nextTieBreak % n == 0 by { Wraps(0, n); }
    ChosenIsLeastUsed(clients, 0, 0, policy.quota.limit, j);
    hide Best, Pause, Observe, Block, Refresh, TurnOf, TurnComes;
    var i := Reserve(d.pool, now, 0, policy.quota).1.index;
    var r := Attempt(d, 0, replies[n], policy);
    assert UsedIps(r)[i] == i && UsedIps(r)[n] == i;
  }

  /** What has been used stays used. */
  lemma {:induction false} ReuseStays(d: Dispatch, weight: nat, replies: seq<Reply>, policy: Policy)
    requires d.pool.clients != [] && !NoReuse(d)
    ensures !NoReuse(Attempts(d, weight, replies, policy))
    decreases |replies|
  {
    if d.outcome.None? && replies != [] {
      AttemptExtends(d, weight, replies[0], policy);
      hide Attempt;
      ReuseStays(Attempt(d, weight, replies[0], policy), weight, replies[1..], policy);
    }
  }

  lemma AttemptExtends(d: Dispatch, weight: nat, reply: Reply, policy: Policy)
    requires d.pool.clients != [] && d.outcome.None? && !NoReuse(d)
    ensures !NoReuse(Attempt(d, weight, reply, policy))
  {
    hide Reserve, Observe, Block, Pause;
    var r := Attempt(d, weight, reply, policy);
    var j, k :| 0 <= j < k < |UsedIps(d)| && UsedIps(d)[j] == UsedIps(d)[k];
    assert UsedIps(r)[j] == UsedIps(d)[j] && UsedIps(r)[k] == UsedIps(d)[k];
  }

  /** A dispatcher that began at `s` with as many IPs as there are earlier attempts uses one for the second time. */
  lemma ShortPauseRepeats(s: int, replies: seq<Reply>, policy: Policy, j: nat, k: nat)
    requires policy.quota.Valid() && j < k && Retries(replies, policy, k)
    requires replies[k].sentAt >= EndOfPause(replies[j], policy)
    requires Overused(replies[j], policy) ==> Restarts(s, replies, policy.quota.window, j, k)
    ensures !NoReuse(Dispatched(Start(k, s).pool, 0, replies, policy))
  {
    var p := Start(k, s).pool;
    var d := Dispatch(p, [], None);
    assert Turned(d, s, replies, policy, k);
    hide Restarts, Overused, EndOfPause;
    var e := AttemptsTurn(d, s, replies, policy, k);
    assert replies[0..] == replies && replies[k..][1..] == replies[k + 1..];
    AttemptRepeats(e, s, replies, policy, k, j);
    ReuseStays(Attempt(e, 0, replies[k], policy), 0, replies[k + 1..], policy);
    hide Attempt, NoReuse, Turned;
    assert Attempts(e, 0, replies[k..], policy)
           == Attempts(Attempt(e, 0, replies[k], policy), 0, replies[k + 1..], policy);
  }

  /** A new dispatcher, begun no later than its first attempt, on which some IP is used for the second time. */
  lemma ReusableRepeats(replies: seq<Reply>, policy: Policy, j: nat, k: nat) returns (s: int)
    requires policy.quota.Valid() && j < k && Retries(replies, policy, k) && Reusable(replies, policy, j, k)
    ensures s <= replies[0].sentAt && !NoReuse(Dispatched(Start(k, s).pool, 0, replies, policy))
  {
    var window := policy.quota.window;
    s := replies[0].sentAt;
    if Overused(replies[j], policy) {
      var i :| 0 <= i <= k && Restarts(Candidate(replies, window, i), replies, window, j, k);
      s := Candidate(replies, window, i);
    }
    hide Restarts, Overused, EndOfPause, NoReuse;
    ShortPauseRepeats(s, replies, policy, j, k);
  }

  /** Whatever the pool and the weight, no attempt goes through an IP that an earlier attempt was limited on. */
  ghost predicate AlwaysSpreads(replies: seq<Reply>, policy: Policy) {
    forall p: Pool, weight: nat :: p.clients != [] && StartedBefore(p, replies) ==>
      NoReuse(Dispatched(p, weight, replies, policy))
  }

  /**
   For given answers the retries of a dispatch use different IPs from every pool exactly when each comes before every
   earlier pause has run out, or the earlier attempt was told its IP is over the limit and no window could have
   restarted since.
   */
  lemma SpreadsIffKeptOut(replies: seq<Reply>, policy: Policy)
    requires policy.quota.Valid() && Timed(replies)
    ensures AlwaysSpreads(replies, policy) <==> KeepsOut(replies, policy)
  {
    if KeepsOut(replies, policy) {
      forall p: Pool, weight: nat | p.clients != [] && StartedBefore(p, replies)
        ensures NoReuse(Dispatched(p, weight, replies, policy))
      {
        KeptOutSpreads(p, weight, replies, policy);
      }
    } else {
      var j, k :| 0 <= j < k && Retries(replies, policy, k) && Reusable(replies, policy, j, k);
      var s := ReusableRepeats(replies, policy, j, k);
      hide NoReuse, Reusable, KeepsOut, Retries;
      assert StartedBefore(Start(k, s).pool, replies);
    }
  }

  /** When no answer reports a weight over the limit, that says the pauses outlast all later attempts. */
  lemma SpreadsIffPausesOutlast(replies: seq<Reply>, policy: Policy)
    requires policy.quota.Valid() && Timed(replies)
    requires forall i :: 0 <= i < |replies| ==> !Overused(replies[i], policy)
    ensures AlwaysSpreads(replies, policy) <==> PausesOutlast(replies, policy)
  {
    SpreadsIffKeptOut(replies, policy);
    hide AlwaysSpreads, Overused, EndOfPause, Retries;
    forall j, k | 0 <= j < k && Retries(replies, policy, k)
      ensures Reusable(replies, policy, j, k) <==> replies[k].sentAt >= EndOfPause(replies[j], policy)
    {
      RetryExists(replies, policy, k);
    }
  }
}
