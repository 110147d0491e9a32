/**
 One dispatched request: it reserves weight on a source IP, and after an explicit rate-limit answer it blocks that
 IP and tries again. The answers are inputs; each carries the clock read when its attempt reserved and when it ended.
 */
module RestDispatch {
  import opened Prelude
  import opened RestQuota

  const USIZE_MAX: nat := 0xFFFF_FFFF_FFFF_FFFF

  /** `status` is none when the transport failed. */
  datatype Reply = Reply(sentAt: int, doneAt: int, status: Option<nat>, observed: Option<nat>, retryAfter: Option<nat>)

  datatype Policy = Policy(quota: Config, retries: nat, cooldown429: nat, backoff418: nat) {
    function MaxAttempts(): nat { if retries >= USIZE_MAX then USIZE_MAX else retries + 1 }
  }

  datatype Outcome =
    | WeightExceedsLimit
    | Unavailable(wait: int)
    | RequestFailed(index: nat)
    | Answered(index: nat, attempts: nat)
    | RateLimited(index: nat, status: nat, pause: nat)

  /** A rate-limited attempt: the IP it used, when it reserved, and when the block it caused ends. */
  datatype Try = Try(index: nat, sentAt: int, until: int)

  datatype Dispatch = Dispatch(pool: Pool, tries: seq<Try>, outcome: Option<Outcome>)

  predicate IsRateLimit(status: nat) { status == 429 || status == 418 }

  function Pause(reply: Reply, policy: Policy): nat {
    if reply.retryAfter.Some? then reply.retryAfter.value
    else if reply.status == Some(418) then policy.backoff418 else policy.cooldown429
  }

  function Observed(p: Pool, index: nat, reply: Reply): (r: Pool)
    requires index < |p.clients|
    ensures |r.clients| == |p.clients|
  {
    if reply.observed.Some? then Observe(p, index, reply.observed.value) else p
  }

  /** One round of the retry loop. */
  function Attempt(d: Dispatch, weight: nat, reply: Reply, policy: Policy): (r: Dispatch)
    requires d.pool.clients != []
    ensures |r.pool.clients| == |d.pool.clients|
  {
    var (pool, reserved) := Reserve(d.pool, reply.sentAt, weight, policy.quota);
    match reserved
    case NoAvailableIp(wait) => Dispatch(pool, d.tries, Some(Unavailable(wait)))
    case Granted(i) =>
      if reply.status.None? then Dispatch(pool, d.tries, Some(RequestFailed(i))) else
        var seen := Observed(pool, i, reply);
        var status := reply.status.value;
        if !IsRateLimit(status) then Dispatch(seen, d.tries, Some(Answered(i, |d.tries| + 1))) else
          var pause := Pause(reply, policy);
          var tries := d.tries + [Try(i, reply.sentAt, reply.doneAt + pause)];
          Dispatch(Block(seen, reply.doneAt, i, pause), tries,
                   if |tries| == policy.MaxAttempts() then Some(RateLimited(i, status, pause)) else None)
  }

  function Attempts(d: Dispatch, weight: nat, replies: seq<Reply>, policy: Policy): (r: Dispatch)
    requires d.pool.clients != []
    ensures |r.pool.clients| == |d.pool.clients|
    decreases |replies|
  {
    if d.outcome.Some? || replies == [] then d
    else Attempts(Attempt(d, weight, replies[0], policy), weight, replies[1..], policy)
  }

  function Dispatched(p: Pool, weight: nat, replies: seq<Reply>, policy: Policy): Dispatch
    requires p.clients != []
  {
    if weight > policy.quota.limit then Dispatch(p, [], Some(WeightExceedsLimit))
    else Attempts(Dispatch(p, [], None), weight, replies, policy)
  }

  // ---- When it stops

  /** The rate-limited attempts so far used up exactly the replies before `rest`. */
  ghost predicate Ended(d: Dispatch, replies: seq<Reply>, policy: Policy) {
    && |d.tries| <= policy.MaxAttempts()
    && (forall k :: 0 <= k < |d.tries| && k < |replies| ==>
          replies[k].status.Some? && IsRateLimit(replies[k].status.value))
    && match d.outcome
       case None => |d.tries| < policy.MaxAttempts() && |d.tries| == |replies|
       case Some(WeightExceedsLimit) => d.tries == []
       case Some(Unavailable(_)) => |d.tries| < |replies|
       case Some(RequestFailed(_)) => |d.tries| < |replies| && replies[|d.tries|].status.None?
       case Some(Answered(_, attempts)) =>
         && attempts == |d.tries| + 1 <= policy.MaxAttempts()
         && attempts <= |replies|
         && replies[attempts - 1].status.Some? && !IsRateLimit(replies[attempts - 1].status.value)
       case Some(RateLimited(_, status, _)) =>
         && |d.tries| == policy.MaxAttempts() <= |replies|
         && replies[|d.tries| - 1].status == Some(status)
  }

  lemma AttemptEnds(d: Dispatch, weight: nat, done: seq<Reply>, reply: Reply, policy: Policy)
    requires d.pool.clients != [] && d.outcome.None? && Ended(d, done, policy)
    ensures Ended(Attempt(d, weight, reply, policy), done + [reply], policy)
  {
    hide Reserve, Observe, Block, Pause;
  }

  /** Replies that are not needed do not matter. */
  lemma EndedEarly(d: Dispatch, done: seq<Reply>, more: seq<Reply>, policy: Policy)
    requires d.outcome.Some? && Ended(d, done, policy)
    ensures Ended(d, done + more, policy)
  {}

  lemma {:induction false} AttemptsEnd(d: Dispatch, weight: nat, done: seq<Reply>, replies: seq<Reply>, policy: Policy)
    requires d.pool.clients != [] && Ended(d, done, policy)
    ensures Ended(Attempts(d, weight, replies, policy), done + replies, policy)
    decreases |replies|
  {
    if d.outcome.Some? {
      EndedEarly(d, done, replies, policy);
    } else if replies == [] {
      assert done + replies == done;
    } else {
      hide Attempt, Ended;
      AttemptEnds(d, weight, done, replies[0], policy);
      AttemptsEnd(Attempt(d, weight, replies[0], policy), weight, done + [replies[0]], replies[1..], policy);
      RepliesJoin(done, replies);
    }
  }

  /**
   Only explicit rate-limit answers are retried: every attempt but the last was answered 429 or 418, a transport
   failure ends the dispatch at once, and it gives up as rate limited exactly at the configured number of attempts.
   */
  lemma DispatchEnds(p: Pool, weight: nat, replies: seq<Reply>, policy: Policy)
    requires p.clients != [] && |replies| >= policy.MaxAttempts()
    ensures var d := Dispatched(p, weight, replies, policy);
            d.outcome.Some? && Ended(d, replies, policy)
            && (d.outcome == Some(WeightExceedsLimit) <==> weight > policy.quota.limit)
  {
    if weight <= policy.quota.limit {
      AttemptsEnd(Dispatch(p, [], None), weight, [], replies, policy);
      assert [] + replies == replies;
      NeverTooHeavy(Dispatch(p, [], None), weight, replies, policy);
    }
  }

  lemma {:induction false} NeverTooHeavy(d: Dispatch, weight: nat, replies: seq<Reply>, policy: Policy)
    requires d.pool.clients != [] && d.outcome != Some(WeightExceedsLimit)
    ensures Attempts(d, weight, replies, policy).outcome != Some(WeightExceedsLimit)
    decreases |replies|
  {
    if d.outcome.None? && replies != [] {
      NeverTooHeavy(Attempt(d, weight, replies[0], policy), weight, replies[1..], policy);
    }
  }

  // ---- Retries use other IPs

  /** Clock reads never go back, within an attempt or between attempts. */
  ghost predicate Timed(replies: seq<Reply>) {
    && (forall k :: 0 <= k < |replies| ==> replies[k].sentAt <= replies[k].doneAt)
    && (forall j, k :: 0 <= j < k < |replies| ==> replies[j].doneAt <= replies[k].sentAt)
  }

  /** The IP of every attempt so far is still blocked, or its block has run out by `now`. */
  ghost predicate Holding(d: Dispatch, now: int) {
    forall j :: 0 <= j < |d.tries| ==> Held(d.pool, d.tries[j], now)
  }

  ghost predicate Held(p: Pool, t: Try, now: int) {
    t.index < |p.clients| && (t.until <= now || p.clients[t.index].blockedUntil == Some(t.until))
  }

  /** An attempt reserving at `now` avoided every IP whose block had not run out. */
  ghost predicate Avoids(tries: seq<Try>, index: nat, now: int) {
    forall j :: 0 <= j < |tries| && now < tries[j].until ==> tries[j].index != index
  }

  ghost predicate AllAvoid(tries: seq<Try>) {
    forall k :: 0 <= k < |tries| ==> Avoids(tries[..k], tries[k].index, tries[k].sentAt)
  }

  /** Reserving keeps running blocks and picks none of them. */
  lemma ReserveAvoids(p: Pool, now: int, weight: nat, cfg: Config, t: Try)
    requires p.clients != [] && Held(p, t, now)
    ensures var (q, r) := Reserve(p, now, weight, cfg);
            Held(q, t, now) && (r.Granted? && now < t.until ==> r.index != t.index)
  {
    var clients := RefreshAll(p.clients, now, cfg.window);
    BestIsLeastUsed(clients, p.nextTieBreak % |clients|, |clients|, weight, cfg.limit);
  }

  /** The index an attempt reserved, if it reserved one. */
  function Used(d: Dispatch, weight: nat, reply: Reply, policy: Policy): Option<nat>
    requires d.pool.clients != []
  {
    match Reserve(d.pool, reply.sentAt, weight, policy.quota).1
    case NoAvailableIp(_) => None
    case Granted(i) => Some(i)
  }

  lemma AttemptHolds(d: Dispatch, weight: nat, reply: Reply, policy: Policy, t: Try)
    requires d.pool.clients != [] && Held(d.pool, t, reply.sentAt) && reply.sentAt <= reply.doneAt
    ensures Held(Attempt(d, weight, reply, policy).pool, t, reply.doneAt)
  {
    ReserveAvoids(d.pool, reply.sentAt, weight, policy.quota, t);
    hide Reserve, Pause;
  }

  lemma AttemptAvoids(d: Dispatch, weight: nat, reply: Reply, policy: Policy)
    requires d.pool.clients != [] && Holding(d, reply.sentAt) && reply.sentAt <= reply.doneAt
    ensures var i := Used(d, weight, reply, policy); i.Some? ==> Avoids(d.tries, i.value, reply.sentAt)
    ensures Holding(Attempt(d, weight, reply, policy), reply.doneAt)
  {
    var r := Attempt(d, weight, reply, policy);
    forall j | 0 <= j < |d.tries|
      ensures Held(r.pool, d.tries[j], reply.doneAt)
      ensures var i := Used(d, weight, reply, policy);
              i.Some? && reply.sentAt < d.tries[j].until ==> d.tries[j].index != i.value
    {
      assert Held(d.pool, d.tries[j], reply.sentAt);
      AttemptHolds(d, weight, reply, policy, d.tries[j]);
      ReserveAvoids(d.pool, reply.sentAt, weight, policy.quota, d.tries[j]);
    }
    hide Reserve, Pause;
    forall j | 0 <= j < |r.tries| ensures Held(r.pool, r.tries[j], reply.doneAt) {
      assert j < |d.tries| ==> r.tries[j] == d.tries[j];
    }
  }

  /**
   How long an answer keeps its IP out of use: as long as it asks for, else the 429 cooldown or the 418 back-off,
   counted from when it came in. Any other answer leaves the IP in use, and every other IP is left alone.
   */
  lemma AnswerBlocks(d: Dispatch, weight: nat, reply: Reply, policy: Policy, i: nat)
    requires d.pool.clients != [] && i < |d.pool.clients| && Used(d, weight, reply, policy) == Some(i)
    ensures var after := Attempt(d, weight, reply, policy).pool.clients;
            var before := Reserve(d.pool, reply.sentAt, weight, policy.quota).0.clients;
            && after[i].blockedUntil
               == (match reply.status
                   case None => None
                   case Some(status) =>
                     if status != 429 && status != 418 then None
                     else Some(reply.doneAt + if reply.retryAfter.Some? then reply.retryAfter.value
                                              else if status == 429 then policy.cooldown429 else policy.backoff418))
            && forall k :: 0 <= k < |after| && k != i ==> after[k] == before[k]
  {
    GrantedIsAvailable(d.pool, reply.sentAt, weight, policy.quota);
    hide Best;
  }

  /** The IP an outcome names, when it names one that was not blocked by this dispatch. */
  function LastIndex(o: Outcome): Option<nat> {
    match o
    case RequestFailed(i) => Some(i)
    case Answered(i, _) => Some(i)
    case _ => None
  }

  ghost predicate LastAvoids(d: Dispatch, replies: seq<Reply>) {
    d.outcome.Some? && LastIndex(d.outcome.value).Some? ==>
      |d.tries| < |replies| && Avoids(d.tries, LastIndex(d.outcome.value).value, replies[|d.tries|].sentAt)
  }

  lemma AttemptSpreads(d: Dispatch, weight: nat, done: seq<Reply>, reply: Reply, policy: Policy)
    requires d.pool.clients != [] && d.outcome.None? && |d.tries| == |done|
    requires Holding(d, reply.sentAt) && reply.sentAt <= reply.doneAt && AllAvoid(d.tries)
    ensures var r := Attempt(d, weight, reply, policy);
            && AllAvoid(r.tries) && LastAvoids(r, done + [reply])
            && (r.outcome.None? ==> |r.tries| == |done| + 1)
  {
    AttemptAvoids(d, weight, reply, policy);
    hide Reserve, Pause, Observed, Avoids;
    var r := Attempt(d, weight, reply, policy);
    forall k | 0 <= k < |r.tries| ensures Avoids(r.tries[..k], r.tries[k].index, r.tries[k].sentAt) {
      assert r.tries[..k] == d.tries[..k];
      if k == |d.tries| {
        assert d.tries[..k] == d.tries;
      }
    }
  }

  lemma LastAvoidsMore(d: Dispatch, done: seq<Reply>, more: seq<Reply>)
    requires LastAvoids(d, done)
    ensures LastAvoids(d, done + more)
  {}

  lemma RepliesJoin(done: seq<Reply>, replies: seq<Reply>)
    requires replies != []
    ensures done + [replies[0]] + replies[1..] == done + replies
  {}

  lemma {:induction false} AttemptsSpread(
    d: Dispatch, weight: nat, done: seq<Reply>, replies: seq<Reply>, policy: Policy, now: int)
    requires d.pool.clients != [] && d.outcome.None? && |d.tries| == |done|
    requires Holding(d, now) && AllAvoid(d.tries)
    requires Timed(replies) && (forall k :: 0 <= k < |replies| ==> now <= replies[k].sentAt)
    ensures var r := Attempts(d, weight, replies, policy); AllAvoid(r.tries) && LastAvoids(r, done + replies)
    decreases |replies|
  {
    if replies != [] {
      var reply := replies[0];
      forall j | 0 <= j < |d.tries| ensures Held(d.pool, d.tries[j], reply.sentAt) {
        assert Held(d.pool, d.tries[j], now);
      }
      AttemptSpreads(d, weight, done, reply, policy);
      AttemptAvoids(d, weight, reply, policy);
      var r := Attempt(d, weight, reply, policy);
      hide Attempt, AllAvoid, Holding;
      if r.outcome.None? {
        AttemptsSpread(r, weight, done + [reply], replies[1..], policy, reply.doneAt);
      } else {
        LastAvoidsMore(r, done + [reply], replies[1..]);
      }
      RepliesJoin(done, replies);
    }
  }

  /**
   A retry goes to another IP: with no other caller in between, no attempt uses an IP that an earlier attempt of the
   same dispatch was rate limited on, unless that block has run out by the time it reserves.
   */
  lemma RetriesUseOtherIps(p: Pool, weight: nat, replies: seq<Reply>, policy: Policy)
    requires p.clients != [] && Timed(replies)
    ensures var d := Dispatched(p, weight, replies, policy); AllAvoid(d.tries) && LastAvoids(d, replies)
  {
    if weight <= policy.quota.limit && replies != [] {
      AttemptsSpread(Dispatch(p, [], None), weight, [], replies, policy, replies[0].sentAt);
      assert [] + replies == replies;
    }
  }

  /** An answer that asks for no pause lets the retry go to the very IP that was just rate limited. */
  lemma ZeroPauseRepeatsIp()
    ensures var policy := Policy(Config(10, 60), 1, 60, 120);
            var replies := [Reply(0, 1, Some(429), None, Some(0)), Reply(1, 2, Some(200), None, None)];
            var d := Dispatched(Start(1, 0).pool, 1, replies, policy);
            Timed(replies) && d.tries == [Try(0, 0, 1)] && d.outcome == Some(Answered(0, 2))
  {
    var policy := Policy(Config(10, 60), 1, 60, 120);
    var first, second := Reply(0, 1, Some(429), None, Some(0)), Reply(1, 2, Some(200), None, None);
    var p0 := Start(1, 0).pool;
    OneClient(p0, 0, 0);
    var d1 := Attempt(Dispatch(p0, [], None), 1, first, policy);
    assert d1 == Dispatch(Pool([IpClient(1, 0, Some(1))], 0), [Try(0, 0, 1)], None);
    OneClient(d1.pool, 1, 1);
    var d2 := Attempt(d1, 1, second, policy);
    assert [first, second][1..] == [second] && [second][1..] == [];
    assert Attempts(d1, 1, [second], policy) == d2;
  }

  lemma OneClient(p: Pool, now: int, used: nat)
    requires |p.clients| == 1 && p.nextTieBreak == 0 && used <= 1 && now <= 1
    requires p.clients[0].usedWeight == used && p.clients[0].windowStartedAt == 0
    requires p.clients[0].blockedUntil.None? || p.clients[0].blockedUntil.value <= now
    ensures Reserve(p, now, 1, Config(10, 60)) == (Pool([IpClient(used + 1, 0, None)], 0), Granted(0))
  {
    var clients := RefreshAll(p.clients, now, 60);
    assert clients == [IpClient(used, 0, None)];
    assert Best(clients, 0, 0, 1, 10) == None && Best(clients, 0, 1, 1, 10) == Some(0);
    assert clients[0 := IpClient(used + 1, 0, None)] == [IpClient(used + 1, 0, None)];
    assert SaturatingAdd(used, 1) == used + 1;
    assert p.nextTieBreak % 1 == 0 && (0 + 1) % 1 == 0;
  }

  // ---- The retry loop

  /** One attempt: the outcome when it ends the dispatch, otherwise only the block is left behind. */
  method SendOnce(d: Dispatcher, weight: nat, reply: Reply, policy: Policy, ghost before: Dispatch, attempt: nat)
    returns (outcome: Option<Outcome>)
    requires d.clients != [] && d.cfg == policy.quota
    requires before.pool == d.View() && before.outcome.None? && attempt == |before.tries| + 1
    modifies d
    ensures var r := Attempt(before, weight, reply, policy); d.View() == r.pool && outcome == r.outcome
  {
    hide Reserve, Block, Pause;
    var reserved := d.ReserveClient(reply.sentAt, weight);
    if reserved.NoAvailableIp? {
      return Some(Unavailable(reserved.retryAfter));
    }
    var index := reserved.index;
    if reply.status.None? {
      return Some(RequestFailed(index));
    }
    if reply.observed.Some? {
      d.UpdateObservedWeight(index, reply.observed.value);
    }
    var status := reply.status.value;
    if !IsRateLimit(status) {
      return Some(Answered(index, attempt));
    }
    var pause := Pause(reply, policy);
    d.BlockClient(reply.doneAt, index, pause);
    return if attempt == policy.MaxAttempts() then Some(RateLimited(index, status, pause)) else None;
  }

  /** Sends one request through `d`; `replies` is what the network would answer attempt by attempt. */
  method Send(d: Dispatcher, weight: nat, replies: seq<Reply>, policy: Policy) returns (outcome: Outcome)
    requires d.clients != [] && d.cfg == policy.quota && |replies| >= policy.MaxAttempts()
    modifies d
    ensures var r := Dispatched(old(d.View()), weight, replies, policy);
            r.outcome == Some(outcome) && d.View() == r.pool
  {
    hide Attempt;
    if weight > d.cfg.limit {
      return WeightExceedsLimit;
    }
    var attempt := 0;
    ghost var now := Dispatch(d.View(), [], None);
    while attempt < policy.MaxAttempts()
      invariant attempt <= policy.MaxAttempts() && d.clients != [] && now.pool == d.View()
      invariant now.outcome.None? && |now.tries| == attempt && Ended(now, replies[..attempt], policy)
      invariant Attempts(now, weight, replies[attempt..], policy)
                == Dispatched(old(d.View()), weight, replies, policy)
    {
      ghost var before := now;
      AttemptEnds(before, weight, replies[..attempt], replies[attempt], policy);
      assert replies[..attempt] + [replies[attempt]] == replies[..attempt + 1];
      assert replies[attempt..][1..] == replies[attempt + 1..];
      var ended := SendOnce(d, weight, replies[attempt], policy, before, attempt + 1);
      now := Attempt(before, weight, replies[attempt], policy);
      attempt := attempt + 1;
      if ended.Some? {
        return ended.value;
      }
    }
    assert false;
  }
}
