/**
 The PnL calculation over a window: one pass over the sorted events records rolling-window boundaries on the
 way, and is proved to report at each boundary what replaying precisely the events up to it would give.
 */
module PnlSweep {
  import opened Prelude
  import opened MapSum
  import opened FifoLots
  import opened SymbolLedger

  type States = map<string, Ledger>

  function ApplyTo(states: States, ev: PnlEvent): Result<States, PnlError> {
    if ev.Symbol() !in states then Err(MissingSymbol) else
      var r := ApplyEvent(states[ev.Symbol()], ev);
      if r.Err? then Err(r.error) else Ok(states[ev.Symbol() := r.value])
  }

  function Replay(states: States, events: seq<PnlEvent>): Result<States, PnlError>
    decreases |events|
  {
    if events == [] then Ok(states) else
      var before := Replay(states, events[..|events| - 1]);
      if before.Err? then before else ApplyTo(before.value, events[|events| - 1])
  }

  /** The events at or before `t`, in their order. */
  function UpTo(events: seq<PnlEvent>, t: int): seq<PnlEvent>
    decreases |events|
  {
    if events == [] then [] else
      var e := events[|events| - 1];
      UpTo(events[..|events| - 1], t) + (if e.Ts() <= t then [e] else [])
  }

  ghost predicate ByTime(events: seq<PnlEvent>) {
    forall i, j :: 0 <= i < j < |events| ==> events[i].Ts() <= events[j].Ts()
  }

  /** The first `n` events are those at or before `t`. */
  ghost predicate Cut(events: seq<PnlEvent>, t: int, n: nat) {
    && n <= |events|
    && (forall i :: 0 <= i < n ==> events[i].Ts() <= t)
    && (forall i :: n <= i < |events| ==> events[i].Ts() > t)
  }

  lemma {:induction false} UpToCut(events: seq<PnlEvent>, t: int, n: nat)
    requires Cut(events, t, n)
    ensures UpTo(events, t) == events[..n]
    decreases |events|
  {
    if events != [] {
      var init := events[..|events| - 1];
      if n == |events| {
        UpToCut(init, t, n - 1);
        assert events[..n] == init[..n - 1] + [events[n - 1]];
      } else {
        UpToCut(init, t, n);
        assert init[..n] == events[..n];
      }
    }
  }

  /** In sorted events those up to `t` are a prefix. */
  lemma UpToIsPrefix(events: seq<PnlEvent>, t: int, n: nat)
    requires ByTime(events) && n <= |events|
    requires n > 0 ==> events[n - 1].Ts() <= t
    requires n < |events| ==> events[n].Ts() > t
    ensures UpTo(events, t) == events[..n]
  {
    UpToCut(events, t, n);
  }

  /** A failed replay cannot be repaired by more events. */
  lemma {:induction false} ReplayFails(states: States, events: seq<PnlEvent>, n: nat)
    requires n <= |events| && Replay(states, events[..n]).Err?
    ensures Replay(states, events) == Replay(states, events[..n])
    decreases |events|
  {
    if n == |events| {
      assert events[..n] == events;
    } else {
      var init := events[..|events| - 1];
      assert init[..n] == events[..n];
      ReplayFails(states, init, n);
    }
  }

  ghost function Total(): Ledger -> real { (l: Ledger) => TotalPnl(l) }

  /** Total PnL over the selected symbols. */
  ghost function SelectedPnl(states: States, selected: set<string>): real
    requires selected <= states.Keys
  {
    SumKeys(states, selected, Total())
  }

  lemma {:induction false} ReplayKeys(states: States, events: seq<PnlEvent>)
    ensures Replay(states, events).Ok? ==> Replay(states, events).value.Keys == states.Keys
    decreases |events|
  {
    if events != [] {
      ReplayKeys(states, events[..|events| - 1]);
    }
  }

  method SelectedTotal(states: States, selected: set<string>) returns (sum: real)
    requires selected <= states.Keys
    ensures sum == SelectedPnl(states, selected)
  {
    sum := 0.0;
    var rest := selected;
    while rest != {}
      invariant rest <= selected
      invariant sum + SumKeys(states, rest, Total()) == SelectedPnl(states, selected)
      decreases |rest|
    {
      var symbol :| symbol in rest;
      SumSplit(states, rest, Total(), symbol);
      sum := sum + TotalPnl(states[symbol]);
      rest := rest - {symbol};
    }
  }

  /** The selected total when only the events at or before `t` are replayed. */
  ghost function ReplayedPnl(states: States, events: seq<PnlEvent>, selected: set<string>, t: int): Option<real> {
    var r := Replay(states, UpTo(events, t));
    if r.Ok? && selected <= r.value.Keys then Some(SelectedPnl(r.value, selected)) else None
  }

  ghost predicate RecordedAt(states: States, events: seq<PnlEvent>, selected: set<string>, entry: (int, real)) {
    ReplayedPnl(states, events, selected, entry.0) == Some(entry.1)
  }

  ghost predicate Ascending(xs: seq<int>) {
    forall i, j :: 0 <= i < j < |xs| ==> xs[i] < xs[j]
  }

  /** The first boundaries, in order, each with its replayed total. */
  ghost predicate Recorded(
    initial: States, events: seq<PnlEvent>, selected: set<string>, boundaries: seq<int>, recorded: seq<(int, real)>)
  {
    && |recorded| <= |boundaries|
    && (forall i :: 0 <= i < |recorded| ==>
          recorded[i].0 == boundaries[i] && RecordedAt(initial, events, selected, recorded[i]))
  }

  /** The first `n` events are applied, and no boundary still to be recorded lies before them. */
  ghost predicate Swept(
    initial: States, events: seq<PnlEvent>, selected: set<string>, boundaries: seq<int>,
    n: nat, states: States, recorded: seq<(int, real)>)
  {
    && n <= |events| && Replay(initial, events[..n]) == Ok(states) && selected <= states.Keys
    && Recorded(initial, events, selected, boundaries, recorded)
    && (n > 0 && |recorded| < |boundaries| ==> events[n - 1].Ts() <= boundaries[|recorded|])
  }

  /** Records the boundaries passed before the next event, all those below `limit`. */
  method RecordPassed(
    boundaries: seq<int>, recorded: seq<(int, real)>, limit: int, states: States, selected: set<string>,
    ghost initial: States, ghost events: seq<PnlEvent>, ghost n: nat)
    returns (r: seq<(int, real)>)
    requires ByTime(events) && Ascending(boundaries)
    requires Swept(initial, events, selected, boundaries, n, states, recorded)
    requires n < |events| ==> limit <= events[n].Ts()
    ensures Swept(initial, events, selected, boundaries, n, states, r)
    ensures |r| < |boundaries| ==> boundaries[|r|] >= limit
  {
    r := recorded;
    while |r| < |boundaries| && boundaries[|r|] < limit
      invariant Swept(initial, events, selected, boundaries, n, states, r)
      decreases |boundaries| - |r|
    {
      var b := boundaries[|r|];
      var total := SelectedTotal(states, selected);
      UpToIsPrefix(events, b, n);
      assert RecordedAt(initial, events, selected, (b, total));
      r := r + [(b, total)];
    }
  }

  /** Records what the next event has passed, then applies it. */
  method Advance(
    boundaries: seq<int>, recorded: seq<(int, real)>, states: States, selected: set<string>,
    events: seq<PnlEvent>, n: nat, ghost initial: States)
    returns (r: Result<(States, seq<(int, real)>), PnlError>)
    requires ByTime(events) && Ascending(boundaries) && n < |events|
    requires Swept(initial, events, selected, boundaries, n, states, recorded)
    ensures r.Ok? ==> Swept(initial, events, selected, boundaries, n + 1, r.value.0, r.value.1)
    ensures r.Err? ==> Replay(initial, events[..n + 1]) == Err(r.error)
  {
    var passed := RecordPassed(boundaries, recorded, events[n].Ts(), states, selected, initial, events, n);
    assert events[..n + 1][..n] == events[..n];
    var next := ApplyTo(states, events[n]);
    if next.Err? {
      return Err(next.error);
    }
    return Ok((next.value, passed));
  }

  /** Where the sweep stands. */
  datatype Position = Position(n: nat, states: States, recorded: seq<(int, real)>)

  /** The position is sound and everything it applied lies before `limit`. */
  ghost predicate Standing(initial: States, events: seq<PnlEvent>, selected: set<string>, boundaries: seq<int>,
                           limit: int, p: Position)
  {
    && Swept(initial, events, selected, boundaries, p.n, p.states, p.recorded)
    && (p.n > 0 ==> events[p.n - 1].Ts() < limit)
  }

  /** Replaying the events before `limit` is rejected. */
  ghost predicate FailsWith(initial: States, events: seq<PnlEvent>, limit: int, error: PnlError) {
    Replay(initial, UpTo(events, limit - 1)) == Err(error)
  }

  /** Applies every event before `limit`. */
  method ApplyBefore(ghost initial: States, events: seq<PnlEvent>, selected: set<string>, boundaries: seq<int>,
                     limit: int, start: Position) returns (r: Result<Position, PnlError>)
    requires ByTime(events) && Ascending(boundaries)
    requires Standing(initial, events, selected, boundaries, limit, start)
    ensures r.Err? ==> FailsWith(initial, events, limit, r.error)
    ensures r.Ok? ==> Standing(initial, events, selected, boundaries, limit, r.value)
    ensures r.Ok? && r.value.n < |events| ==> events[r.value.n].Ts() >= limit
  {
    hide ByTime, Recorded, Ascending, Replay, UpTo;
    var p := start;
    while p.n < |events| && events[p.n].Ts() < limit
      invariant Standing(initial, events, selected, boundaries, limit, p)
      decreases |events| - p.n
    {
      var next := Advance(boundaries, p.recorded, p.states, selected, events, p.n, initial);
      if next.Err? {
        FailsBy(initial, events, limit - 1, p.n + 1);
        return Err(next.error);
      }
      p := Position(p.n + 1, next.value.0, next.value.1);
    }
    return Ok(p);
  }

  /** Every event and every boundary before `limit` is behind the sweep, and nothing else is. */
  ghost predicate Advanced(initial: States, events: seq<PnlEvent>, selected: set<string>, boundaries: seq<int>,
                           limit: int, p: Position)
  {
    && Standing(initial, events, selected, boundaries, limit, p)
    && Replay(initial, UpTo(events, limit - 1)) == Ok(p.states)
    && (|p.recorded| < |boundaries| ==> boundaries[|p.recorded|] >= limit)
  }

  /** Applies every event before `limit`, then records the boundaries in the gap up to it. */
  method AdvanceTo(ghost initial: States, events: seq<PnlEvent>, selected: set<string>, boundaries: seq<int>,
                   limit: int, start: Position) returns (r: Result<Position, PnlError>)
    requires ByTime(events) && Ascending(boundaries)
    requires Standing(initial, events, selected, boundaries, limit, start)
    ensures if r.Err? then FailsWith(initial, events, limit, r.error)
            else Advanced(initial, events, selected, boundaries, limit, r.value)
  {
    hide ByTime, Recorded, Ascending, Replay, UpTo;
    var applied := ApplyBefore(initial, events, selected, boundaries, limit, start);
    if applied.Err? {
      return applied;
    }
    var p := applied.value;
    var recorded := RecordPassed(boundaries, p.recorded, limit, p.states, selected, initial, events, p.n);
    UpToIsPrefix(events, limit - 1, p.n);
    return Ok(p.(recorded := recorded));
  }

  datatype Outcome = Outcome(baselines: States, end: States, boundaryPnl: seq<(int, real)>)

  /**
   What one pass delivers: the replayed states just before the window and at its end, and every boundary once, in
   order, with the total of precisely the events at or before it.
   */
  ghost predicate IsSwept(initial: States, events: seq<PnlEvent>, selected: set<string>, boundaries: seq<int>,
                          startMs: int, endMs: int, o: Outcome)
  {
    && Replay(initial, UpTo(events, startMs - 1)) == Ok(o.baselines)
    && Replay(initial, UpTo(events, endMs)) == Ok(o.end)
    && |o.boundaryPnl| == |boundaries|
    && Recorded(initial, events, selected, boundaries, o.boundaryPnl)
  }

  /** The sweep: events before the window, the gap up to its start, events inside it, then what is left. */
  method Sweep(initial: States, events: seq<PnlEvent>, selected: set<string>, boundaries: seq<int>,
               startMs: int, endMs: int) returns (r: Result<Outcome, PnlError>)
    requires ByTime(events) && selected <= initial.Keys && startMs <= endMs
    requires Ascending(boundaries) && forall i :: 0 <= i < |boundaries| ==> boundaries[i] <= endMs
    ensures r.Err? ==> FailsWith(initial, events, endMs + 1, r.error)
    ensures r.Ok? ==> IsSwept(initial, events, selected, boundaries, startMs, endMs, r.value)
  {
    StandsAtStart(initial, events, selected, boundaries, startMs);
    hide *;
    var before := AdvanceTo(initial, events, selected, boundaries, startMs, Position(0, initial, []));
    if before.Err? {
      FailsEarly(initial, events, startMs, endMs + 1, before.error);
      return Err(before.error);
    }
    StandsLater(initial, events, selected, boundaries, startMs, endMs + 1, before.value);
    var after := AdvanceTo(initial, events, selected, boundaries, endMs + 1, before.value);
    if after.Err? {
      return Err(after.error);
    }
    SweptToEnd(initial, events, selected, boundaries, startMs, endMs, before.value, after.value);
    return Ok(Outcome(before.value.states, after.value.states, after.value.recorded));
  }

  lemma SweptToEnd(initial: States, events: seq<PnlEvent>, selected: set<string>, boundaries: seq<int>,
                   startMs: int, endMs: int, before: Position, after: Position)
    requires Advanced(initial, events, selected, boundaries, startMs, before)
    requires Advanced(initial, events, selected, boundaries, endMs + 1, after)
    requires forall i :: 0 <= i < |boundaries| ==> boundaries[i] <= endMs
    ensures IsSwept(initial, events, selected, boundaries, startMs, endMs,
                    Outcome(before.states, after.states, after.recorded))
  {
    hide Replay, UpTo;
  }

  lemma StandsAtStart(initial: States, events: seq<PnlEvent>, selected: set<string>, boundaries: seq<int>, t: int)
    requires selected <= initial.Keys
    ensures Standing(initial, events, selected, boundaries, t, Position(0, initial, []))
  {
    assert events[..0] == [];
  }

  lemma StandsLater(initial: States, events: seq<PnlEvent>, selected: set<string>, boundaries: seq<int>,
                    s: int, t: int, p: Position)
    requires s <= t && Advanced(initial, events, selected, boundaries, s, p)
    ensures Standing(initial, events, selected, boundaries, t, p)
  {
    hide Recorded, Replay;
  }

  /** Where the events after `t` begin. */
  lemma CutAt(events: seq<PnlEvent>, t: int) returns (n: nat)
    requires ByTime(events)
    ensures n <= |events| && UpTo(events, t) == events[..n]
    ensures forall i :: 0 <= i < |events| ==> (events[i].Ts() <= t <==> i < n)
  {
    n := 0;
    while n < |events| && events[n].Ts() <= t
      invariant n <= |events| && forall i :: 0 <= i < n ==> events[i].Ts() <= t
    {
      n := n + 1;
    }
    UpToIsPrefix(events, t, n);
  }

  lemma FailsBy(initial: States, events: seq<PnlEvent>, t: int, n: nat)
    requires ByTime(events) && 0 < n <= |events| && Replay(initial, events[..n]).Err? && events[n - 1].Ts() <= t
    ensures Replay(initial, UpTo(events, t)) == Replay(initial, events[..n])
  {
    var m := CutAt(events, t);
    hide Replay, UpTo;
    assert events[..m][..n] == events[..n];
    ReplayFails(initial, events[..m], n);
  }

  /** A replay that fails before `s` has failed before any later `t`. */
  lemma FailsEarly(initial: States, events: seq<PnlEvent>, s: int, t: int, error: PnlError)
    requires ByTime(events) && s <= t && FailsWith(initial, events, s, error)
    ensures FailsWith(initial, events, t, error)
  {
    var n := CutAt(events, s - 1);
    NothingFails(initial, events);
    hide ByTime, Replay, UpTo;
    FailsBy(initial, events, t - 1, n);
  }

  lemma NothingFails(initial: States, events: seq<PnlEvent>)
    ensures Replay(initial, events[..0]).Ok?
  {}

  // ---- Rolling windows

  const DAY_MS := 24 * 60 * 60 * 1000
  const WEEK_MS := 7 * DAY_MS
  const MONTH_MS := 30 * DAY_MS

  /** Window starts that lie inside strategy history, oldest first. */
  function RollingBoundaries(strategyStartMs: int, endMs: int): (r: seq<int>)
    ensures forall i, j :: 0 <= i < j < |r| ==> r[i] < r[j]
    ensures forall i :: 0 <= i < |r| ==> r[i] <= endMs
    ensures endMs - WEEK_MS >= strategyStartMs ==> endMs - WEEK_MS in r
    ensures endMs - MONTH_MS >= strategyStartMs ==> endMs - MONTH_MS in r
  {
    (if endMs - MONTH_MS >= strategyStartMs then [endMs - MONTH_MS] else [])
    + (if endMs - WEEK_MS >= strategyStartMs then [endMs - WEEK_MS] else [])
  }

  function CleanZero(x: real): real { if Abs(x) < 0.000000000001 then 0.0 else x }

  /** The total PnL earned inside a trailing window; none when no history is covered. */
  method RollingPnl(windowMs: int, strategyStartMs: int, endMs: int, boundaryPnl: seq<(int, real)>, endTotal: real)
    returns (pnl: Option<real>)
    requires forall i, j :: 0 <= i < j < |boundaryPnl| ==> boundaryPnl[i].0 < boundaryPnl[j].0
    ensures endMs <= MaxInt(endMs - windowMs, strategyStartMs) ==> pnl == None
    ensures endMs - windowMs < strategyStartMs < endMs ==> pnl == Some(CleanZero(endTotal))
    ensures forall i :: 0 <= i < |boundaryPnl| && strategyStartMs <= boundaryPnl[i].0 == endMs - windowMs < endMs ==>
              pnl == Some(CleanZero(endTotal - boundaryPnl[i].1))
    ensures (forall i :: 0 <= i < |boundaryPnl| ==> boundaryPnl[i].0 != endMs - windowMs) ==>
              strategyStartMs <= endMs - windowMs ==> pnl == None
  {
    var boundary := endMs - windowMs;
    if endMs - MaxInt(boundary, strategyStartMs) <= 0 {
      return None;
    }
    if boundary < strategyStartMs {
      return Some(CleanZero(endTotal - 0.0));
    }
    var i := 0;
    while i < |boundaryPnl|
      invariant i <= |boundaryPnl| && forall j :: 0 <= j < i ==> boundaryPnl[j].0 != boundary
    {
      if boundaryPnl[i].0 == boundary {
        return Some(CleanZero(endTotal - boundaryPnl[i].1));
      }
      i := i + 1;
    }
    return None;
  }

  lemma RecordedAscending(
    initial: States, events: seq<PnlEvent>, selected: set<string>, boundaries: seq<int>, pairs: seq<(int, real)>)
    requires Ascending(boundaries) && Recorded(initial, events, selected, boundaries, pairs)
    ensures forall i, j :: 0 <= i < j < |pairs| ==> pairs[i].0 < pairs[j].0
  {}

  lemma BoundaryFound(
    initial: States, events: seq<PnlEvent>, selected: set<string>, boundaries: seq<int>, pairs: seq<(int, real)>,
    b: int) returns (i: nat)
    requires Recorded(initial, events, selected, boundaries, pairs) && |pairs| == |boundaries| && b in boundaries
    ensures i < |pairs| && pairs[i].0 == b && ReplayedPnl(initial, events, selected, b) == Some(pairs[i].1)
  {
    i :| i < |boundaries| && boundaries[i] == b;
    assert RecordedAt(initial, events, selected, pairs[i]);
  }

  /** End to end: a rolling window reports the replayed total at the end less the replayed total at its start. */
  method RollingWindow(initial: States, events: seq<PnlEvent>, selected: set<string>,
                       strategyStartMs: int, startMs: int, endMs: int, windowMs: int)
    returns (r: Result<Option<real>, PnlError>)
    requires ByTime(events) && selected <= initial.Keys && strategyStartMs <= startMs <= endMs
    requires windowMs == WEEK_MS || windowMs == MONTH_MS
    ensures r.Ok? <==> Replay(initial, UpTo(events, endMs)).Ok?
    ensures r.Ok? ==>
              var after := ReplayedPnl(initial, events, selected, endMs);
              var before := ReplayedPnl(initial, events, selected, endMs - windowMs);
              && after.Some?
              && (strategyStartMs <= endMs - windowMs ==>
                    before.Some? && r.value == Some(CleanZero(after.value - before.value)))
              && (endMs - windowMs < strategyStartMs < endMs ==> r.value == Some(CleanZero(after.value)))
  {
    hide ByTime, Replay, UpTo, Recorded, CleanZero;
    var boundaries := RollingBoundaries(strategyStartMs, endMs);
    var swept := Sweep(initial, events, selected, boundaries, startMs, endMs);
    if swept.Err? {
      return Err(swept.error);
    }
    var pairs := swept.value.boundaryPnl;
    assert ReplayedPnl(initial, events, selected, endMs) == Some(SelectedPnl(swept.value.end, selected)) by {
      ReplayKeys(initial, UpTo(events, endMs));
    }
    var after := SelectedTotal(swept.value.end, selected);
    RecordedAscending(initial, events, selected, boundaries, pairs);
    var pnl := RollingPnl(windowMs, strategyStartMs, endMs, pairs, after);
    if strategyStartMs <= endMs - windowMs {
      ghost var i := BoundaryFound(initial, events, selected, boundaries, pairs, endMs - windowMs);
      assert pairs[i].0 == endMs - windowMs;
    }
    return Ok(pnl);
  }
}
