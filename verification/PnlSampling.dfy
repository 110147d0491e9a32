/** Curve post-processing: drawdown, forward-fill resampling and downsampling that keeps the extremes. */
module PnlSampling {
  import opened Prelude
  import opened StableSorting

  /** A point of the PnL curve; measures that sampling never looks at are carried in `others`. */
  datatype PnlPoint = PnlPoint(
    ts: int, totalPnl: real, spotPosition: real, futuresPosition: real, exposure: real, others: seq<real>)

  ghost predicate StrictlyByTime(points: seq<PnlPoint>) {
    forall i, j :: 0 <= i < j < |points| ==> points[i].ts < points[j].ts
  }

  ghost predicate ByTime(points: seq<PnlPoint>) {
    forall i, j :: 0 <= i < j < |points| ==> points[i].ts <= points[j].ts
  }

  /** The curve keeps one point per timestamp: a later point at the same time replaces the last one. */
  method PushOrReplace(points: seq<PnlPoint>, point: PnlPoint) returns (r: seq<PnlPoint>)
    requires StrictlyByTime(points) && (points != [] ==> points[|points| - 1].ts <= point.ts)
    ensures StrictlyByTime(r) && r != [] && r[|r| - 1] == point
    ensures forall p :: p in r <==> p == point || (p in points && p.ts != point.ts)
  {
    if points != [] && points[|points| - 1].ts == point.ts {
      r := points[..|points| - 1] + [point];
      assert points == points[..|points| - 1] + [points[|points| - 1]];
    } else {
      r := points + [point];
    }
  }

  // ---- Drawdown

  /** The decline from an earlier point to a later one. */
  ghost function Decline(points: seq<PnlPoint>, i: int, j: int): real
    requires 0 <= i <= j < |points|
  {
    points[i].totalPnl - points[j].totalPnl
  }

  /** One pass with a running peak finds the largest decline over all pairs of earlier and later points. */
  method Drawdown(points: seq<PnlPoint>) returns (maximum: real, current: real)
    ensures points == [] ==> maximum == 0.0 && current == 0.0
    ensures forall i, j :: 0 <= i <= j < |points| ==> Decline(points, i, j) <= maximum
    ensures points != [] ==> exists i, j :: 0 <= i <= j < |points| && Decline(points, i, j) == maximum
    ensures forall i, j :: 0 <= i <= j == |points| - 1 ==> Decline(points, i, j) <= current
    ensures points != [] ==> exists i, j :: 0 <= i <= j == |points| - 1 && Decline(points, i, j) == current
  {
    maximum, current := 0.0, 0.0;
    if points == [] {
      return;
    }
    var peak := points[0].totalPnl;
    ghost var top, from, to := 0, 0, 0;
    var k := 0;
    while k < |points|
      invariant k <= |points| && 0 <= top < |points| && (if k == 0 then top == 0 else top < k)
      invariant 0 <= from <= to < |points|
      invariant peak == points[top].totalPnl && maximum == Decline(points, from, to)
      invariant forall i :: 0 <= i < k ==> points[i].totalPnl <= peak
      invariant forall i, j :: 0 <= i <= j < k ==> Decline(points, i, j) <= maximum
    {
      if points[k].totalPnl >= peak {
        peak, top := points[k].totalPnl, k;
      }
      var drawdown := peak - points[k].totalPnl;
      if drawdown >= maximum {
        maximum, from, to := drawdown, top, k;
      }
      k := k + 1;
    }
    current := peak - points[|points| - 1].totalPnl;
    assert Decline(points, top, |points| - 1) == current;
  }

  // ---- Forward-fill resampling

  const I64_MAX: int := 0x7FFF_FFFF_FFFF_FFFF
  const I64_MIN: int := -0x8000_0000_0000_0000

  function Saturate(x: int): int { if x > I64_MAX then I64_MAX else if x < I64_MIN then I64_MIN else x }

  /** The `q`-th multiple of the interval. */
  function Tick(q: int, intervalMs: int): int { q * intervalMs }

  lemma TickOrder(p: int, q: int, intervalMs: int)
    requires intervalMs > 0 && p < q
    ensures Tick(p, intervalMs) + intervalMs <= Tick(q, intervalMs)
    ensures Tick(p + 1, intervalMs) == Tick(p, intervalMs) + intervalMs
  {
    assert (q - p - 1) * intervalMs >= 0;
    assert q * intervalMs == p * intervalMs + intervalMs + (q - p - 1) * intervalMs;
  }

  /** Multiples of the interval from the `q`-th on, before `endMs`. */
  function Multiples(q: int, endMs: int, intervalMs: int): (r: seq<int>)
    requires intervalMs > 0
    decreases endMs - Tick(q, intervalMs)
  {
    if Tick(q, intervalMs) >= endMs then [] else
      TickOrder(q, q + 1, intervalMs);
      [Tick(q, intervalMs)] + Multiples(q + 1, endMs, intervalMs)
  }

  function FirstTick(startMs: int, intervalMs: int): int
    requires intervalMs > 0
  {
    startMs / intervalMs + 1
  }

  function Ticks(startMs: int, endMs: int, intervalMs: int): seq<int>
    requires intervalMs > 0
  {
    [startMs] + Multiples(FirstTick(startMs, intervalMs), endMs, intervalMs) + (if endMs > startMs then [endMs] else [])
  }

  lemma {:induction false} MultiplesAre(q: int, endMs: int, intervalMs: int)
    requires intervalMs > 0
    ensures var r := Multiples(q, endMs, intervalMs);
            && (forall i, j :: 0 <= i < j < |r| ==> r[i] < r[j])
            && (forall t :: t in r ==> Tick(q, intervalMs) <= t < endMs && exists p :: t == Tick(p, intervalMs))
            && (forall p :: q <= p && Tick(p, intervalMs) < endMs ==> Tick(p, intervalMs) in r)
    decreases endMs - Tick(q, intervalMs)
  {
    TickOrder(q, q + 1, intervalMs);
    var r := Multiples(q, endMs, intervalMs);
    if Tick(q, intervalMs) < endMs {
      MultiplesAre(q + 1, endMs, intervalMs);
      var rest := Multiples(q + 1, endMs, intervalMs);
      assert forall j :: 0 <= j < |rest| ==> rest[j] in rest;
      forall p | q <= p && Tick(p, intervalMs) < endMs ensures Tick(p, intervalMs) in r {
        assert p > q ==> Tick(p, intervalMs) in rest;
      }
    } else {
      forall p | q <= p ensures Tick(p, intervalMs) >= endMs {
        if q < p {
          TickOrder(q, p, intervalMs);
        }
      }
    }
  }

  lemma FirstTickIs(startMs: int, intervalMs: int)
    requires intervalMs > 0
    ensures var q := FirstTick(startMs, intervalMs);
            Tick(q - 1, intervalMs) <= startMs < Tick(q, intervalMs)
  {
    assert startMs == (startMs / intervalMs) * intervalMs + startMs % intervalMs;
    TickOrder(startMs / intervalMs, startMs / intervalMs + 1, intervalMs);
  }

  /** The ticks are the start, every multiple of the interval strictly inside, and the end, in order. */
  lemma TicksAre(startMs: int, endMs: int, intervalMs: int)
    requires intervalMs > 0 && startMs <= endMs
    ensures var r := Ticks(startMs, endMs, intervalMs);
            && (forall i, j :: 0 <= i < j < |r| ==> r[i] < r[j])
            && (forall t :: t in r <==>
                  t == startMs || t == endMs || (startMs < t < endMs && exists p :: t == Tick(p, intervalMs)))
  {
    var q := FirstTick(startMs, intervalMs);
    FirstTickIs(startMs, intervalMs);
    MultiplesAre(q, endMs, intervalMs);
    var inner := Multiples(q, endMs, intervalMs);
    assert forall i :: 0 <= i < |inner| ==> inner[i] in inner;
    forall p | startMs < Tick(p, intervalMs) < endMs ensures Tick(p, intervalMs) in inner {
      if p < q && p != q - 1 {
        TickOrder(p, q - 1, intervalMs);
      }
    }
  }

  /** `j` is the last source point at or before `t`; the first one when none is that early. */
  ghost predicate LastAt(points: seq<PnlPoint>, t: int, j: int) {
    && 0 <= j < |points|
    && (points[j].ts <= t || j == 0)
    && (forall k :: j < k < |points| ==> points[k].ts > t)
  }

  /** `r` holds, at each tick, the last source value at or before it. */
  ghost predicate Filled(points: seq<PnlPoint>, ticks: seq<int>, r: seq<PnlPoint>) {
    && |r| == |ticks|
    && (forall i :: 0 <= i < |r| ==> exists j :: LastAt(points, ticks[i], j) && r[i] == points[j].(ts := ticks[i]))
  }

  method FindAt(points: seq<PnlPoint>, t: int, start: nat) returns (j: nat)
    requires ByTime(points) && start < |points| && (points[start].ts <= t || start == 0)
    ensures start <= j && LastAt(points, t, j)
  {
    j := start;
    while j + 1 < |points| && points[j + 1].ts <= t
      invariant start <= j < |points| && (points[j].ts <= t || j == 0)
    {
      j := j + 1;
    }
    assert forall k :: j + 1 < k < |points| ==> points[j + 1].ts <= points[k].ts;
  }

  lemma FilledPush(points: seq<PnlPoint>, ticks: seq<int>, r: seq<PnlPoint>, t: int, j: int)
    requires Filled(points, ticks, r) && LastAt(points, t, j)
    ensures Filled(points, ticks + [t], r + [points[j].(ts := t)])
  {
    var ticks' := ticks + [t];
    var r' := r + [points[j].(ts := t)];
    forall i | 0 <= i < |r'| ensures exists j :: LastAt(points, ticks'[i], j) && r'[i] == points[j].(ts := ticks'[i]) {
      if i < |r| {
        assert ticks'[i] == ticks[i] && r'[i] == r[i];
      } else {
        assert LastAt(points, ticks'[i], j) && r'[i] == points[j].(ts := ticks'[i]);
      }
    }
  }

  /** Samples the curve at the next tick, moving the source index forward only. */
  method PushAt(points: seq<PnlPoint>, t: int, source: nat, r: seq<PnlPoint>, ghost ticks: seq<int>)
    returns (next: nat, r': seq<PnlPoint>)
    requires ByTime(points) && source < |points| && (points[source].ts <= t || source == 0)
    requires Filled(points, ticks, r)
    ensures next < |points| && (points[next].ts <= t || next == 0)
    ensures Filled(points, ticks + [t], r')
  {
    next := FindAt(points, t, source);
    r' := r + [points[next].(ts := t)];
    FilledPush(points, ticks, r, t, next);
  }

  method Resample(points: seq<PnlPoint>, startMs: int, endMs: int, intervalMs: int) returns (r: seq<PnlPoint>)
    requires ByTime(points) && I64_MIN <= startMs <= I64_MAX && I64_MIN <= endMs <= I64_MAX && intervalMs <= I64_MAX
    ensures points == [] || intervalMs <= 0 || endMs < startMs ==> r == points
    ensures points != [] && intervalMs > 0 && startMs <= endMs ==>
              Filled(points, Ticks(startMs, endMs, intervalMs), r)
  {
    if points == [] || intervalMs <= 0 || endMs < startMs {
      return points;
    }
    var source: nat := 0;
    ghost var done, q := [startMs], FirstTick(startMs, intervalMs);
    ghost var ticks := [startMs] + Multiples(q, endMs, intervalMs);
    source, r := PushAt(points, startMs, source, [], []);
    assert [] + [startMs] == done;
    FirstTickIs(startMs, intervalMs);
    SaturatedFirstTick(startMs, intervalMs);
    var tick := Saturate(Saturate(startMs / intervalMs + 1) * intervalMs);
    while tick < endMs
      invariant Filled(points, done, r) && source < |points|
      invariant tick == Saturate(Tick(q, intervalMs)) && startMs < Tick(q, intervalMs)
      invariant points[source].ts < Tick(q, intervalMs) || source == 0
      invariant points[source].ts <= endMs || source == 0
      invariant done + Multiples(q, endMs, intervalMs) == ticks
      decreases endMs - tick
    {
      TickOrder(q, q + 1, intervalMs);
      source, r := PushAt(points, tick, source, r, done);
      assert done + Multiples(q, endMs, intervalMs) == done + [tick] + Multiples(q + 1, endMs, intervalMs);
      done, q := done + [tick], q + 1;
      var next := Saturate(tick + intervalMs);
      if next == tick {
        break;
      }
      tick := next;
    }
    assert Multiples(q, endMs, intervalMs) == [];
    assert done + [] == done;
    if endMs > startMs {
      source, r := PushAt(points, endMs, source, r, done);
    }
    assert Ticks(startMs, endMs, intervalMs) == ticks + (if endMs > startMs then [endMs] else []);
  }

  lemma SaturatedFirstTick(startMs: int, intervalMs: int)
    requires intervalMs > 0 && I64_MIN <= startMs <= I64_MAX
    ensures Saturate(Saturate(startMs / intervalMs + 1) * intervalMs)
            == Saturate(Tick(FirstTick(startMs, intervalMs), intervalMs))
  {
    var q := FirstTick(startMs, intervalMs);
    FirstTickIs(startMs, intervalMs);
    if intervalMs >= 2 {
      assert I64_MIN <= q <= I64_MAX;
    }
  }

  // ---- Downsampling

  datatype Selector = TotalOf | SpotOf | FuturesOf | ExposureOf

  function Value(s: Selector, p: PnlPoint): real {
    match s
    case TotalOf => p.totalPnl
    case SpotOf => p.spotPosition
    case FuturesOf => p.futuresPosition
    case ExposureOf => p.exposure
  }

  const SELECTORS: seq<Selector> := [TotalOf, SpotOf, FuturesOf, ExposureOf]

  /** Where a selector stands in the list. */
  function Position(s: Selector): nat {
    match s
    case TotalOf => 0
    case SpotOf => 1
    case FuturesOf => 2
    case ExposureOf => 3
  }

  /** The first point of least value. */
  method MinBy(bucket: seq<PnlPoint>, s: Selector) returns (p: PnlPoint)
    requires bucket != []
    ensures p in bucket && forall q :: q in bucket ==> Value(s, p) <= Value(s, q)
  {
    p := bucket[0];
    var i := 1;
    while i < |bucket|
      invariant 1 <= i <= |bucket| && p in bucket && forall k :: 0 <= k < i ==> Value(s, p) <= Value(s, bucket[k])
    {
      if Value(s, bucket[i]) < Value(s, p) {
        p := bucket[i];
      }
      i := i + 1;
    }
  }

  /** The last point of greatest value. */
  method MaxBy(bucket: seq<PnlPoint>, s: Selector) returns (p: PnlPoint)
    requires bucket != []
    ensures p in bucket && forall q :: q in bucket ==> Value(s, q) <= Value(s, p)
  {
    p := bucket[0];
    var i := 1;
    while i < |bucket|
      invariant 1 <= i <= |bucket| && p in bucket && forall k :: 0 <= k < i ==> Value(s, bucket[k]) <= Value(s, p)
    {
      if Value(s, bucket[i]) >= Value(s, p) {
        p := bucket[i];
      }
      i := i + 1;
    }
  }

  function TsLe(): (PnlPoint, PnlPoint) -> bool { (p: PnlPoint, q: PnlPoint) => p.ts <= q.ts }

  /** Appends a point unless its timestamp repeats that of the last one. */
  function Kept(kept: seq<PnlPoint>, p: PnlPoint): seq<PnlPoint> {
    if kept != [] && kept[|kept| - 1].ts == p.ts then kept else kept + [p]
  }

  /** Keeps a point unless its timestamp repeats that of the last one kept. */
  function DedupByTs(points: seq<PnlPoint>): seq<PnlPoint>
    decreases |points|
  {
    if points == [] then [] else Kept(DedupByTs(points[..|points| - 1]), points[|points| - 1])
  }

  ghost predicate OnePerTs(points: seq<PnlPoint>) {
    forall p, q :: p in points && q in points && p.ts == q.ts ==> p == q
  }

  lemma SortedLast(init: seq<PnlPoint>, p: PnlPoint)
    requires Sorted(init + [p], TsLe())
    ensures Sorted(init, TsLe()) && forall x :: x in init ==> x.ts <= p.ts
  {
    var all := init + [p];
    forall i, j | 0 <= i < j < |init| ensures TsLe()(init[i], init[j]) {
      assert TsLe()(all[i], all[j]);
    }
    forall x | x in init ensures x.ts <= p.ts {
      var i :| 0 <= i < |init| && init[i] == x;
      assert TsLe()(all[i], all[|init|]);
    }
  }

  /** Sorted points, one per timestamp, come out strictly increasing with nothing lost. */
  lemma {:induction false} DedupKeeps(points: seq<PnlPoint>)
    requires Sorted(points, TsLe()) && OnePerTs(points)
    ensures StrictlyByTime(DedupByTs(points)) && |DedupByTs(points)| <= |points|
    ensures forall p :: p in DedupByTs(points) <==> p in points
    decreases |points|
  {
    if points != [] {
      var init := points[..|points| - 1];
      var p := points[|points| - 1];
      assert points == init + [p];
      SortedLast(init, p);
      assert OnePerTs(init);
      DedupKeeps(init);
      DedupStep(DedupByTs(init), p);
      assert p in points;
    }
  }

  lemma DedupStep(kept: seq<PnlPoint>, p: PnlPoint)
    requires StrictlyByTime(kept) && forall x :: x in kept ==> x.ts <= p.ts && (x.ts == p.ts ==> x == p)
    ensures StrictlyByTime(Kept(kept, p)) && forall x :: x in Kept(kept, p) <==> x in kept || x == p
  {
    assert forall i :: 0 <= i < |kept| ==> kept[i] in kept;
  }

  /** `kept` reaches as low and as high as `all` in measure `s`. */
  ghost predicate Spans(kept: seq<PnlPoint>, all: seq<PnlPoint>, s: Selector) {
    forall p :: p in all ==>
      && (exists q :: q in kept && Value(s, q) <= Value(s, p))
      && (exists q :: q in kept && Value(s, q) >= Value(s, p))
  }

  lemma SpansMore(kept: seq<PnlPoint>, more: seq<PnlPoint>, all: seq<PnlPoint>, s: Selector)
    requires Spans(kept, all, s) && forall p :: p in kept ==> p in more
    ensures Spans(more, all, s)
  {
    forall p | p in all
      ensures exists q :: q in more && Value(s, q) <= Value(s, p)
      ensures exists q :: q in more && Value(s, q) >= Value(s, p)
    {
      var lo :| lo in kept && Value(s, lo) <= Value(s, p);
      var hi :| hi in kept && Value(s, hi) >= Value(s, p);
      assert lo in more && hi in more;
    }
  }

  lemma SpansBoth(kept: seq<PnlPoint>, xs: seq<PnlPoint>, ys: seq<PnlPoint>, s: Selector)
    requires Spans(kept, xs, s) && Spans(kept, ys, s)
    ensures Spans(kept, xs + ys, s)
  {}

  lemma SpansByExtremes(kept: seq<PnlPoint>, all: seq<PnlPoint>, s: Selector, lo: PnlPoint, hi: PnlPoint)
    requires lo in kept && hi in kept
    requires forall p :: p in all ==> Value(s, lo) <= Value(s, p) <= Value(s, hi)
    ensures Spans(kept, all, s)
  {}

  /** Adds the extremes of one measure. */
  method AddExtremes(bucket: seq<PnlPoint>, kept: seq<PnlPoint>, s: Selector) returns (r: seq<PnlPoint>)
    requires bucket != [] && forall p :: p in kept ==> p in bucket
    ensures |r| == |kept| + 2 && forall p :: p in r ==> p in bucket
    ensures Spans(r, bucket, s)
    ensures forall p :: p in kept ==> p in r
  {
    var lo := MinBy(bucket, s);
    var hi := MaxBy(bucket, s);
    r := kept + [lo, hi];
    assert lo == r[|kept|] && hi == r[|kept| + 1];
    SpansByExtremes(r, bucket, s, lo, hi);
  }

  ghost predicate SpansIn(kept: seq<PnlPoint>, all: seq<PnlPoint>, selectors: seq<Selector>) {
    forall i :: 0 <= i < |selectors| ==> Spans(kept, all, selectors[i])
  }

  lemma SpansNext(
    kept: seq<PnlPoint>, more: seq<PnlPoint>, all: seq<PnlPoint>, selectors: seq<Selector>, s: Selector)
    requires SpansIn(kept, all, selectors) && Spans(more, all, s) && forall p :: p in kept ==> p in more
    ensures SpansIn(more, all, selectors + [s])
  {
    forall i | 0 <= i < |selectors| ensures Spans(more, all, selectors[i]) {
      SpansMore(kept, more, all, selectors[i]);
    }
  }

  lemma SpansAll(kept: seq<PnlPoint>, all: seq<PnlPoint>, s: Selector)
    requires SpansIn(kept, all, SELECTORS)
    ensures Spans(kept, all, s)
  {
    assert SELECTORS[Position(s)] == s;
  }

  /** Extremes of all four measures, smallest and largest by turns. */
  method AllExtrema(bucket: seq<PnlPoint>) returns (r: seq<PnlPoint>)
    requires bucket != []
    ensures |r| == 8 && (forall p :: p in r ==> p in bucket) && SpansIn(r, bucket, SELECTORS)
  {
    r := [];
    var k := 0;
    while k < |SELECTORS|
      invariant k <= |SELECTORS| && |r| == 2 * k && forall p :: p in r ==> p in bucket
      invariant SpansIn(r, bucket, SELECTORS[..k])
    {
      ghost var kept := r;
      r := AddExtremes(bucket, r, SELECTORS[k]);
      SpansNext(kept, r, bucket, SELECTORS[..k], SELECTORS[k]);
      assert SELECTORS[..k + 1] == SELECTORS[..k] + [SELECTORS[k]];
      k := k + 1;
    }
    assert SELECTORS[..k] == SELECTORS;
  }

  /** The extremes of one bucket, in time order, each once. */
  method Extrema(bucket: seq<PnlPoint>) returns (r: seq<PnlPoint>)
    requires bucket != [] && StrictlyByTime(bucket)
    ensures StrictlyByTime(r) && |r| <= 8 && forall p :: p in r ==> p in bucket
    ensures forall s: Selector :: Spans(r, bucket, s)
  {
    var extrema := AllExtrema(bucket);
    var sorted := StableSort(extrema, TsLe());
    SortPermutes(extrema, TsLe());
    SortSorts(extrema, TsLe());
    assert OnePerTs(sorted) by {
      forall p, q | p in sorted && q in sorted && p.ts == q.ts ensures p == q {
        assert p in bucket && q in bucket;
      }
    }
    DedupKeeps(sorted);
    r := DedupByTs(sorted);
    forall s: Selector ensures Spans(r, bucket, s) {
      SpansAll(extrema, bucket, s);
      SpansMore(extrema, r, bucket, s);
    }
  }

  function CeilDiv(a: nat, b: nat): nat
    requires b > 0
  {
    (a + b - 1) / b
  }

  lemma CeilDivCovers(a: nat, b: nat)
    requires b > 0
    ensures CeilDiv(a, b) * b >= a && (a > 0 ==> CeilDiv(a, b) > 0)
  {
    var n := a + b - 1;
    assert n == (n / b) * b + n % b;
  }

  lemma MulOrder(a: int, b: int, c: nat)
    ensures a <= b ==> a * c <= b * c
  {}

  /** Buckets that start inside the interior are fewer than the bucket count. */
  lemma BucketsFit(done: nat, count: nat, size: nat, interior: nat)
    requires done * size < interior <= size * count
    ensures done < count
  {
    MulOrder(count, done, size);
  }

  lemma ElementsOfSlice(points: seq<PnlPoint>, lo: nat, hi: nat)
    requires lo <= hi <= |points| && StrictlyByTime(points)
    ensures StrictlyByTime(points[lo..hi])
    ensures forall p :: p in points[lo..hi] ==> p in points
    ensures lo > 0 ==> forall p, q :: p in points[..lo] && q in points[lo..hi] ==> p.ts < q.ts
  {}

  /** `kept` is an ordered selection of the first `n` points that spans them in every measure. */
  ghost predicate Selected(points: seq<PnlPoint>, n: nat, kept: seq<PnlPoint>)
    requires n <= |points|
  {
    && StrictlyByTime(kept) && (forall p :: p in kept ==> p in points[..n])
    && (forall s: Selector :: Spans(kept, points[..n], s))
  }

  lemma SelectFirst(points: seq<PnlPoint>)
    requires points != []
    ensures Selected(points, 1, [points[0]])
  {
    assert points[..1] == [points[0]];
    assert points[0] in [points[0]];
  }

  lemma SelectAll(points: seq<PnlPoint>)
    requires StrictlyByTime(points)
    ensures Selected(points, |points|, points)
  {
    assert points[..|points|] == points;
  }

  lemma SelectLast(points: seq<PnlPoint>, kept: seq<PnlPoint>)
    requires points != [] && StrictlyByTime(points) && Selected(points, |points| - 1, kept)
    ensures Selected(points, |points|, kept + [points[|points| - 1]])
  {
    var last := |points| - 1;
    var end := [points[last]];
    assert points[..last] + end == points == points[..|points|];
    forall i | 0 <= i < |kept| ensures kept[i].ts < points[last].ts {
      assert kept[i] in points[..last];
    }
    forall s: Selector ensures Spans(kept + end, points, s) {
      SpansMore(kept, kept + end, points[..last], s);
      assert Spans(kept + end, end, s) by {
        assert points[last] in kept + end;
      }
      SpansBoth(kept + end, points[..last], end, s);
    }
  }

  /** Selects from the interior, bucket by bucket. */
  method SelectBuckets(points: seq<PnlPoint>, size: nat, count: nat) returns (r: seq<PnlPoint>)
    requires StrictlyByTime(points) && |points| >= 2 && size > 0 && |points| - 2 <= size * count
    ensures Selected(points, |points| - 1, r) && |r| <= 1 + 8 * count && r != [] && r[0] == points[0]
  {
    var last := |points| - 1;
    r := [points[0]];
    SelectFirst(points);
    var at := 1;
    ghost var done := 0;
    while at < last
      invariant 1 <= at <= last && (at == last || at == 1 + done * size)
      invariant |r| <= 1 + 8 * done && done <= count && r != [] && r[0] == points[0]
      invariant Selected(points, at, r)
      decreases last - at
    {
      BucketsFit(done, count, size, last - 1);
      var next := if at + size <= last then at + size else last;
      ElementsOfSlice(points, at, next);
      var extrema := Extrema(points[at..next]);
      AppendBucket(points, r, extrema, at, next);
      r := r + extrema;
      at := next;
      done := done + 1;
    }
  }

  /**
   Downsampling to at most `maxPoints`: an ordered selection of the points that keeps both ends and reaches as
   low and as high as the whole curve in all four measures. Requests for fewer than ten points, and curves that
   are short enough already, come back unchanged.
   */
  method Downsample(points: seq<PnlPoint>, maxPoints: nat) returns (r: seq<PnlPoint>)
    requires StrictlyByTime(points)
    ensures Selected(points, |points|, r)
    ensures points != [] ==> r != [] && r[0] == points[0] && r[|r| - 1] == points[|points| - 1]
    ensures |points| <= maxPoints || maxPoints < 10 ==> r == points
    ensures |r| <= maxPoints <==> |points| <= maxPoints || maxPoints >= 10
  {
    if |points| <= maxPoints || maxPoints < 10 {
      SelectAll(points);
      return points;
    }
    var last := |points| - 1;
    var count := (maxPoints - 2) / 8;
    var size := CeilDiv(last - 1, count);
    CeilDivCovers(last - 1, count);
    r := SelectBuckets(points, size, count);
    SelectLast(points, r);
    r := r + [points[last]];
  }

  /** Appending the extremes of the next bucket. */
  lemma AppendBucket(points: seq<PnlPoint>, kept: seq<PnlPoint>, extrema: seq<PnlPoint>, at: nat, next: nat)
    requires StrictlyByTime(points) && at <= next <= |points|
    requires Selected(points, at, kept)
    requires StrictlyByTime(extrema) && forall p :: p in extrema ==> p in points[at..next]
    requires forall s: Selector :: Spans(extrema, points[at..next], s)
    ensures Selected(points, next, kept + extrema)
  {
    assert points[..next] == points[..at] + points[at..next];
    forall i, j | 0 <= i < |kept| && 0 <= j < |extrema| ensures kept[i].ts < extrema[j].ts {
      assert kept[i] in kept && extrema[j] in extrema;
      assert kept[i] in points[..at] && extrema[j] in points[at..next];
    }
    forall s: Selector ensures Spans(kept + extrema, points[..next], s) {
      SpansMore(kept, kept + extrema, points[..at], s);
      SpansMore(extrema, kept + extrema, points[at..next], s);
      SpansBoth(kept + extrema, points[..at], points[at..next], s);
    }
  }
}
