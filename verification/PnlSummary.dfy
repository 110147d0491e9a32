/** The summary over all selected symbols, and its additivity over adjacent windows. */
module PnlSummary {
  import opened Prelude
  import opened MapSum
  import opened SymbolLedger
  import opened PnlSweep
  import opened PnlWindows

  datatype Amount = Volume | FeeBefore | TradingFee | FeeAfter | FundingPnl | InterestCost | Floating | Total

  datatype Count = Trades | UnconvertedFees | UnconvertedInterest

  function AmountOf(f: Amount): Metrics -> real {
    (m: Metrics) =>
      match f
      case Volume => m.volume
      case FeeBefore => m.feeBefore
      case TradingFee => m.tradingFee
      case FeeAfter => m.feeAfter
      case FundingPnl => m.funding
      case InterestCost => m.interest
      case Floating => m.floating
      case Total => m.total
  }

  function CountOf(c: Count): Metrics -> real {
    (m: Metrics) =>
      (match c
       case Trades => m.tradeCount
       case UnconvertedFees => m.unconvertedFees
       case UnconvertedInterest => m.unconvertedInterest) as real
  }

  const NO_METRICS := Metrics(0, 0.0, 0.0, 0.0, 0.0, 0.0, 0.0, 0.0, 0.0, 0, 0)

  function Plus(x: Metrics, y: Metrics): Metrics {
    Metrics(x.tradeCount + y.tradeCount, x.volume + y.volume, x.feeBefore + y.feeBefore, x.tradingFee + y.tradingFee,
            x.feeAfter + y.feeAfter, x.funding + y.funding, x.interest + y.interest, x.floating + y.floating,
            x.total + y.total, x.unconvertedFees + y.unconvertedFees, x.unconvertedInterest + y.unconvertedInterest)
  }

  /** `t` holds, field by field, the sums of the rows of `keys`. */
  ghost predicate Totals(t: Metrics, rows: map<string, Metrics>, keys: set<string>)
    requires keys <= rows.Keys
  {
    (forall f :: AmountOf(f)(t) == SumKeys(rows, keys, AmountOf(f)))
    && (forall c :: CountOf(c)(t) == SumKeys(rows, keys, CountOf(c)))
  }

  lemma TotalsGrow(t: Metrics, rows: map<string, Metrics>, keys: set<string>, k: string)
    requires keys <= rows.Keys && k in rows && k !in keys && Totals(t, rows, keys)
    ensures Totals(Plus(t, rows[k]), rows, keys + {k})
  {
    assert keys + {k} - {k} == keys;
    forall f ensures AmountOf(f)(Plus(t, rows[k])) == SumKeys(rows, keys + {k}, AmountOf(f)) {
      SumSplit(rows, keys + {k}, AmountOf(f), k);
      assert AmountOf(f)(t) == SumKeys(rows, keys, AmountOf(f));
    }
    forall c ensures CountOf(c)(Plus(t, rows[k])) == SumKeys(rows, keys + {k}, CountOf(c)) {
      SumSplit(rows, keys + {k}, CountOf(c), k);
      assert CountOf(c)(t) == SumKeys(rows, keys, CountOf(c));
    }
  }

  lemma NoTotals(rows: map<string, Metrics>)
    ensures Totals(NO_METRICS, rows, {})
  {}

  /** Adds up the rows of the selected symbols. */
  method Aggregate(rows: map<string, Metrics>, selected: set<string>) returns (t: Metrics)
    requires selected <= rows.Keys
    ensures Totals(t, rows, selected)
  {
    hide Totals, Plus;
    t := NO_METRICS;
    NoTotals(rows);
    var done, rest := {}, selected;
    while rest != {}
      invariant done <= selected && rest == selected - done && Totals(t, rows, done)
      decreases |rest|
    {
      var k :| k in rest;
      TotalsGrow(t, rows, done, k);
      t := Plus(t, rows[k]);
      done, rest := done + {k}, rest - {k};
    }
    assert done == selected;
  }

  // ---- Sums of nearly additive rows

  ghost predicate NearAt(
    x: map<string, Metrics>, y: map<string, Metrics>, w: map<string, Metrics>, f: Amount, k: string)
  {
    k in x && k in y && k in w && Near(AmountOf(f)(x[k]) + AmountOf(f)(y[k]), AmountOf(f)(w[k]))
  }

  lemma NearSums(one: real, rest: real, n: nat)
    requires Abs(one) <= TOLERANCE && Abs(rest) <= TOLERANCE * n as real
    ensures Abs(rest + one) <= TOLERANCE * (n + 1) as real
  {
    assert (n + 1) as real == n as real + 1.0;
  }

  /** By how much the rows of `keys` miss being additive in one amount. */
  ghost function Miss(
    x: map<string, Metrics>, y: map<string, Metrics>, w: map<string, Metrics>, keys: set<string>, f: Amount): real
    requires keys <= x.Keys && keys <= y.Keys && keys <= w.Keys
  {
    SumKeys(x, keys, AmountOf(f)) + SumKeys(y, keys, AmountOf(f)) - SumKeys(w, keys, AmountOf(f))
  }

  lemma MissSplit(
    x: map<string, Metrics>, y: map<string, Metrics>, w: map<string, Metrics>, keys: set<string>, f: Amount, k: string)
    requires keys <= x.Keys && keys <= y.Keys && keys <= w.Keys && k in keys
    ensures Miss(x, y, w, keys, f)
            == Miss(x, y, w, keys - {k}, f) + (AmountOf(f)(x[k]) + AmountOf(f)(y[k]) - AmountOf(f)(w[k]))
  {
    SumSplit(x, keys, AmountOf(f), k);
    SumSplit(y, keys, AmountOf(f), k);
    SumSplit(w, keys, AmountOf(f), k);
    hide SumKeys, AmountOf;
  }

  lemma {:induction false} SumsNear(
    x: map<string, Metrics>, y: map<string, Metrics>, w: map<string, Metrics>, keys: set<string>, f: Amount)
    requires keys <= x.Keys && keys <= y.Keys && keys <= w.Keys
    requires forall k :: k in keys ==> NearAt(x, y, w, f, k)
    ensures Abs(Miss(x, y, w, keys, f)) <= TOLERANCE * |keys| as real
    decreases |keys|
  {
    if keys != {} {
      var k :| k in keys;
      assert NearAt(x, y, w, f, k);
      hide Miss, AmountOf, NearAt;
      SumsNear(x, y, w, keys - {k}, f);
      MissSplit(x, y, w, keys, f, k);
      NearSums(AmountOf(f)(x[k]) + AmountOf(f)(y[k]) - AmountOf(f)(w[k]), Miss(x, y, w, keys - {k}, f), |keys| - 1);
    }
  }

  ghost predicate ExactAt(
    x: map<string, Metrics>, y: map<string, Metrics>, w: map<string, Metrics>, c: Count, k: string)
  {
    k in x && k in y && k in w && CountOf(c)(x[k]) + CountOf(c)(y[k]) == CountOf(c)(w[k])
  }

  lemma {:induction false} SumsExact(
    x: map<string, Metrics>, y: map<string, Metrics>, w: map<string, Metrics>, keys: set<string>, c: Count)
    requires keys <= x.Keys && keys <= y.Keys && keys <= w.Keys
    requires forall k :: k in keys ==> ExactAt(x, y, w, c, k)
    ensures SumKeys(x, keys, CountOf(c)) + SumKeys(y, keys, CountOf(c)) == SumKeys(w, keys, CountOf(c))
    decreases |keys|
  {
    if keys != {} {
      hide SumKeys, CountOf;
      var k :| k in keys;
      SumSplit(x, keys, CountOf(c), k);
      SumSplit(y, keys, CountOf(c), k);
      SumSplit(w, keys, CountOf(c), k);
      SumsExact(x, y, w, keys - {k}, c);
      assert ExactAt(x, y, w, c, k);
    }
  }

  // ---- Windows

  ghost function Windows(initial: States, events: seq<PnlEvent>, startMs: int, endMs: int, selected: set<string>)
    : (r: map<string, Metrics>)
    ensures r.Keys == selected
  {
    map k | k in selected :: Window(initial, events, startMs, endMs, k)
  }

  lemma RowAddsUp(x: map<string, Metrics>, y: map<string, Metrics>, w: map<string, Metrics>, k: string)
    requires k in x && k in y && k in w && AddsUp(x[k], y[k], w[k])
    ensures forall f :: NearAt(x, y, w, f, k)
    ensures forall c :: ExactAt(x, y, w, c, k)
  {
    hide Near;
  }

  /**
   Over all selected symbols, the summaries of adjacent windows add up to that of the whole: counts exactly, amounts
   up to three cleanings a symbol.
   */
  lemma SelectedWindowsAdd(
    initial: States, events: seq<PnlEvent>, a: int, m: int, b: int, selected: set<string>,
    x: Metrics, y: Metrics, whole: Metrics)
    requires ByTime(events) && a <= m <= b
    requires forall k :: k in selected ==> Replayable(initial, events, b, k)
    requires Totals(x, Windows(initial, events, a, m - 1, selected), selected)
    requires Totals(y, Windows(initial, events, m, b, selected), selected)
    requires Totals(whole, Windows(initial, events, a, b, selected), selected)
    ensures forall f :: Abs(AmountOf(f)(x) + AmountOf(f)(y) - AmountOf(f)(whole)) <= TOLERANCE * |selected| as real
    ensures forall c :: CountOf(c)(x) + CountOf(c)(y) == CountOf(c)(whole)
  {
    var xs, ys := Windows(initial, events, a, m - 1, selected), Windows(initial, events, m, b, selected);
    var ws := Windows(initial, events, a, b, selected);
    forall k | k in selected ensures AddsUp(xs[k], ys[k], ws[k]) {
      AdjacentWindowsAdd(initial, events, a, m, b, k);
    }
    hide *;
    RowsAdd(xs, ys, ws, selected, x, y, whole);
  }

  lemma RowsAdd(xs: map<string, Metrics>, ys: map<string, Metrics>, ws: map<string, Metrics>, keys: set<string>,
                x: Metrics, y: Metrics, whole: Metrics)
    requires xs.Keys == keys && ys.Keys == keys && ws.Keys == keys
    requires forall k :: k in keys ==> AddsUp(xs[k], ys[k], ws[k])
    requires Totals(x, xs, keys) && Totals(y, ys, keys) && Totals(whole, ws, keys)
    ensures forall f :: Abs(AmountOf(f)(x) + AmountOf(f)(y) - AmountOf(f)(whole)) <= TOLERANCE * |keys| as real
    ensures forall c :: CountOf(c)(x) + CountOf(c)(y) == CountOf(c)(whole)
  {
    hide AddsUp, SumKeys, AmountOf, CountOf, NearAt, ExactAt;
    forall k | k in keys ensures (forall f :: NearAt(xs, ys, ws, f, k)) && (forall c :: ExactAt(xs, ys, ws, c, k)) {
      RowAddsUp(xs, ys, ws, k);
    }
    forall f ensures Abs(AmountOf(f)(x) + AmountOf(f)(y) - AmountOf(f)(whole)) <= TOLERANCE * |keys| as real {
      SumsNear(xs, ys, ws, keys, f);
    }
    forall c ensures CountOf(c)(x) + CountOf(c)(y) == CountOf(c)(whole) {
      SumsExact(xs, ys, ws, keys, c);
    }
  }
}
