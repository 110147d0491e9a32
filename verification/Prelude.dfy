/** Shared vocabulary: optional values, results of fallible operations and small arithmetic helpers. */
module Prelude {
  datatype Option<+T> = None | Some(value: T)

  datatype Result<+T, +E> = Ok(value: T) | Err(error: E)

  function Abs(x: real): real { if x < 0.0 then -x else x }

  function Min(x: real, y: real): real { if x <= y then x else y }

  function Max(x: real, y: real): real { if x <= y then y else x }

  function MaxInt(x: int, y: int): int { if x <= y then y else x }

  lemma Distribute(x: real, y: real, g: real)
    ensures (x + y) * g == x * g + y * g
  {}

  lemma ProductSign(x: real, y: real)
    requires x >= 0.0 && y >= 0.0
    ensures x * y >= 0.0
  {}

  lemma DivideTimes(x: real, d: real)
    requires d != 0.0
    ensures x / d * d == x
  {}

  lemma SameQuotient(x: real, y: real, d: real)
    requires d != 0.0 && x * d == y * d
    ensures x == y
  {}

  /** Multiplication by a natural number keeps the order. */
  lemma Times(w: nat, a: nat, b: nat)
    requires a <= b
    ensures w * a <= w * b
  {}

  lemma HeadAndTail<T>(xs: seq<T>)
    requires xs != []
    ensures [xs[0]] + xs[1..] == xs
  {}

  lemma InitAndLast<T>(xs: seq<T>)
    requires xs != []
    ensures xs[..|xs| - 1] + [xs[|xs| - 1]] == xs
  {}
}

/** Sums of a measure over the values of a finite map, independent of any iteration order. */
module MapSum {
  ghost function SumKeys<K(!new), V>(m: map<K, V>, keys: set<K>, f: V -> real): real
    requires keys <= m.Keys
    decreases |keys|
  {
    if keys == {} then 0.0 else
      var k :| k in keys;
      f(m[k]) + SumKeys(m, keys - {k}, f)
  }

  ghost function SumOver<K(!new), V>(m: map<K, V>, f: V -> real): real {
    SumKeys(m, m.Keys, f)
  }

  /** Any key may be split off first. */
  lemma {:induction false} SumSplit<K(!new), V>(m: map<K, V>, keys: set<K>, f: V -> real, k: K)
    requires keys <= m.Keys && k in keys
    ensures SumKeys(m, keys, f) == f(m[k]) + SumKeys(m, keys - {k}, f)
    decreases |keys|
  {
    var j :| j in keys && SumKeys(m, keys, f) == f(m[j]) + SumKeys(m, keys - {j}, f);
    if j != k {
      SumSplit(m, keys - {j}, f, k);
      SumSplit(m, keys - {k}, f, j);
      assert keys - {j} - {k} == keys - {k} - {j};
    }
  }

  lemma {:induction false} SumAgree<K(!new), V>(m: map<K, V>, n: map<K, V>, keys: set<K>, f: V -> real)
    requires keys <= m.Keys && keys <= n.Keys
    requires forall k :: k in keys ==> f(m[k]) == f(n[k])
    ensures SumKeys(m, keys, f) == SumKeys(n, keys, f)
    decreases |keys|
  {
    if keys != {} {
      var k :| k in keys;
      SumSplit(m, keys, f, k);
      SumSplit(n, keys, f, k);
      SumAgree(m, n, keys - {k}, f);
    }
  }

  /** Writing one key moves the sum by the change of that key's measure. */
  lemma SumUpdate<K(!new), V>(m: map<K, V>, k: K, v: V, f: V -> real)
    ensures SumOver(m[k := v], f) == SumOver(m, f) + f(v) - (if k in m then f(m[k]) else 0.0)
  {
    var n := m[k := v];
    SumSplit(n, n.Keys, f, k);
    assert n.Keys - {k} == m.Keys - {k};
    SumAgree(m, n, m.Keys - {k}, f);
    if k in m {
      SumSplit(m, m.Keys, f, k);
    } else {
      assert m.Keys - {k} == m.Keys;
    }
  }
}
