/** Thinning a series to evenly spaced points. */
module ComboSampling {
  import opened Prelude
  import opened ComboAccounting

  /** The source index of the `slot`-th of `slots + 1` kept points. */
  function Index(slot: nat, last: nat, slots: nat): nat
    requires slots > 0
  {
    slot * last / slots
  }

  lemma DivideStep(x: nat, y: nat, d: nat)
    requires d > 0 && x + d <= y
    ensures x / d < y / d
  {
    var a, b := x / d, y / d;
    Quotient(x, d);
    Quotient(y, d);
    if b <= a {
      Times(d, b, a);
      assert false;
    }
  }

  lemma Quotient(x: nat, d: nat)
    requires d > 0
    ensures d * (x / d) <= x < d * (x / d) + d
  {
    assert x == d * (x / d) + x % d;
  }

  /** With at least as many source steps as slots, indices strictly increase. */
  lemma IndexIncreases(slot: nat, last: nat, slots: nat)
    requires slots > 0 && last >= slots
    ensures Index(slot, last, slots) < Index(slot + 1, last, slots)
  {
    assert (slot + 1) * last == slot * last + last;
    DivideStep(slot * last, (slot + 1) * last, slots);
  }

  lemma LastIndex(last: nat, slots: nat)
    requires slots > 0
    ensures Index(slots, last, slots) == last && Index(0, last, slots) == 0
  {
    var q := Index(slots, last, slots);
    Quotient(slots * last, slots);
    if q < last {
      Times(slots, q + 1, last);
      Successor(slots, q);
      assert false;
    } else if last < q {
      Times(slots, last + 1, q);
      Successor(slots, last);
      assert false;
    }
  }

  lemma Successor(d: nat, q: nat)
    ensures d * (q + 1) == d * q + d
  {}

  /** `r` is `points` at strictly increasing positions. */
  ghost predicate Subsequence(r: seq<Point>, points: seq<Point>, at: seq<nat>) {
    && |at| == |r|
    && (forall i :: 0 <= i < |at| ==> at[i] < |points| && r[i] == points[at[i]])
    && (forall i, j :: 0 <= i < j < |at| ==> at[i] < at[j])
  }

  /**
   A series that is too long keeps exactly `maxPoints` points, in order, the first and the last among them. The one
   point of a limit of one is the last.
   */
  method Downsample(points: seq<Point>, maxPoints: nat) returns (r: seq<Point>, ghost at: seq<nat>)
    requires maxPoints > 0 || points == []
    ensures Subsequence(r, points, at)
    ensures |points| <= maxPoints ==> r == points
    ensures |points| > maxPoints ==> |r| == maxPoints && r[|r| - 1] == points[|points| - 1]
    ensures |points| > maxPoints > 1 ==> r[0] == points[0]
  {
    if |points| <= maxPoints {
      at := seq(|points|, i => i);
      return points, at;
    }
    var last := |points| - 1;
    var slots := maxPoints - 1;
    r, at := [], [];
    var slot := 0;
    while slot < maxPoints
      invariant slot <= maxPoints && |r| == slot && Subsequence(r, points, at)
      invariant slots > 0 ==> forall i :: 0 <= i < slot ==> at[i] == Index(i, last, slots)
      invariant slot == maxPoints ==> r[slots] == points[last]
    {
      var index := last;
      if slots > 0 {
        LastIndex(last, slots);
        hide Index;
        if slot != slots {
          index := Index(slot, last, slots);
          IndicesGrow(slot, slots, last, slots);
        }
        if slot > 0 {
          IndexIncreases(slot - 1, last, slots);
          forall i | 0 <= i < slot ensures at[i] < index {
            IndicesGrow(i, slot, last, slots);
          }
        }
      }
      r, at := r + [points[index]], at + [index];
      slot := slot + 1;
    }
    if slots > 0 {
      LastIndex(last, slots);
    }
  }

  lemma {:induction false} IndicesGrow(i: nat, j: nat, last: nat, slots: nat)
    requires slots > 0 && last >= slots && i < j
    ensures Index(i, last, slots) < Index(j, last, slots)
    decreases j
  {
    IndexIncreases(j - 1, last, slots);
    if i < j - 1 {
      IndicesGrow(i, j - 1, last, slots);
    }
  }
}
