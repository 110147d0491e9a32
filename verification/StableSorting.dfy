/**
 A stable sort by a total preorder, with the facts callers need: it is a sorted permutation, it leaves sorted
 input alone, it is unaffected by the input order when no two elements tie, and it distributes over the
 concatenation of ordered batches.
 */
module StableSorting {
  ghost predicate TotalPreorder<T(!new)>(le: (T, T) -> bool) {
    && (forall a, b :: le(a, b) || le(b, a))
    && (forall a, b, c :: le(a, b) && le(b, c) ==> le(a, c))
  }

  ghost predicate Sorted<T(!new)>(xs: seq<T>, le: (T, T) -> bool) {
    forall i, j :: 0 <= i < j < |xs| ==> le(xs[i], xs[j])
  }

  /** No two positions of `xs` compare as equal. */
  ghost predicate NoTies<T(!new)>(xs: seq<T>, le: (T, T) -> bool) {
    forall i, j :: 0 <= i < j < |xs| ==> !(le(xs[i], xs[j]) && le(xs[j], xs[i]))
  }

  ghost predicate AllLe<T(!new)>(xs: seq<T>, ys: seq<T>, le: (T, T) -> bool) {
    forall x, y :: x in xs && y in ys ==> le(x, y)
  }

  function Insert<T>(x: T, xs: seq<T>, le: (T, T) -> bool): seq<T> {
    if xs == [] || le(x, xs[0]) then [x] + xs else [xs[0]] + Insert(x, xs[1..], le)
  }

  function StableSort<T>(xs: seq<T>, le: (T, T) -> bool): seq<T> {
    if xs == [] then [] else Insert(xs[0], StableSort(xs[1..], le), le)
  }

  lemma {:induction false} InsertPermutes<T>(x: T, xs: seq<T>, le: (T, T) -> bool)
    ensures multiset(Insert(x, xs, le)) == multiset(xs) + multiset{x}
  {
    if xs != [] && !le(x, xs[0]) {
      InsertPermutes(x, xs[1..], le);
      assert xs == [xs[0]] + xs[1..];
    }
  }

  lemma {:induction false} InsertSorted<T(!new)>(x: T, xs: seq<T>, le: (T, T) -> bool)
    requires TotalPreorder(le) && Sorted(xs, le)
    ensures Sorted(Insert(x, xs, le), le)
  {
    if xs != [] && !le(x, xs[0]) {
      InsertSorted(x, xs[1..], le);
      InsertPermutes(x, xs[1..], le);
      var rest := Insert(x, xs[1..], le);
      forall j | 0 <= j < |rest| ensures le(xs[0], rest[j]) {
        assert rest[j] in multiset(rest);
      }
    }
  }

  lemma {:induction false} SortPermutes<T>(xs: seq<T>, le: (T, T) -> bool)
    ensures multiset(StableSort(xs, le)) == multiset(xs)
    ensures |StableSort(xs, le)| == |xs|
    ensures forall x :: x in StableSort(xs, le) <==> x in xs
  {
    if xs != [] {
      SortPermutes(xs[1..], le);
      InsertPermutes(xs[0], StableSort(xs[1..], le), le);
      assert xs == [xs[0]] + xs[1..];
    }
    SameBag(StableSort(xs, le), xs);
  }

  lemma SameBag<T>(xs: seq<T>, ys: seq<T>)
    requires multiset(xs) == multiset(ys)
    ensures |xs| == |ys| && forall x :: x in xs <==> x in ys
  {
    assert |multiset(xs)| == |xs| && |multiset(ys)| == |ys|;
    assert forall x :: x in xs <==> x in multiset(xs);
    assert forall x :: x in ys <==> x in multiset(ys);
  }

  lemma {:induction false} SortSorts<T(!new)>(xs: seq<T>, le: (T, T) -> bool)
    requires TotalPreorder(le)
    ensures Sorted(StableSort(xs, le), le)
  {
    if xs != [] {
      SortSorts(xs[1..], le);
      InsertSorted(xs[0], StableSort(xs[1..], le), le);
    }
  }

  lemma {:induction false} SortedUnchanged<T(!new)>(xs: seq<T>, le: (T, T) -> bool)
    requires Sorted(xs, le)
    ensures StableSort(xs, le) == xs
  {
    if xs != [] {
      SortedUnchanged(xs[1..], le);
    }
  }

  /** The elements that tie with `x`, as they come. */
  function Tied<T>(xs: seq<T>, x: T, le: (T, T) -> bool): seq<T> {
    if xs == [] then [] else (if le(xs[0], x) && le(x, xs[0]) then [xs[0]] else []) + Tied(xs[1..], x, le)
  }

  lemma TiedHead<T>(y: T, xs: seq<T>, x: T, le: (T, T) -> bool)
    ensures Tied([y] + xs, x, le) == if le(y, x) && le(x, y) then [y] + Tied(xs, x, le) else Tied(xs, x, le)
  {
    assert ([y] + xs)[1..] == xs;
    assert [] + Tied(xs, x, le) == Tied(xs, x, le);
  }

  lemma {:induction false} InsertIsStable<T(!new)>(y: T, xs: seq<T>, x: T, le: (T, T) -> bool)
    requires TotalPreorder(le)
    ensures Tied(Insert(y, xs, le), x, le) == if le(y, x) && le(x, y) then [y] + Tied(xs, x, le) else Tied(xs, x, le)
  {
    if xs == [] || le(y, xs[0]) {
      TiedHead(y, xs, x, le);
    } else {
      var head, rest := xs[0], xs[1..];
      assert xs == [head] + rest && Insert(y, xs, le) == [head] + Insert(y, rest, le);
      assert !(le(y, x) && le(x, y) && le(head, x) && le(x, head));
      InsertIsStable(y, rest, x, le);
      TiedHead(head, rest, x, le);
      TiedHead(head, Insert(y, rest, le), x, le);
      hide Tied, Insert, TotalPreorder;
    }
  }

  /** Elements that tie keep their order. */
  lemma {:induction false} SortIsStable<T(!new)>(xs: seq<T>, x: T, le: (T, T) -> bool)
    requires TotalPreorder(le)
    ensures Tied(StableSort(xs, le), x, le) == Tied(xs, x, le)
  {
    if xs != [] {
      SortIsStable(xs[1..], x, le);
      InsertIsStable(xs[0], StableSort(xs[1..], le), x, le);
      TiedHead(xs[0], xs[1..], x, le);
      assert [xs[0]] + xs[1..] == xs;
    }
  }

  lemma SortedHead<T(!new)>(xs: seq<T>, ys: seq<T>, le: (T, T) -> bool)
    requires Sorted(xs, le) && Sorted(ys, le) && NoTies(xs, le)
    requires xs != [] && ys != [] && ys[0] in xs && xs[0] in ys
    ensures xs[0] == ys[0]
  {
    var i :| 0 <= i < |xs| && xs[i] == ys[0];
    var j :| 0 <= j < |ys| && ys[j] == xs[0];
    assert i == 0 || j == 0;
  }

  /** A sequence without ties has at most one sorted arrangement. */
  lemma {:induction false} SortedUnique<T(!new)>(xs: seq<T>, ys: seq<T>, le: (T, T) -> bool)
    requires Sorted(xs, le) && Sorted(ys, le) && NoTies(xs, le)
    requires multiset(xs) == multiset(ys)
    ensures xs == ys
    decreases |xs|
  {
    SameBag(xs, ys);
    if xs != [] {
      assert ys[0] in ys && xs[0] in xs;
      SortedHead(xs, ys, le);
      SortedTail(xs, le);
      SortedTail(ys, le);
      hide Sorted, NoTies;
      BagTail(xs);
      BagTail(ys);
      SortedUnique(xs[1..], ys[1..], le);
    }
  }

  lemma SortedTail<T(!new)>(xs: seq<T>, le: (T, T) -> bool)
    requires Sorted(xs, le) && xs != []
    ensures Sorted(xs[1..], le) && (NoTies(xs, le) ==> NoTies(xs[1..], le))
  {}

  lemma BagTail<T>(xs: seq<T>)
    requires xs != []
    ensures xs == [xs[0]] + xs[1..] && multiset(xs[1..]) == multiset(xs) - multiset{xs[0]}
  {
    assert xs == [xs[0]] + xs[1..];
  }

  /** Sorting forgets the input order when no two elements tie. */
  lemma SortOfPermutation<T(!new)>(xs: seq<T>, ys: seq<T>, le: (T, T) -> bool)
    requires TotalPreorder(le) && NoTies(StableSort(xs, le), le)
    requires multiset(xs) == multiset(ys)
    ensures StableSort(xs, le) == StableSort(ys, le)
  {
    SortPermutes(xs, le);
    SortPermutes(ys, le);
    SortSorts(xs, le);
    SortSorts(ys, le);
    SortedUnique(StableSort(xs, le), StableSort(ys, le), le);
  }

  lemma {:induction false} InsertBefore<T(!new)>(x: T, xs: seq<T>, ys: seq<T>, le: (T, T) -> bool)
    requires AllLe([x], ys, le)
    ensures Insert(x, xs + ys, le) == Insert(x, xs, le) + ys
  {
    if xs == [] {
      assert xs + ys == ys;
      assert ys != [] ==> x in [x] && ys[0] in ys;
    } else if !le(x, xs[0]) {
      assert (xs + ys)[1..] == xs[1..] + ys;
      InsertBefore(x, xs[1..], ys, le);
    }
  }

  /** Sorting ordered batches one by one is sorting them all at once. */
  lemma {:induction false} SortConcat<T(!new)>(xs: seq<T>, ys: seq<T>, le: (T, T) -> bool)
    requires AllLe(xs, ys, le)
    ensures StableSort(xs + ys, le) == StableSort(xs, le) + StableSort(ys, le)
  {
    if xs == [] {
      assert xs + ys == ys;
    } else {
      assert (xs + ys)[1..] == xs[1..] + ys;
      SortConcat(xs[1..], ys, le);
      SortPermutes(ys, le);
      assert xs[0] in xs;
      InsertBefore(xs[0], StableSort(xs[1..], le), StableSort(ys, le), le);
    }
  }
}
