/**
 The edit-distance table behind slug suggestions: its last cell is the least number of single-character
 insertions, deletions and substitutions that turn one string into the other.
 */
module EditDistance {
  import opened Prelude

  function Least(a: nat, b: nat, c: nat): nat {
    var m := if a <= b then a else b;
    if m <= c then m else c
  }

  function Front(s: string): string
    requires s != []
  {
    s[..|s| - 1]
  }

  /** The recurrence on prefixes, last characters first. */
  function Lev(s: string, t: string): nat
    decreases |s| + |t|
  {
    if s == [] then |t|
    else if t == [] then |s|
    else
      Least(Lev(Front(s), t) + 1, Lev(s, Front(t)) + 1, Lev(Front(s), Front(t)) + Cost(s, t))
  }

  /** What matching the last characters with each other costs. */
  function Cost(s: string, t: string): nat
    requires s != [] && t != []
  {
    if s[|s| - 1] == t[|t| - 1] then 0 else 1
  }

  // ---- The table

  /** The distance between the first `i` and the first `j` characters. */
  ghost function Cell(left: string, right: string, i: nat, j: nat): nat
    requires i <= |left| && j <= |right|
  {
    Lev(left[..i], right[..j])
  }

  lemma CellBorder(left: string, right: string)
    ensures forall i :: 0 <= i <= |left| ==> Cell(left, right, i, 0) == i
    ensures forall j :: 0 <= j <= |right| ==> Cell(left, right, 0, j) == j
  {}

  lemma CellInside(left: string, right: string, i: nat, j: nat)
    requires 0 < i <= |left| && 0 < j <= |right|
    ensures Cell(left, right, i, j)
            == Least(Cell(left, right, i - 1, j) + 1, Cell(left, right, i, j - 1) + 1,
                     Cell(left, right, i - 1, j - 1) + (if left[i - 1] == right[j - 1] then 0 else 1))
  {
    assert left[..i][..i - 1] == left[..i - 1] && right[..j][..j - 1] == right[..j - 1];
  }

  /** Fills the table row by row. */
  method Levenshtein(left: string, right: string) returns (distance: nat)
    ensures distance == Lev(left, right)
  {
    var distances := new nat[|left| + 1, |right| + 1];
    var row := 0;
    while row <= |left|
      invariant row <= |left| + 1
      invariant forall i :: 0 <= i < row ==> distances[i, 0] == i
    {
      distances[row, 0] := row;
      row := row + 1;
    }
    var col := 0;
    while col <= |right|
      invariant col <= |right| + 1
      invariant forall i :: 0 <= i <= |left| ==> distances[i, 0] == i
      invariant forall j :: 0 <= j < col ==> distances[0, j] == j
    {
      distances[0, col] := col;
      col := col + 1;
    }
    CellBorder(left, right);
    hide Cell, Least;
    row := 1;
    while row <= |left|
      invariant 1 <= row <= |left| + 1
      invariant forall i :: 0 <= i <= |left| ==> distances[i, 0] == Cell(left, right, i, 0)
      invariant forall i, j :: 0 <= i < row && 0 <= j <= |right| ==> distances[i, j] == Cell(left, right, i, j)
    {
      FillRow(left, right, distances, row);
      row := row + 1;
    }
    LastCell(left, right);
    distance := distances[|left|, |right|];
  }

  ghost predicate RowDone(left: string, right: string, distances: array2<nat>, row: nat)
    requires distances.Length0 == |left| + 1 && distances.Length1 == |right| + 1 && row <= |left|
    reads distances
  {
    forall j :: 0 <= j <= |right| ==> distances[row, j] == Cell(left, right, row, j)
  }

  lemma LastCell(left: string, right: string)
    ensures Cell(left, right, |left|, |right|) == Lev(left, right)
  {
    assert left[..|left|] == left && right[..|right|] == right;
  }

  /** Completes one row from the row above it. */
  method FillRow(left: string, right: string, distances: array2<nat>, row: nat)
    requires distances.Length0 == |left| + 1 && distances.Length1 == |right| + 1 && 0 < row <= |left|
    requires distances[row, 0] == Cell(left, right, row, 0)
    requires RowDone(left, right, distances, row - 1)
    modifies distances
    ensures RowDone(left, right, distances, row)
    ensures forall i, j :: 0 <= i <= |left| && i != row && 0 <= j <= |right| ==>
              distances[i, j] == old(distances[i, j])
  {
    hide Cell;
    var col := 1;
    while col <= |right|
      invariant 1 <= col <= |right| + 1
      invariant forall j :: 0 <= j < col ==> distances[row, j] == Cell(left, right, row, j)
      invariant forall i, j :: 0 <= i <= |left| && i != row && 0 <= j <= |right| ==>
                  distances[i, j] == old(distances[i, j])
    {
      var cost := if left[row - 1] == right[col - 1] then 0 else 1;
      assert distances[row - 1, col] == Cell(left, right, row - 1, col);
      assert distances[row - 1, col - 1] == Cell(left, right, row - 1, col - 1);
      CellInside(left, right, row, col);
      distances[row, col] :=
        Least(distances[row - 1, col] + 1, distances[row, col - 1] + 1, distances[row - 1, col - 1] + cost);
      col := col + 1;
    }
  }

  // ---- Edits at any position

  datatype Edit = InsertAt(at: nat, c: char) | DeleteAt(at: nat) | ReplaceAt(at: nat, c: char)

  predicate Applies(e: Edit, s: string) { if e.InsertAt? then e.at <= |s| else e.at < |s| }

  function Apply(e: Edit, s: string): string
    requires Applies(e, s)
  {
    match e
    case InsertAt(i, c) => s[..i] + [c] + s[i..]
    case DeleteAt(i) => s[..i] + s[i + 1..]
    case ReplaceAt(i, c) => s[..i] + [c] + s[i + 1..]
  }

  /** The script turns `s` into `t`, edit by edit. */
  predicate Turns(script: seq<Edit>, s: string, t: string)
    decreases |script|
  {
    if script == [] then s == t
    else Applies(script[0], s) && Turns(script[1..], Apply(script[0], s), t)
  }

  // ---- Lower bound: no edit changes the distance by more than one

  lemma {:induction false} LevAppend(s: string, t: string, c: char)
    ensures Lev(s + [c], t) <= Lev(s, t) + 1 && Lev(s, t) <= Lev(s + [c], t) + 1
    decreases |s| + |t|
  {
    var sc := s + [c];
    assert sc[..|sc| - 1] == s;
    if t != [] {
      var t' := t[..|t| - 1];
      LevAppend(s, t', c);
      if s != [] {
        LevDrop(s, t);
      }
      LevNear(s, t);
    }
  }

  /** Dropping the last character of `t` moves the distance by at most one. */
  lemma {:induction false} LevNear(s: string, t: string)
    requires t != []
    ensures Lev(s, t) <= Lev(s, t[..|t| - 1]) + 1 && Lev(s, t[..|t| - 1]) <= Lev(s, t) + 1
    decreases |s| + |t|
  {
    var t' := t[..|t| - 1];
    if s != [] {
      LevNear(s[..|s| - 1], t);
      if t' != [] {
        LevDrop(s, t');
      }
      LevShort(s, t);
    }
  }

  lemma LevDrop(s: string, t: string)
    requires s != []
    ensures Lev(s, t) <= Lev(s[..|s| - 1], t) + 1
  {}

  lemma LevShort(s: string, t: string)
    requires s != [] && t != []
    ensures Lev(s, t[..|t| - 1]) <= Lev(s[..|s| - 1], t[..|t| - 1]) + 1
  {}

  lemma {:induction false} LevReplace(s: string, t: string, x: char, c: char)
    ensures Lev(s + [x], t) <= Lev(s + [c], t) + 1
    decreases |t|
  {
    var sx, sc := s + [x], s + [c];
    assert sx[..|sx| - 1] == s && sc[..|sc| - 1] == s;
    if t != [] {
      LevReplace(s, t[..|t| - 1], x, c);
    }
  }

  /** An edit before the last character leaves that character alone. */
  lemma ApplyBeforeLast(e: Edit, s: string)
    requires Applies(e, s) && s != [] && Applies(e, s[..|s| - 1])
    ensures Apply(e, s) == Apply(e, s[..|s| - 1]) + [s[|s| - 1]]
  {
    var s' := s[..|s| - 1];
    BeforeLast(s, e.at);
    if !e.InsertAt? {
      BeforeLast(s, e.at + 1);
    }
  }

  lemma BeforeLast(s: string, i: nat)
    requires i < |s|
    ensures s[..|s| - 1][..i] == s[..i] && s[i..] == s[..|s| - 1][i..] + [s[|s| - 1]]
  {}

  /** Dropping a common last character cannot lose more than the edit did. */
  lemma FrontsMove(s: string, r: string, t: string)
    requires s != [] && r != [] && s[|s| - 1] == r[|r| - 1]
    requires Lev(Front(s), t) <= Lev(Front(r), t) + 1
    requires t != [] ==> Lev(s, Front(t)) <= Lev(r, Front(t)) + 1
    requires t != [] ==> Lev(Front(s), Front(t)) <= Lev(Front(r), Front(t)) + 1
    requires |s| <= |r| + 1
    ensures Lev(s, t) <= Lev(r, t) + 1
  {
    hide *;
    if t == [] {
      NoRight(s);
      NoRight(r);
    } else {
      SameCost(s, r, t);
      LevStep(s, t);
      LevStep(r, t);
      LeastMoves(Lev(Front(s), t), Lev(s, Front(t)), Lev(Front(s), Front(t)),
                 Lev(Front(r), t), Lev(r, Front(t)), Lev(Front(r), Front(t)),
                 Cost(s, t));
    }
  }

  lemma SameCost(s: string, r: string, t: string)
    requires s != [] && r != [] && t != [] && s[|s| - 1] == r[|r| - 1]
    ensures Cost(s, t) == Cost(r, t)
  {}

  lemma LeastMoves(a: nat, b: nat, c: nat, x: nat, y: nat, z: nat, cost: nat)
    requires a <= x + 1 && b <= y + 1 && c <= z + 1
    ensures Least(a + 1, b + 1, c + cost) <= Least(x + 1, y + 1, z + cost) + 1
  {}

  lemma {:induction false} EditMovesByOne(e: Edit, s: string, t: string)
    requires Applies(e, s)
    ensures Lev(s, t) <= Lev(Apply(e, s), t) + 1
    decreases |s| + |t|
  {
    hide *;
    if s != [] && Applies(e, Front(s)) {
      EditFronts(e, s);
      EditMovesByOne(e, Front(s), t);
      if t != [] {
        FrontLength(t);
        EditMovesByOne(e, s, Front(t));
        EditMovesByOne(e, Front(s), Front(t));
      }
      EditLength(e, s);
      FrontsMove(s, Apply(e, s), t);
    } else {
      EditAtEnd(e, s, t);
    }
  }

  lemma FrontLength(s: string)
    requires s != []
    ensures |Front(s)| == |s| - 1
  {}

  /** An edit before the last character is an edit of the front. */
  lemma EditFronts(e: Edit, s: string)
    requires Applies(e, s) && s != [] && Applies(e, Front(s))
    ensures var r := Apply(e, s);
            |Front(s)| == |s| - 1 && r != [] && Front(r) == Apply(e, Front(s)) && r[|r| - 1] == s[|s| - 1]
  {
    ApplyBeforeLast(e, s);
  }

  lemma EditLength(e: Edit, s: string)
    requires Applies(e, s)
    ensures |s| - 1 <= |Apply(e, s)| <= |s| + 1
  {}

  lemma EditAtEnd(e: Edit, s: string, t: string)
    requires Applies(e, s) && (s == [] || !Applies(e, Front(s)))
    ensures Lev(s, t) <= Lev(Apply(e, s), t) + 1
  {
    match e
    case InsertAt(i, c) =>
      assert Apply(e, s) == s + [c];
      LevAppend(s, t, c);
    case DeleteAt(i) =>
      assert Apply(e, s) == s[..|s| - 1];
      LevDrop(s, t);
    case ReplaceAt(i, c) =>
      var s' := s[..|s| - 1];
      assert s == s' + [s[|s| - 1]] && Apply(e, s) == s' + [c];
      LevReplace(s', t, s[|s| - 1], c);
  }

  lemma {:induction false} LevOfEqual(s: string)
    ensures Lev(s, s) == 0
    decreases |s|
  {
    if s != [] {
      LevOfEqual(s[..|s| - 1]);
    }
  }

  /** No script is shorter than the distance. */
  lemma {:induction false} ScriptsAreLongEnough(script: seq<Edit>, s: string, t: string)
    requires Turns(script, s, t)
    ensures Lev(s, t) <= |script|
    decreases |script|
  {
    if script == [] {
      LevOfEqual(s);
    } else {
      ScriptsAreLongEnough(script[1..], Apply(script[0], s), t);
      EditMovesByOne(script[0], s, t);
    }
  }

  // ---- Upper bound: a script as short as the distance

  lemma TurnsCons(e: Edit, rest: seq<Edit>, s: string, m: string, t: string)
    requires Applies(e, s) && Apply(e, s) == m && Turns(rest, m, t)
    ensures Turns([e] + rest, s, t)
  {
    assert ([e] + rest)[1..] == rest;
  }

  lemma HeadOfChain<T>(x: seq<T>, y: seq<T>)
    requires x != []
    ensures [x[0]] + (x[1..] + y) == x + y
  {}

  lemma TurnsHead(script: seq<Edit>, s: string, t: string)
    requires script != [] && Turns(script, s, t)
    ensures Applies(script[0], s) && Turns(script[1..], Apply(script[0], s), t)
  {}

  lemma {:induction false} TurnsChain(x: seq<Edit>, y: seq<Edit>, s: string, u: string, t: string)
    requires Turns(x, s, u) && Turns(y, u, t)
    ensures Turns(x + y, s, t)
    decreases |x|
  {
    if x == [] {
      assert x + y == y;
    } else {
      TurnsHead(x, s, u);
      hide Turns, Apply, Applies;
      var m := Apply(x[0], s);
      TurnsChain(x[1..], y, m, u, t);
      TurnsCons(x[0], x[1..] + y, s, m, t);
      HeadOfChain(x, y);
    }
  }

  /** A script works as well in front of a further character. */
  lemma {:induction false} TurnsUnder(script: seq<Edit>, s: string, t: string, c: char)
    requires Turns(script, s, t)
    ensures Turns(script, s + [c], t + [c])
    decreases |script|
  {
    if script != [] {
      var e := script[0];
      assert (s + [c])[..|s|] == s;
      ApplyBeforeLast(e, s + [c]);
      TurnsUnder(script[1..], Apply(e, s), t, c);
    }
  }

  lemma OneEdit(e: Edit, s: string, t: string)
    requires Applies(e, s) && Apply(e, s) == t
    ensures Turns([e], s, t)
  {
    assert [e][1..] == [];
  }

  /** Turns `s` into `t` by first dropping the last character of `s`. */
  lemma DropFirst(script: seq<Edit>, s: string, t: string) returns (r: seq<Edit>)
    requires s != [] && Turns(script, s[..|s| - 1], t)
    ensures Turns(r, s, t) && |r| == |script| + 1
  {
    var e := DeleteAt(|s| - 1);
    assert Apply(e, s) == s[..|s| - 1];
    OneEdit(e, s, s[..|s| - 1]);
    TurnsChain([e], script, s, s[..|s| - 1], t);
    r := [e] + script;
  }

  /** Turns `s` into `t` by finally adding the last character of `t`. */
  lemma AddLast(script: seq<Edit>, s: string, t: string) returns (r: seq<Edit>)
    requires t != [] && Turns(script, s, t[..|t| - 1])
    ensures Turns(r, s, t) && |r| == |script| + 1
  {
    var t' := t[..|t| - 1];
    var e := InsertAt(|t'|, t[|t| - 1]);
    assert Apply(e, t') == t;
    OneEdit(e, t', t);
    TurnsChain(script, [e], s, t', t);
    r := script + [e];
  }

  lemma ReplaceLast(t: string, x: char, y: char) returns (e: Edit)
    ensures Turns([e], t + [x], t + [y])
  {
    e := ReplaceAt(|t|, y);
    assert Apply(e, t + [x]) == t + [y];
    OneEdit(e, t + [x], t + [y]);
  }

  /** Turns the fronts and, if they differ, replaces the last character. */
  lemma TurnFronts(script: seq<Edit>, s: string, t: string, x: char, y: char) returns (r: seq<Edit>)
    requires Turns(script, s, t)
    ensures Turns(r, s + [x], t + [y]) && |r| == |script| + (if x == y then 0 else 1)
  {
    TurnsUnder(script, s, t, x);
    r := script;
    if x != y {
      var e := ReplaceLast(t, x, y);
      TurnsChain(script, [e], s + [x], t + [x], t + [y]);
      r := script + [e];
    }
  }

  lemma FrontAndLast(s: string)
    requires s != []
    ensures s == Front(s) + [s[|s| - 1]]
  {}

  /** Every distance is one of its three predecessors plus the cost of the last step. */
  lemma LevCases(s: string, t: string)
    ensures s == [] && t == [] ==> Lev(s, t) == 0
    ensures s == [] && t != [] ==> Lev(s, t) == Lev(s, Front(t)) + 1
    ensures s != [] && t == [] ==> Lev(s, t) == Lev(Front(s), t) + 1
    ensures s != [] && t != [] ==>
              || Lev(s, t) == Lev(Front(s), t) + 1
              || Lev(s, t) == Lev(s, Front(t)) + 1
              || Lev(s, t) == Lev(Front(s), Front(t)) + (if s[|s| - 1] == t[|t| - 1] then 0 else 1)
  {
    if s != [] && t != [] {
      LevStep(s, t);
      hide Lev, Front;
      LeastIsOne(Lev(Front(s), t) + 1, Lev(s, Front(t)) + 1,
                 Lev(Front(s), Front(t)) + Cost(s, t));
    } else if s == [] {
      NoLeft(t);
    } else {
      NoRight(s);
    }
  }

  lemma LevStep(s: string, t: string)
    requires s != [] && t != []
    ensures Lev(s, t) == Least(Lev(Front(s), t) + 1, Lev(s, Front(t)) + 1, Lev(Front(s), Front(t)) + Cost(s, t))
  {
    hide Least, Front, Cost;
  }

  lemma LeastIsOne(a: nat, b: nat, c: nat)
    ensures Least(a, b, c) == a || Least(a, b, c) == b || Least(a, b, c) == c
  {}

  lemma NoLeft(t: string)
    ensures Lev([], t) == |t|
  {}

  lemma NoRight(s: string)
    ensures Lev(s, []) == |s|
  {}

  lemma {:induction false} ShortestScript(s: string, t: string) returns (script: seq<Edit>)
    ensures Turns(script, s, t) && |script| == Lev(s, t)
    decreases |s| + |t|
  {
    LevCases(s, t);
    if s == [] && t == [] {
      script := [];
    } else {
      hide Lev, Turns;
      if s != [] && Lev(s, t) == Lev(Front(s), t) + 1 {
        var init := ShortestScript(Front(s), t);
        script := DropFirst(init, s, t);
      } else if t != [] && Lev(s, t) == Lev(s, Front(t)) + 1 {
        var init := ShortestScript(s, Front(t));
        script := AddLast(init, s, t);
      } else {
        var init := ShortestScript(Front(s), Front(t));
        FrontAndLast(s);
        FrontAndLast(t);
        script := TurnFronts(init, Front(s), Front(t), s[|s| - 1], t[|t| - 1]);
      }
    }
  }

  /** The distance is reached by some script of edits at any positions and undercut by none. */
  lemma DistanceIsShortestScript(s: string, t: string)
    ensures exists script :: Turns(script, s, t) && |script| == Lev(s, t)
    ensures forall script :: Turns(script, s, t) ==> |script| >= Lev(s, t)
  {
    var script := ShortestScript(s, t);
    forall other | Turns(other, s, t) ensures |other| >= Lev(s, t) {
      ScriptsAreLongEnough(other, s, t);
    }
  }

  lemma {:induction false} Symmetric(s: string, t: string)
    ensures Lev(s, t) == Lev(t, s)
    decreases |s| + |t|
  {
    if s != [] && t != [] {
      var s', t' := s[..|s| - 1], t[..|t| - 1];
      Symmetric(s', t);
      Symmetric(s, t');
      Symmetric(s', t');
    }
  }

  lemma ZeroIffEqual(s: string, t: string)
    ensures Lev(s, t) == 0 <==> s == t
  {
    if s == t {
      LevOfEqual(s);
    }
    var script := ShortestScript(s, t);
  }

  /** Scripts compose, so the distance obeys the triangle inequality. */
  lemma Triangle(s: string, t: string, u: string)
    ensures Lev(s, u) <= Lev(s, t) + Lev(t, u)
  {
    var x := ShortestScript(s, t);
    var y := ShortestScript(t, u);
    TurnsChain(x, y, s, t, u);
    ScriptsAreLongEnough(x + y, s, u);
  }

  // ---- Suggestions

  function Lower(c: char): char { if 'A' <= c <= 'Z' then c - 'A' + 'a' else c }

  /** Lower-cased letters and digits; everything else is dropped. */
  function CompactSlug(value: string): string {
    if value == [] then [] else
      var c := Lower(value[0]);
      (if 'a' <= c <= 'z' || '0' <= c <= '9' then [c] else []) + CompactSlug(value[1..])
  }

  lemma CompactHead(v: string)
    requires v != []
    ensures CompactSlug(v) == CompactSlug([v[0]]) + CompactSlug(v[1..])
  {
    assert CompactSlug([v[0]][1..]) == [];
  }

  lemma {:induction false} CompactParts(v: string, w: string)
    ensures CompactSlug(v + w) == CompactSlug(v) + CompactSlug(w)
    decreases |v|
  {
    if v == [] {
      assert v + w == w;
    } else {
      assert (v + w)[1..] == v[1..] + w && (v + w)[0] == v[0];
      CompactParts(v[1..], w);
      CompactHead(v);
      CompactHead(v + w);
      hide CompactSlug;
      var head, a, b := CompactSlug([v[0]]), CompactSlug(v[1..]), CompactSlug(w);
      assert head + (a + b) == head + a + b;
    }
  }

  /**
   Character by character: small letters and digits stay, capital letters become small, everything else goes. So a slug
   compares the same whatever its case and its separators.
   */
  lemma SlugKeeps(value: string, i: nat)
    requires i < |value|
    ensures var c := value[i];
            CompactSlug(value[..i + 1])
            == CompactSlug(value[..i])
               + (if 'a' <= c <= 'z' || '0' <= c <= '9' then [c]
                  else if 'A' <= c <= 'Z' then [(c as int + 32) as char]
                  else [])
    ensures CompactSlug("") == ""
  {
    assert value[..i + 1] == value[..i] + [value[i]];
    CompactParts(value[..i], [value[i]]);
    assert CompactSlug([value[i]][1..]) == [];
  }

  function Distance(slug: string, candidate: string): nat { Lev(CompactSlug(slug), CompactSlug(candidate)) }

  predicate Near(slug: string, candidate: string) { 0 < Distance(slug, candidate) <= 2 }

  /** Candidate `i` is near, nothing near is nearer, and nothing before it is as near. */
  ghost predicate Nearest(slug: string, candidates: seq<string>, i: nat)
    requires i < |candidates|
  {
    && Near(slug, candidates[i])
    && (forall j :: 0 <= j < |candidates| && Near(slug, candidates[j]) ==>
          Distance(slug, candidates[i]) <= Distance(slug, candidates[j]))
    && (forall j :: 0 <= j < i && Near(slug, candidates[j]) ==>
          Distance(slug, candidates[i]) < Distance(slug, candidates[j]))
  }

  /** The first candidate at the least distance among those at distance one or two. */
  method Suggest(slug: string, candidates: seq<string>) returns (best: Option<string>)
    ensures slug in candidates || CompactSlug(slug) == [] ==> best == None
    ensures slug !in candidates && CompactSlug(slug) != [] ==>
              (best.None? <==> forall i :: 0 <= i < |candidates| ==> !Near(slug, candidates[i]))
    ensures best.Some? ==>
              exists i :: 0 <= i < |candidates| && candidates[i] == best.value && Nearest(slug, candidates, i)
  {
    hide Lev, CompactSlug;
    best := None;
    if slug in candidates {
      return;
    }
    var needle := CompactSlug(slug);
    if needle == [] {
      return;
    }
    var bestDistance: nat := 0;
    ghost var at := 0;
    var i := 0;
    while i < |candidates|
      invariant i <= |candidates|
      invariant best.None? ==> forall j :: 0 <= j < i ==> !Near(slug, candidates[j])
      invariant best.Some? ==> 0 <= at < i && candidates[at] == best.value && Near(slug, candidates[at])
      invariant best.Some? ==> bestDistance == Distance(slug, candidates[at])
      invariant best.Some? ==>
                  forall j :: 0 <= j < i && Near(slug, candidates[j]) ==> bestDistance <= Distance(slug, candidates[j])
      invariant best.Some? ==>
                  forall j :: 0 <= j < at && Near(slug, candidates[j]) ==> bestDistance < Distance(slug, candidates[j])
    {
      var distance := Levenshtein(needle, CompactSlug(candidates[i]));
      if distance > 0 && distance <= 2 && (best.None? || distance < bestDistance) {
        best, bestDistance, at := Some(candidates[i]), distance, i;
      }
      i := i + 1;
    }
    assert best.Some? ==> Nearest(slug, candidates, at);
  }
}
