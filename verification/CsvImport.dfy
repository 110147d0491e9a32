/**
 Canonicalisation of imported trade rows. Rows are keyed by trade id; when different rows share an id (a
 self-trade), all of them are re-keyed by trade id and order id. The outcome depends on the set of rows only.
 */
module CsvImport {
  import opened Prelude

  datatype Row = Row(
    market: string, symbol: string, tradeId: string, orderId: string, side: string, liquidityRole: string,
    price: string, quantity: string, quoteQuantity: string, feeUsdt: string, realizedPnl: Option<string>,
    eventTimeMs: int)

  type Key = (string, string, string)

  function KeyOf(r: Row): Key { (r.market, r.symbol, r.tradeId) }

  /** The row under its compound id. */
  function Compound(r: Row): Row { r.(tradeId := r.tradeId + ":" + r.orderId) }

  datatype ImportError = ConflictingDuplicate(key: Key) | ConflictingRow(key: Key)

  datatype Table = Table(rows: map<Key, Row>, colliding: set<Key>)

  const EMPTY := Table(map[], {})

  /** Adds one re-keyed row of a fresh collision. */
  function PutItem(rows: map<Key, Row>, item: Row): Result<map<Key, Row>, ImportError> {
    var key := KeyOf(item);
    if key in rows && rows[key] != item then Err(ConflictingRow(key)) else Ok(rows[key := item])
  }

  function Step(t: Table, row: Row): Result<Table, ImportError> {
    var key := KeyOf(row);
    if key in t.colliding then
      var item := Compound(row);
      if KeyOf(item) in t.rows && t.rows[KeyOf(item)] != item then Err(ConflictingDuplicate(KeyOf(item)))
      else Ok(t.(rows := t.rows[KeyOf(item) := item]))
    else if key !in t.rows then Ok(t.(rows := t.rows[key := row]))
    else if t.rows[key] == row then Ok(t)
    else
      var first := PutItem(t.rows - {key}, Compound(t.rows[key]));
      if first.Err? then Err(first.error) else
        var second := PutItem(first.value, Compound(row));
        if second.Err? then Err(second.error) else Ok(Table(second.value, t.colliding + {key}))
  }

  predicate InWindow(r: Row, startMs: int, endMs: Option<int>) {
    r.eventTimeMs >= startMs && (endMs.None? || r.eventTimeMs < endMs.value)
  }

  function Load(rows: seq<Row>, startMs: int, endMs: Option<int>): Result<Table, ImportError>
    decreases |rows|
  {
    if rows == [] then Ok(EMPTY) else
      var before := Load(rows[..|rows| - 1], startMs, endMs);
      var row := rows[|rows| - 1];
      if before.Err? || !InWindow(row, startMs, endMs) then before else Step(before.value, row)
  }

  /** The import loop over all files' rows. */
  method LoadRows(rows: seq<Row>, startMs: int, endMs: Option<int>) returns (r: Result<map<Key, Row>, ImportError>)
    ensures r.Ok? <==> Load(rows, startMs, endMs).Ok?
    ensures r.Ok? ==> r.value == Load(rows, startMs, endMs).value.rows
    ensures r.Err? ==> r.error == Load(rows, startMs, endMs).error
  {
    var table: map<Key, Row> := map[];
    var colliding: set<Key> := {};
    var i := 0;
    while i < |rows|
      invariant i <= |rows| && Load(rows[..i], startMs, endMs) == Ok(Table(table, colliding))
    {
      var row := rows[i];
      assert rows[..i + 1][..i] == rows[..i];
      i := i + 1;
      if !InWindow(row, startMs, endMs) {
        continue;
      }
      var rawKey := KeyOf(row);
      if rawKey in colliding {
        row := Compound(row);
        if KeyOf(row) in table && table[KeyOf(row)] != row {
          LoadFails(rows, startMs, endMs, i);
          return Err(ConflictingDuplicate(KeyOf(row)));
        }
        table := table[KeyOf(row) := row];
        continue;
      }
      if rawKey !in table {
        table := table[rawKey := row];
        continue;
      }
      var previous := table[rawKey];
      if previous == row {
        continue;
      }
      table := table - {rawKey};
      colliding := colliding + {rawKey};
      var first := PutItem(table, Compound(previous));
      if first.Err? {
        LoadFails(rows, startMs, endMs, i);
        return Err(first.error);
      }
      var second := PutItem(first.value, Compound(row));
      if second.Err? {
        LoadFails(rows, startMs, endMs, i);
        return Err(second.error);
      }
      table := second.value;
    }
    assert rows[..i] == rows;
    return Ok(table);
  }

  lemma {:induction false} LoadFails(rows: seq<Row>, startMs: int, endMs: Option<int>, n: nat)
    requires n <= |rows| && Load(rows[..n], startMs, endMs).Err?
    ensures Load(rows, startMs, endMs) == Load(rows[..n], startMs, endMs)
    decreases |rows|
  {
    if n == |rows| {
      assert rows[..n] == rows;
    } else {
      var init := rows[..|rows| - 1];
      assert init[..n] == rows[..n];
      LoadFails(init, startMs, endMs, n);
    }
  }

  // ---- What the outcome should be, from the set of rows alone

  function RowsIn(rows: seq<Row>, startMs: int, endMs: Option<int>): set<Row> {
    set r | r in rows && InWindow(r, startMs, endMs)
  }

  /** Different rows of the set share this key. */
  ghost predicate Collides(s: set<Row>, k: Key) {
    exists r, q {:trigger Sharing(r, q, k)} :: r in s && q in s && Sharing(r, q, k)
  }

  predicate Sharing(r: Row, q: Row, k: Key) { r != q && KeyOf(r) == k && KeyOf(q) == k }

  /** Two rows that would be kept under one compound id. */
  predicate Merging(r: Row, q: Row) { r != q && KeyOf(Compound(r)) == KeyOf(Compound(q)) }

  /** Two different rows that have to be told apart by order id, and are not. */
  ghost predicate Conflicts(s: set<Row>) {
    exists r, q {:trigger Merging(r, q)} ::
      r in s && q in s && Merging(r, q) && Collides(s, KeyOf(r)) && Collides(s, KeyOf(q))
  }

  /** The form in which a row is kept when the keys in `colliding` are shared. */
  function Final(colliding: set<Key>, r: Row): Row {
    if KeyOf(r) in colliding then Compound(r) else r
  }

  function Kept(s: set<Row>, colliding: set<Key>): set<Row> {
    set r | r in s :: Final(colliding, r)
  }

  /** `rows` is the set `kept`, each row under its own key. */
  ghost predicate Keyed(rows: map<Key, Row>, kept: set<Row>) {
    && (forall k :: k in rows ==> rows[k] in kept && KeyOf(rows[k]) == k)
    && (forall x {:trigger x in kept} :: x in kept ==> KeyOf(x) in rows && rows[KeyOf(x)] == x)
  }

  ghost predicate CollidingOf(colliding: set<Key>, s: set<Row>) {
    forall k :: k in colliding <==> Collides(s, k)
  }

  ghost predicate Represents(t: Table, s: set<Row>) {
    Keyed(t.rows, Kept(s, t.colliding)) && CollidingOf(t.colliding, s)
  }

  /** No row has the compound id of another as its trade id. */
  ghost predicate Apart(s: set<Row>) {
    forall r, q :: r in s && q in s ==> KeyOf(Compound(r)) != KeyOf(q)
  }

  lemma ApartLess(s: set<Row>, row: Row)
    requires Apart(s + {row})
    ensures Apart(s)
  {
    forall r, q | r in s && q in s ensures KeyOf(Compound(r)) != KeyOf(q) {
      assert r in s + {row} && q in s + {row};
    }
  }

  lemma ApartFrom(s: set<Row>, row: Row, r: Row, q: Row)
    requires Apart(s + {row}) && (r in s || r == row) && (q in s || q == row)
    ensures KeyOf(Compound(r)) != KeyOf(q)
  {
    assert r in s + {row} && q in s + {row};
  }

  /** Re-keying loses nothing of a row. */
  lemma CompoundInjective(r: Row, q: Row)
    requires Compound(r) == Compound(q)
    ensures r == q
  {
    var x, y := r.tradeId + ":" + r.orderId, q.tradeId + ":" + q.orderId;
    assert r.orderId == q.orderId && x == y;
    assert r.tradeId == x[..|x| - 1 - |r.orderId|] && q.tradeId == y[..|y| - 1 - |q.orderId|];
  }

  // ---- Growing the set by one row

  /** Some other row of the set has the key of `row`. */
  ghost predicate Meets(s: set<Row>, row: Row) { exists q :: q in s && q != row && KeyOf(q) == KeyOf(row) }

  lemma CollidesGrows(s: set<Row>, row: Row, k: Key)
    ensures Collides(s + {row}, k) <==> Collides(s, k) || (k == KeyOf(row) && Meets(s, row))
  {
    var s' := s + {row};
    if Collides(s', k) && !Collides(s, k) {
      var r, q :| r in s' && q in s' && Sharing(r, q, k);
      assert r == row || q == row;
      assert Meets(s, row);
    }
    if Collides(s, k) {
      var r, q :| r in s && q in s && Sharing(r, q, k);
      assert r in s' && q in s';
    }
    if Meets(s, row) {
      var q :| q in s && q != row && KeyOf(q) == KeyOf(row);
      assert row in s' && q in s' && Sharing(row, q, KeyOf(row));
    }
  }

  lemma CollidingGrows(colliding: set<Key>, s: set<Row>, row: Row)
    requires CollidingOf(colliding, s)
    ensures CollidingOf(if Meets(s, row) then colliding + {KeyOf(row)} else colliding, s + {row})
  {
    var after := if Meets(s, row) then colliding + {KeyOf(row)} else colliding;
    forall k ensures k in after <==> Collides(s + {row}, k) {
      CollidesGrows(s, row, k);
    }
  }

  /** Conflicts stay. */
  lemma ConflictsGrow(s: set<Row>, row: Row)
    requires Conflicts(s)
    ensures Conflicts(s + {row})
  {
    var r, q :| r in s && q in s && Merging(r, q) && Collides(s, KeyOf(r)) && Collides(s, KeyOf(q));
    CollidesGrows(s, row, KeyOf(r));
    CollidesGrows(s, row, KeyOf(q));
    assert r in s + {row} && q in s + {row};
  }

  lemma KeptGrows(s: set<Row>, colliding: set<Key>, row: Row)
    ensures Kept(s + {row}, colliding) == Kept(s, colliding) + {Final(colliding, row)}
  {
    forall x | x in Kept(s, colliding) + {Final(colliding, row)} ensures x in Kept(s + {row}, colliding) {
      if x in Kept(s, colliding) {
        var r :| r in s && x == Final(colliding, r);
        assert r in s + {row};
      } else {
        assert row in s + {row};
      }
    }
  }

  /** A key that starts to collide re-keys the one row that had it. */
  lemma KeptRekeys(s: set<Row>, colliding: set<Key>, only: Row)
    requires Apart(s) && only in s && KeyOf(only) !in colliding
    requires forall q :: q in s && KeyOf(q) == KeyOf(only) ==> q == only
    ensures Kept(s, colliding + {KeyOf(only)}) == Kept(s, colliding) - {only} + {Compound(only)}
  {
    var after := colliding + {KeyOf(only)};
    forall q | q in s && q != only ensures Final(after, q) == Final(colliding, q) != only {
      assert KeyOf(Compound(q)) != KeyOf(only);
    }
    assert Final(after, only) == Compound(only) && Final(colliding, only) == only;
    forall x | x in Kept(s, colliding) - {only} + {Compound(only)} ensures x in Kept(s, after) {
      if x == Compound(only) {
        assert x == Final(after, only);
      } else {
        var q :| q in s && x == Final(colliding, q);
        assert x == Final(after, q);
      }
    }
    forall x | x in Kept(s, after) ensures x in Kept(s, colliding) - {only} + {Compound(only)} {
      var q :| q in s && x == Final(after, q);
      if q != only {
        assert x == Final(colliding, q);
      }
    }
  }

  lemma KeyedPut(rows: map<Key, Row>, kept: set<Row>, item: Row)
    requires Keyed(rows, kept) && (KeyOf(item) in rows ==> rows[KeyOf(item)] == item)
    ensures Keyed(rows[KeyOf(item) := item], kept + {item})
  {}

  lemma KeyedRemove(rows: map<Key, Row>, kept: set<Row>, k: Key)
    requires Keyed(rows, kept) && k in rows
    ensures Keyed(rows - {k}, kept - {rows[k]})
  {}

  /** A table that holds every row under its own key proves that nothing conflicts. */
  lemma KeyedNoConflicts(t: Table, s: set<Row>)
    requires Represents(t, s)
    ensures !Conflicts(s)
  {
    if Conflicts(s) {
      var r, q :| r in s && q in s && Merging(r, q) && Collides(s, KeyOf(r)) && Collides(s, KeyOf(q));
      assert Final(t.colliding, r) == Compound(r) && Final(t.colliding, q) == Compound(q);
      assert Compound(r) in Kept(s, t.colliding) && Compound(q) in Kept(s, t.colliding);
      CompoundInjective(r, q);
      assert false;
    }
  }

  // ---- One row at a time

  /** A step fails exactly on a conflict, and otherwise represents the larger set. */
  ghost predicate StepGood(t: Table, s: set<Row>, row: Row) {
    var r := Step(t, row);
    (r.Err? ==> Conflicts(s + {row})) && (r.Ok? ==> Represents(r.value, s + {row}))
  }

  /** What the table shows under a key that does not collide. */
  lemma KeyShown(t: Table, s: set<Row>, row: Row)
    requires Represents(t, s) && Apart(s + {row}) && KeyOf(row) !in t.colliding
    ensures forall q :: q in s && KeyOf(q) == KeyOf(row) ==> KeyOf(row) in t.rows && t.rows[KeyOf(row)] == q
    ensures KeyOf(row) in t.rows ==> t.rows[KeyOf(row)] in s && KeyOf(t.rows[KeyOf(row)]) == KeyOf(row)
  {
    var k := KeyOf(row);
    forall q | q in s && KeyOf(q) == k ensures k in t.rows && t.rows[k] == q {
      assert Final(t.colliding, q) == q && q in Kept(s, t.colliding);
    }
    if k in t.rows {
      var q :| q in s && t.rows[k] == Final(t.colliding, q);
      ApartFrom(s, row, q, row);
    }
  }

  /** Under the compound key of `item` the table can only show a re-keyed row. */
  lemma CompoundShown(t: Table, s: set<Row>, row: Row, item: Row) returns (q: Row)
    requires Represents(t, s) && Apart(s + {row}) && (item in s || item == row)
    requires KeyOf(Compound(item)) in t.rows
    ensures q in s && KeyOf(q) in t.colliding && t.rows[KeyOf(Compound(item))] == Compound(q)
  {
    q :| q in s && t.rows[KeyOf(Compound(item))] == Final(t.colliding, q);
    ApartFrom(s, row, item, q);
  }

  lemma ConflictFound(s: set<Row>, row: Row, r: Row, q: Row)
    requires (r in s || r == row) && (q in s || q == row) && Merging(r, q)
    requires Collides(s + {row}, KeyOf(r)) && Collides(s + {row}, KeyOf(q))
    ensures Conflicts(s + {row})
  {
    assert r in s + {row} && q in s + {row};
  }

  lemma CollidingStep(t: Table, row: Row, item: Row)
    requires KeyOf(row) in t.colliding && item == Compound(row)
    ensures Step(t, row).Err? <==> KeyOf(item) in t.rows && t.rows[KeyOf(item)] != item
    ensures Step(t, row).Ok? ==> Step(t, row).value == Table(t.rows[KeyOf(item) := item], t.colliding)
  {}

  lemma CollidingStays(t: Table, s: set<Row>, row: Row)
    requires CollidingOf(t.colliding, s) && (KeyOf(row) in t.colliding || !Meets(s, row))
    ensures CollidingOf(t.colliding, s + {row})
  {
    CollidingGrows(t.colliding, s, row);
    assert KeyOf(row) in t.colliding ==> t.colliding + {KeyOf(row)} == t.colliding;
  }

  lemma StepColliding(t: Table, s: set<Row>, row: Row)
    requires Represents(t, s) && Apart(s + {row}) && KeyOf(row) in t.colliding
    ensures StepGood(t, s, row)
  {
    var item := Compound(row);
    CollidingStep(t, row, item);
    CollidesGrows(s, row, KeyOf(row));
    if Step(t, row).Err? {
      var q := CompoundShown(t, s, row, row);
      CollidesGrows(s, row, KeyOf(q));
      ConflictFound(s, row, q, row);
    } else {
      KeptGrows(s, t.colliding, row);
      KeyedPut(t.rows, Kept(s, t.colliding), item);
      CollidingStays(t, s, row);
    }
  }

  /** The key is free, or shows this very row. */
  lemma StepFresh(t: Table, s: set<Row>, row: Row)
    requires Represents(t, s) && Apart(s + {row}) && KeyOf(row) !in t.colliding
    requires KeyOf(row) in t.rows ==> t.rows[KeyOf(row)] == row
    ensures StepGood(t, s, row)
  {
    var rows := t.rows[KeyOf(row) := row];
    assert Step(t, row) == Ok(t.(rows := rows)) by {
      assert KeyOf(row) in t.rows ==> rows == t.rows;
    }
    assert !Meets(s, row) by { KeyShown(t, s, row); }
    assert Keyed(rows, Kept(s + {row}, t.colliding)) by {
      KeyedPut(t.rows, Kept(s, t.colliding), row);
      KeptGrows(s, t.colliding, row);
    }
    assert CollidingOf(t.colliding, s + {row}) by { CollidingGrows(t.colliding, s, row); }
  }

  /** The table once both rows of a key are re-keyed. */
  function Rekeyed(rows: map<Key, Row>, previous: Row, row: Row): map<Key, Row> {
    (rows - {KeyOf(row)})[KeyOf(Compound(previous)) := Compound(previous)][KeyOf(Compound(row)) := Compound(row)]
  }

  lemma KeyedRekey(rows: map<Key, Row>, kept: set<Row>, previous: Row, row: Row)
    requires Keyed(rows, kept) && KeyOf(row) in rows && rows[KeyOf(row)] == previous
    requires KeyOf(Compound(previous)) !in rows && KeyOf(Compound(row)) !in rows
    requires KeyOf(Compound(previous)) != KeyOf(Compound(row))
    ensures Keyed(Rekeyed(rows, previous, row), kept - {previous} + {Compound(previous)} + {Compound(row)})
  {
    var base := rows - {KeyOf(row)};
    KeyedRemove(rows, kept, KeyOf(row));
    KeyedPut(base, kept - {previous}, Compound(previous));
    KeyedPut(base[KeyOf(Compound(previous)) := Compound(previous)], kept - {previous} + {Compound(previous)},
             Compound(row));
  }

  /** The compound id of a row of the fresh collision is free, or its row conflicts. */
  lemma CompoundFree(t: Table, s: set<Row>, row: Row, item: Row)
    requires Represents(t, s) && Apart(s + {row}) && KeyOf(row) !in t.colliding && Meets(s, row)
    requires (item in s || item == row) && KeyOf(item) == KeyOf(row)
    ensures KeyOf(Compound(item)) in t.rows ==>
              t.rows[KeyOf(Compound(item))] != Compound(item) && Conflicts(s + {row})
  {
    if KeyOf(Compound(item)) in t.rows {
      var q := CompoundShown(t, s, row, item);
      if Compound(q) == Compound(item) {
        CompoundInjective(q, item);
        assert false;
      }
      CollidesGrows(s, row, KeyOf(q));
      CollidesGrows(s, row, KeyOf(item));
      ConflictFound(s, row, q, item);
    }
  }

  lemma CollisionStep(t: Table, row: Row, previous: Row)
    requires KeyOf(row) !in t.colliding && KeyOf(row) in t.rows && t.rows[KeyOf(row)] == previous != row
    requires KeyOf(Compound(previous)) !in t.rows && KeyOf(Compound(row)) !in t.rows
    requires Compound(previous) != Compound(row)
    ensures Step(t, row).Err? <==> KeyOf(Compound(previous)) == KeyOf(Compound(row))
    ensures Step(t, row).Ok? ==> Step(t, row).value == Table(Rekeyed(t.rows, previous, row), t.colliding + {KeyOf(row)})
  {}

  /** Putting the two rows of a fresh collision fails only where one of them finds its compound id taken. */
  lemma CollisionFails(t: Table, row: Row, previous: Row)
    requires KeyOf(row) !in t.colliding && KeyOf(row) in t.rows && t.rows[KeyOf(row)] == previous != row
    requires Step(t, row).Err?
    ensures KeyOf(Compound(previous)) in t.rows || KeyOf(Compound(row)) in t.rows
            || KeyOf(Compound(previous)) == KeyOf(Compound(row))
  {}

  lemma RekeyedIsKept(t: Table, s: set<Row>, row: Row, previous: Row)
    requires Represents(t, s) && Apart(s + {row}) && KeyOf(row) !in t.colliding
    requires KeyOf(row) in t.rows && t.rows[KeyOf(row)] == previous != row
    requires KeyOf(Compound(previous)) !in t.rows && KeyOf(Compound(row)) !in t.rows
    requires KeyOf(Compound(previous)) != KeyOf(Compound(row))
    ensures Keyed(Rekeyed(t.rows, previous, row), Kept(s + {row}, t.colliding + {KeyOf(row)}))
  {
    var after := t.colliding + {KeyOf(row)};
    KeyedRekey(t.rows, Kept(s, t.colliding), previous, row);
    KeyShown(t, s, row);
    ApartLess(s, row);
    KeptRekeys(s, t.colliding, previous);
    KeptGrows(s, after, row);
  }

  /** The second row of a key: both are re-keyed. */
  lemma StepCollision(t: Table, s: set<Row>, row: Row)
    requires Represents(t, s) && Apart(s + {row}) && KeyOf(row) !in t.colliding
    requires KeyOf(row) in t.rows && t.rows[KeyOf(row)] != row
    ensures StepGood(t, s, row)
  {
    var previous := t.rows[KeyOf(row)];
    KeyShown(t, s, row);
    assert previous in s && Meets(s, row);
    CompoundFree(t, s, row, previous);
    CompoundFree(t, s, row, row);
    CollidesGrows(s, row, KeyOf(row));
    if KeyOf(Compound(previous)) == KeyOf(Compound(row)) {
      ConflictFound(s, row, previous, row);
    }
    if Step(t, row).Err? {
      CollisionFails(t, row, previous);
    } else {
      CollisionSucceeds(t, s, row, previous);
    }
  }

  lemma CollisionSucceeds(t: Table, s: set<Row>, row: Row, previous: Row)
    requires Represents(t, s) && Apart(s + {row}) && KeyOf(row) !in t.colliding && previous in s && Meets(s, row)
    requires KeyOf(row) in t.rows && t.rows[KeyOf(row)] == previous != row && Step(t, row).Ok?
    ensures Represents(Step(t, row).value, s + {row})
  {
    KeyShown(t, s, row);
    CompoundFree(t, s, row, previous);
    CompoundFree(t, s, row, row);
    ApartFrom(s, row, previous, row);
    ApartFrom(s, row, row, row);
    CompoundsDiffer(previous, row);
    CollidingGrows(t.colliding, s, row);
    CompoundsFree(t, row, previous);
    hide Step, PutItem, Conflicts, Meets, Apart, Keyed, Kept, CollidingOf, Compound, Rekeyed;
    CollisionStep(t, row, previous);
    RekeyedIsKept(t, s, row, previous);
  }

  /** A fresh collision that succeeds found both compound ids free. */
  lemma CompoundsFree(t: Table, row: Row, previous: Row)
    requires KeyOf(row) !in t.colliding && KeyOf(row) in t.rows && t.rows[KeyOf(row)] == previous != row
    requires KeyOf(Compound(previous)) != KeyOf(row) && KeyOf(Compound(row)) != KeyOf(row)
    requires KeyOf(Compound(previous)) in t.rows ==> t.rows[KeyOf(Compound(previous))] != Compound(previous)
    requires KeyOf(Compound(row)) in t.rows ==> t.rows[KeyOf(Compound(row))] != Compound(row)
    requires Compound(previous) != Compound(row) && Step(t, row).Ok?
    ensures KeyOf(Compound(previous)) !in t.rows && KeyOf(Compound(row)) !in t.rows
    ensures KeyOf(Compound(previous)) != KeyOf(Compound(row))
  {}

  lemma CompoundsDiffer(r: Row, q: Row)
    requires r != q
    ensures Compound(r) != Compound(q)
  {
    if Compound(r) == Compound(q) {
      CompoundInjective(r, q);
    }
  }

  lemma StepIsGood(t: Table, s: set<Row>, row: Row)
    requires Represents(t, s) && Apart(s + {row})
    ensures StepGood(t, s, row)
  {
    if KeyOf(row) in t.colliding {
      StepColliding(t, s, row);
    } else if KeyOf(row) !in t.rows || t.rows[KeyOf(row)] == row {
      StepFresh(t, s, row);
    } else {
      StepCollision(t, s, row);
    }
  }

  lemma EmptyRepresents()
    ensures Represents(EMPTY, {})
  {
    assert Kept({}, {}) == {};
  }

  /** One more row, inside the window or not. */
  lemma RowsInGrows(init: seq<Row>, row: Row, startMs: int, endMs: Option<int>)
    ensures RowsIn(init + [row], startMs, endMs)
            == RowsIn(init, startMs, endMs) + if InWindow(row, startMs, endMs) then {row} else {}
  {}

  /** Loading succeeds exactly when nothing in the set conflicts, and then represents the set. */
  ghost predicate Canonical(r: Result<Table, ImportError>, s: set<Row>) {
    (r.Ok? <==> !Conflicts(s)) && (r.Ok? ==> Represents(r.value, s))
  }

  /**
   While no trade id is the compound id of another row, the import succeeds exactly when no two different rows share
   the compound id they need, and then holds the final form of each row of the set.
   */
  lemma {:induction false} LoadIsCanonical(rows: seq<Row>, startMs: int, endMs: Option<int>)
    requires Apart(RowsIn(rows, startMs, endMs))
    ensures Canonical(Load(rows, startMs, endMs), RowsIn(rows, startMs, endMs))
    decreases |rows|
  {
    if rows == [] {
      assert RowsIn(rows, startMs, endMs) == {};
      EmptyRepresents();
      KeyedNoConflicts(EMPTY, {});
    } else {
      var init, row := rows[..|rows| - 1], rows[|rows| - 1];
      var s := RowsIn(init, startMs, endMs);
      RowsInGrows(init, row, startMs, endMs);
      assert rows == init + [row];
      hide Canonical, Apart, RowsIn;
      if InWindow(row, startMs, endMs) {
        ApartLess(s, row);
        LoadIsCanonical(init, startMs, endMs);
        LoadGrows(Load(init, startMs, endMs), s, row);
      } else {
        assert RowsIn(rows, startMs, endMs) == s;
        LoadIsCanonical(init, startMs, endMs);
      }
    }
  }

  lemma LoadGrows(before: Result<Table, ImportError>, s: set<Row>, row: Row)
    requires Apart(s + {row}) && Canonical(before, s)
    ensures Canonical(if before.Err? then before else Step(before.value, row), s + {row})
  {
    if before.Ok? {
      StepIsGood(before.value, s, row);
      hide Represents, Conflicts, Step, Apart;
      if Step(before.value, row).Ok? {
        KeyedNoConflicts(Step(before.value, row).value, s + {row});
      }
    } else {
      ConflictsGrow(s, row);
    }
  }

  /** Without colons in trade ids, a conflict is two different rows of one trade id and one order id. */
  lemma ColonFreeConflicts(s: set<Row>)
    requires forall r :: r in s ==> ':' !in r.tradeId
    ensures Apart(s)
    ensures Conflicts(s) <==>
              exists r, q :: r in s && q in s && r != q && KeyOf(r) == KeyOf(q) && r.orderId == q.orderId
  {
    forall r, q | r in s && q in s ensures KeyOf(Compound(r)) != KeyOf(q) {
      assert Compound(r).tradeId[|r.tradeId|] == ':';
    }
    if Conflicts(s) {
      var r, q :| r in s && q in s && Merging(r, q);
      CompoundIdUnique(r.tradeId, r.orderId, q.tradeId, q.orderId);
    }
    if r, q :| r in s && q in s && r != q && KeyOf(r) == KeyOf(q) && r.orderId == q.orderId {
      assert Sharing(r, q, KeyOf(r)) && Merging(r, q);
    }
  }

  /** Compound ids are decoded uniquely when trade ids have no colon. */
  lemma CompoundIdUnique(t: string, o: string, u: string, p: string)
    requires ':' !in t && ':' !in u && t + ":" + o == u + ":" + p
    ensures t == u && o == p
  {
    var x := t + ":" + o;
    assert x[|t|] == ':' && x[|u|] == ':';
    assert forall i :: 0 <= i < |t| ==> x[i] == t[i] != ':';
    assert forall i :: 0 <= i < |u| ==> x[i] == u[i] != ':';
    assert |t| == |u|;
    assert t == x[..|t|] && u == x[..|u|];
    assert o == x[|t| + 1..] && p == x[|u| + 1..];
  }

  lemma KeyedUnique(m: map<Key, Row>, n: map<Key, Row>, kept: set<Row>)
    requires Keyed(m, kept) && Keyed(n, kept)
    ensures m == n
  {
    assert forall k :: k in m ==> KeyOf(m[k]) == k && m[k] in kept;
    assert forall k :: k in n ==> KeyOf(n[k]) == k && n[k] in kept;
  }

  /** Two loads fail together, or succeed with the same rows. */
  predicate SameOutcome(a: Result<Table, ImportError>, b: Result<Table, ImportError>) {
    (a.Ok? <==> b.Ok?) && (a.Ok? ==> a.value.rows == b.value.rows)
  }

  /** Confluence: file order and repetition do not matter, only the set of rows inside the window. */
  lemma ImportIsConfluent(xs: seq<Row>, ys: seq<Row>, startMs: int, endMs: Option<int>)
    requires RowsIn(xs, startMs, endMs) == RowsIn(ys, startMs, endMs) && Apart(RowsIn(xs, startMs, endMs))
    ensures SameOutcome(Load(xs, startMs, endMs), Load(ys, startMs, endMs))
  {
    LoadIsCanonical(xs, startMs, endMs);
    LoadIsCanonical(ys, startMs, endMs);
    var a, b := Load(xs, startMs, endMs), Load(ys, startMs, endMs);
    if a.Ok? {
      assert a.value.colliding == b.value.colliding;
      KeyedUnique(a.value.rows, b.value.rows, Kept(RowsIn(xs, startMs, endMs), a.value.colliding));
    }
  }

  /** Different rows are kept under different keys. */
  lemma FinalKeysDiffer(t: Table, s: set<Row>, r: Row, q: Row)
    requires Represents(t, s) && Apart(s) && r in s && q in s && r != q
    ensures KeyOf(Final(t.colliding, r)) != KeyOf(Final(t.colliding, q))
  {
    var x, y := Final(t.colliding, r), Final(t.colliding, q);
    assert x in Kept(s, t.colliding) && y in Kept(s, t.colliding);
    if KeyOf(x) == KeyOf(y) {
      assert x == y;
      FinalInjective(t, s, r, q);
      assert false;
    }
  }

  lemma FinalInjective(t: Table, s: set<Row>, r: Row, q: Row)
    requires CollidingOf(t.colliding, s) && Apart(s) && r in s && q in s
    requires Final(t.colliding, r) == Final(t.colliding, q)
    ensures r == q
  {
    assert KeyOf(Compound(r)) != KeyOf(q) && KeyOf(Compound(q)) != KeyOf(r);
    if KeyOf(r) in t.colliding && KeyOf(q) in t.colliding {
      CompoundInjective(r, q);
    }
  }

  function FinalKey(colliding: set<Key>): Row -> Key { (r: Row) => KeyOf(Final(colliding, r)) }

  lemma KeysAreImage(rows: map<Key, Row>, s: set<Row>, colliding: set<Key>)
    requires Keyed(rows, Kept(s, colliding))
    ensures rows.Keys == set r | r in s :: FinalKey(colliding)(r)
  {
    var image := set r | r in s :: FinalKey(colliding)(r);
    forall k | k in image ensures k in rows {
      var r :| r in s && k == FinalKey(colliding)(r);
      assert Final(colliding, r) in Kept(s, colliding);
    }
    forall k | k in rows ensures k in image {
      var r :| r in s && rows[k] == Final(colliding, r);
      assert k == FinalKey(colliding)(r);
    }
  }

  ghost predicate OneToOne(f: Row -> Key, s: set<Row>) {
    forall r, q :: r in s && q in s && r != q ==> f(r) != f(q)
  }

  lemma FinalKeysOneToOne(t: Table, s: set<Row>)
    requires Represents(t, s) && Apart(s)
    ensures OneToOne(FinalKey(t.colliding), s)
  {
    forall r, q | r in s && q in s && r != q ensures FinalKey(t.colliding)(r) != FinalKey(t.colliding)(q) {
      FinalKeysDiffer(t, s, r, q);
    }
  }

  lemma KeptSize(rows: map<Key, Row>, s: set<Row>, colliding: set<Key>)
    requires Keyed(rows, Kept(s, colliding)) && OneToOne(FinalKey(colliding), s)
    ensures |rows| == |s|
  {
    ImageSize(s, FinalKey(colliding));
    KeysAreImage(rows, s, colliding);
    assert |rows| == |rows.Keys|;
  }

  /** On success every distinct row survives exactly once, as itself or under its compound id. */
  lemma EveryRowSurvivesOnce(rows: seq<Row>, startMs: int, endMs: Option<int>, r: Row)
    requires Apart(RowsIn(rows, startMs, endMs)) && Load(rows, startMs, endMs).Ok?
    ensures var s := RowsIn(rows, startMs, endMs); var m := Load(rows, startMs, endMs).value.rows;
            var x := if Collides(s, KeyOf(r)) then Compound(r) else r;
            |m| == |s| && (r in s ==> KeyOf(x) in m && m[KeyOf(x)] == x)
  {
    LoadIsCanonical(rows, startMs, endMs);
    var s := RowsIn(rows, startMs, endMs);
    var t := Load(rows, startMs, endMs).value;
    FinalKeysOneToOne(t, s);
    KeptSize(t.rows, s, t.colliding);
    assert r in s ==> Final(t.colliding, r) in Kept(s, t.colliding);
  }

  lemma {:induction false} ImageSize(s: set<Row>, f: Row -> Key)
    requires OneToOne(f, s)
    ensures |set r | r in s :: f(r)| == |s|
    decreases |s|
  {
    var image := set r | r in s :: f(r);
    if s == {} {
      assert image == {};
    } else {
      var r :| r in s;
      ImageSize(s - {r}, f);
      assert image == (set q | q in s - {r} :: f(q)) + {f(r)};
      assert f(r) !in set q | q in s - {r} :: f(q);
    }
  }

  /** Two different rows of one trade. */
  predicate SameTrade(r: Row, q: Row) {
    r != q && r.market == q.market && r.symbol == q.symbol && r.tradeId == q.tradeId
  }

  /** The row is there, from the start of the window on and before its end. */
  predicate Counts(rows: seq<Row>, r: Row, startMs: int, endMs: Option<int>) {
    r in rows && startMs <= r.eventTimeMs && (endMs.Some? ==> r.eventTimeMs < endMs.value)
  }

  lemma CountsAre(rows: seq<Row>, startMs: int, endMs: Option<int>, r: Row)
    ensures Counts(rows, r, startMs, endMs) <==> r in RowsIn(rows, startMs, endMs)
  {}

  lemma CollidesIff(s: set<Row>, r: Row)
    requires r in s
    ensures Collides(s, KeyOf(r)) <==> exists q :: q in s && SameTrade(r, q)
  {
    if Collides(s, KeyOf(r)) {
      var x, y :| x in s && y in s && Sharing(x, y, KeyOf(r));
      assert SameTrade(r, x) || SameTrade(r, y);
    }
    if q :| q in s && SameTrade(r, q) {
      assert Sharing(r, q, KeyOf(r));
    }
  }

  /** Two different rows inside the window are of one trade and one order. */
  ghost predicate Clashes(rows: seq<Row>, startMs: int, endMs: Option<int>) {
    exists r, q :: Counts(rows, r, startMs, endMs) && Counts(rows, q, startMs, endMs)
      && SameTrade(r, q) && r.orderId == q.orderId
  }

  lemma ClashesIff(rows: seq<Row>, startMs: int, endMs: Option<int>)
    requires forall r :: r in rows ==> ':' !in r.tradeId
    ensures Apart(RowsIn(rows, startMs, endMs))
    ensures Clashes(rows, startMs, endMs) <==> Conflicts(RowsIn(rows, startMs, endMs))
  {
    var s := RowsIn(rows, startMs, endMs);
    ColonFreeConflicts(s);
    hide Conflicts, Apart, RowsIn, Counts;
    forall r ensures Counts(rows, r, startMs, endMs) <==> r in s {
      CountsAre(rows, startMs, endMs, r);
    }
    if r, q :| r in s && q in s && r != q && KeyOf(r) == KeyOf(q) && r.orderId == q.orderId {
      assert SameTrade(r, q) && Counts(rows, r, startMs, endMs) && Counts(rows, q, startMs, endMs);
    }
    if Clashes(rows, startMs, endMs) {
      var r, q :| Counts(rows, r, startMs, endMs) && Counts(rows, q, startMs, endMs)
                  && SameTrade(r, q) && r.orderId == q.orderId;
      assert KeyOf(r) == KeyOf(q) && r in s && q in s;
    }
  }

  /**
   An import without colons in trade ids, in the fields of its rows: it fails exactly when two different rows inside the
   window are of one trade and one order, and otherwise holds every such row once, under its trade id, or under trade id
   and order id when the trade has other rows.
   */
  lemma ColonFreeImport(rows: seq<Row>, startMs: int, endMs: Option<int>)
    requires forall r :: r in rows ==> ':' !in r.tradeId
    ensures Load(rows, startMs, endMs).Err? <==> Clashes(rows, startMs, endMs)
    ensures Load(rows, startMs, endMs).Ok? ==>
              |Load(rows, startMs, endMs).value.rows| == |RowsIn(rows, startMs, endMs)|
              && forall r :: Counts(rows, r, startMs, endMs) ==> HeldAs(rows, startMs, endMs, r)
  {
    ClashesIff(rows, startMs, endMs);
    LoadIsCanonical(rows, startMs, endMs);
    hide Load, Represents, Conflicts, Apart, RowsIn, Counts, Clashes, HeldAs;
    if Load(rows, startMs, endMs).Ok? {
      EveryRowSurvivesOnce(rows, startMs, endMs, Sample("", ""));
      forall r | Counts(rows, r, startMs, endMs) ensures HeldAs(rows, startMs, endMs, r) {
        RowHeld(rows, startMs, endMs, r);
      }
    }
  }

  /** The table holds the row, under its own id or, when its trade has other rows, under trade id and order id. */
  ghost predicate HeldAs(rows: seq<Row>, startMs: int, endMs: Option<int>, r: Row) {
    Load(rows, startMs, endMs).Ok?
    && var m := Load(rows, startMs, endMs).value.rows;
       var id := if exists q :: Counts(rows, q, startMs, endMs) && SameTrade(r, q)
         then r.tradeId + ":" + r.orderId else r.tradeId;
       (r.market, r.symbol, id) in m && m[(r.market, r.symbol, id)] == r.(tradeId := id)
  }

  lemma RowHeld(rows: seq<Row>, startMs: int, endMs: Option<int>, r: Row)
    requires Apart(RowsIn(rows, startMs, endMs)) && Load(rows, startMs, endMs).Ok?
    requires Counts(rows, r, startMs, endMs)
    ensures HeldAs(rows, startMs, endMs, r)
  {
    var s := RowsIn(rows, startMs, endMs);
    EveryRowSurvivesOnce(rows, startMs, endMs, r);
    hide Load, Apart, RowsIn, Counts;
    forall q ensures Counts(rows, q, startMs, endMs) <==> q in s {
      CountsAre(rows, startMs, endMs, q);
    }
    CollidesIff(s, r);
    hide Collides, SameTrade;
  }

  // ---- Which trade ids make the file order matter

  /** An id as it is left after trimming: not empty, and not blank at either end. */
  predicate ValidId(x: string, blank: char -> bool) { x != "" && !blank(x[0]) && !blank(x[|x| - 1]) }

  /** Rows that normalisation lets through. */
  predicate WellFormed(r: Row, blank: char -> bool) {
    && r.market == "swap" && r.symbol != "" && ValidId(r.tradeId, blank) && ValidId(r.orderId, blank)
    && r.side in ["buy", "sell"] && r.liquidityRole in ["maker", "taker"] && r.eventTimeMs > 0
  }

  ghost predicate FileOver(rows: seq<Row>, ids: set<string>, blank: char -> bool) {
    forall r :: r in rows ==> WellFormed(r, blank) && r.tradeId in ids
  }

  /** One trade id is another one joined with an order id. */
  ghost predicate Lookalike(ids: set<string>, blank: char -> bool) {
    exists t, o {:trigger Joined(t, o)} :: t in ids && ValidId(o, blank) && Joined(t, o) in ids
  }

  function Joined(t: string, o: string): string { t + ":" + o }

  /** Any two files over these trade ids with the same rows in the window come to the same outcome. */
  ghost predicate AlwaysConfluent(ids: set<string>, blank: char -> bool) {
    forall xs: seq<Row>, ys: seq<Row>, startMs: int, endMs: Option<int>
      {:trigger RowsIn(xs, startMs, endMs), RowsIn(ys, startMs, endMs)} ::
      FileOver(xs, ids, blank) && FileOver(ys, ids, blank) && RowsIn(xs, startMs, endMs) == RowsIn(ys, startMs, endMs)
      ==> SameOutcome(Load(xs, startMs, endMs), Load(ys, startMs, endMs))
  }

  lemma NoLookalikesApart(rows: seq<Row>, startMs: int, endMs: Option<int>, ids: set<string>, blank: char -> bool)
    requires FileOver(rows, ids, blank) && !Lookalike(ids, blank)
    ensures Apart(RowsIn(rows, startMs, endMs))
  {
    var s := RowsIn(rows, startMs, endMs);
    forall r, q | r in s && q in s ensures KeyOf(Compound(r)) != KeyOf(q) {
      assert r in rows && q in rows;
      assert Joined(r.tradeId, r.orderId) == Compound(r).tradeId;
    }
  }

  function Sample(tradeId: string, orderId: string): Row {
    Row("swap", "BTCUSDT", tradeId, orderId, "buy", "maker", "1", "1", "1", "0", None, 1)
  }

  lemma LoadNext(rows: seq<Row>, row: Row)
    requires row.eventTimeMs > 0
    ensures Load(rows + [row], 0, None)
            == if Load(rows, 0, None).Err? then Load(rows, 0, None) else Step(Load(rows, 0, None).value, row)
  {
    assert (rows + [row])[..|rows|] == rows;
  }

  /** The three rows that tell: two of trade id `t`, and one whose trade id is `t` joined with `o`. */
  function First(t: string, o: string): Row { Sample(t, o) }

  function Second(t: string, o: string): Row { Sample(t, o + "x") }

  function Lookalike3(t: string, o: string): Row { Sample(Joined(t, o), o + "y") }

  /** The rows of the collision before the lookalike, and after it. */
  function Collided(t: string, o: string): seq<Row> { [First(t, o)] + [Second(t, o)] + [Lookalike3(t, o)] }

  function Looked(t: string, o: string): seq<Row> { [Lookalike3(t, o)] + [First(t, o)] + [Second(t, o)] }

  lemma JoinedIds(t: string, o: string)
    ensures var u := Joined(t, o);
            && u != t && Joined(t, o + "x") == u + "x" && u + "x" != t && u + "x" != u
            && Joined(u, o) != u + "x" && Joined(u, o + "y") != u + "x" && Joined(u, o) != Joined(u, o + "y")
            && Joined(u, o) != u && Joined(u, o + "y") != u
            && o != o + "x" && o != o + "y"
  {
    var u := Joined(t, o);
    assert |u| > |t|;
    assert Joined(t, o + "x") == u + "x";
    assert Joined(u, o)[|u|] == ':' && Joined(u, o + "y")[|u|] == ':' && (u + "x")[|u|] == 'x';
    assert |Joined(u, o)| < |Joined(u, o + "y")|;
  }

  lemma SampleIds(t: string, o: string)
    ensures var a, b, c, u := First(t, o), Second(t, o), Lookalike3(t, o), Joined(t, o);
            && Compound(a) == Sample(u, o) && Compound(b) == Sample(u + "x", o + "x")
            && Compound(c) == Sample(Joined(u, o + "y"), o + "y")
            && Compound(Compound(a)) == Sample(Joined(u, o), o)
  {
    JoinedIds(t, o);
  }

  /** The first two rows collide and are re-keyed. */
  lemma CollisionLoaded(t: string, o: string)
    ensures var a, b := First(t, o), Second(t, o);
            Load([a] + [b], 0, None)
            == Ok(Table(map[KeyOf(Compound(a)) := Compound(a), KeyOf(Compound(b)) := Compound(b)], {KeyOf(a)}))
  {
    var a, b := First(t, o), Second(t, o);
    SampleIds(t, o);
    JoinedIds(t, o);
    LoadNext([], a);
    assert [] + [a] == [a];
    LoadNext([a], b);
    var x := Load([a], 0, None).value;
    assert x == Table(map[KeyOf(a) := a], {});
    hide Joined, Load;
    CollisionStep(x, b, a);
    assert KeyOf(b) == KeyOf(a) && x.colliding + {KeyOf(b)} == {KeyOf(a)};
    assert Step(x, b).Ok?;
    assert Rekeyed(x.rows, a, b) == map[KeyOf(Compound(a)) := Compound(a), KeyOf(Compound(b)) := Compound(b)];
  }

  lemma CollisionsFirst(t: string, o: string)
    ensures Load(Collided(t, o), 0, None).Ok?
  {
    var a, b, c := First(t, o), Second(t, o), Lookalike3(t, o);
    CollisionLoaded(t, o);
    LoadNext([a] + [b], c);
    SampleIds(t, o);
    JoinedIds(t, o);
    hide Joined, Load;
    var y := Table(map[KeyOf(Compound(a)) := Compound(a), KeyOf(Compound(b)) := Compound(b)], {KeyOf(a)});
    assert KeyOf(c) == KeyOf(Compound(a)) && y.rows[KeyOf(c)] == Compound(a);
    CollisionStep(y, c, Compound(a));
  }

  /** The lookalike and the first row stand side by side. */
  lemma LookalikeLoaded(t: string, o: string)
    ensures var a, c := First(t, o), Lookalike3(t, o);
            Load([c] + [a], 0, None) == Ok(Table(map[KeyOf(c) := c, KeyOf(a) := a], {}))
  {
    var a, c := First(t, o), Lookalike3(t, o);
    JoinedIds(t, o);
    hide Joined;
    LoadNext([], c);
    assert [] + [c] == [c];
    LoadNext([c], a);
  }

  lemma LookalikeFirst(t: string, o: string)
    ensures Load(Looked(t, o), 0, None).Err?
  {
    var a, b, c := First(t, o), Second(t, o), Lookalike3(t, o);
    LookalikeLoaded(t, o);
    LoadNext([c] + [a], b);
    SampleIds(t, o);
    JoinedIds(t, o);
    hide Joined, Load;
    var x := Table(map[KeyOf(c) := c, KeyOf(a) := a], {});
    assert KeyOf(Compound(a)) == KeyOf(c) && Compound(a) != c;
    assert PutItem(x.rows - {KeyOf(a)}, Compound(a)).Err?;
  }

  lemma SamplesWellFormed(t: string, o: string, blank: char -> bool)
    requires !blank('x') && !blank('y') && ValidId(t, blank) && ValidId(o, blank) && ValidId(Joined(t, o), blank)
    ensures WellFormed(First(t, o), blank) && WellFormed(Second(t, o), blank) && WellFormed(Lookalike3(t, o), blank)
  {}

  /** Three well-formed rows in two orders. */
  lemma SameThreeRows(a: Row, b: Row, c: Row, ids: set<string>, blank: char -> bool)
    requires WellFormed(a, blank) && WellFormed(b, blank) && WellFormed(c, blank)
    requires a.tradeId in ids && b.tradeId in ids && c.tradeId in ids
    ensures RowsIn([a] + [b] + [c], 0, None) == {a, b, c} == RowsIn([c] + [a] + [b], 0, None)
    ensures FileOver([a] + [b] + [c], ids, blank) && FileOver([c] + [a] + [b], ids, blank)
  {
    assert a.eventTimeMs > 0 && b.eventTimeMs > 0 && c.eventTimeMs > 0;
    hide WellFormed;
  }

  lemma NotConfluent(xs: seq<Row>, ys: seq<Row>, ids: set<string>, blank: char -> bool)
    requires FileOver(xs, ids, blank) && FileOver(ys, ids, blank) && RowsIn(xs, 0, None) == RowsIn(ys, 0, None)
    requires Load(xs, 0, None).Ok? && Load(ys, 0, None).Err?
    ensures !AlwaysConfluent(ids, blank)
  {
    hide Load, FileOver, RowsIn;
    assert !SameOutcome(Load(xs, 0, None), Load(ys, 0, None));
  }

  /** Of two files of the same three valid rows one loads and the other fails. */
  lemma LookalikesMatter(ids: set<string>, blank: char -> bool, t: string, o: string)
    requires !blank('x') && !blank('y') && (forall id :: id in ids ==> ValidId(id, blank))
    requires t in ids && ValidId(o, blank) && Joined(t, o) in ids
    ensures FileOver(Collided(t, o), ids, blank) && FileOver(Looked(t, o), ids, blank)
    ensures RowsIn(Collided(t, o), 0, None) == RowsIn(Looked(t, o), 0, None)
            == {First(t, o), Second(t, o), Lookalike3(t, o)}
    ensures Load(Collided(t, o), 0, None).Ok? && Load(Looked(t, o), 0, None).Err?
    ensures !AlwaysConfluent(ids, blank)
  {
    CollisionsFirst(t, o);
    LookalikeFirst(t, o);
    SamplesWellFormed(t, o, blank);
    SameThreeRows(First(t, o), Second(t, o), Lookalike3(t, o), ids, blank);
    hide Load, WellFormed, RowsIn, FileOver, AlwaysConfluent;
    NotConfluent(Collided(t, o), Looked(t, o), ids, blank);
  }

  /**
   Over a set of trade ids, the outcome of every import depends on its set of rows alone exactly when no trade id of
   the set is another one joined by a colon with something that could be an order id.
   */
  lemma ConfluentIffNoLookalikes(ids: set<string>, blank: char -> bool)
    requires !blank('x') && !blank('y') && forall id :: id in ids ==> ValidId(id, blank)
    ensures AlwaysConfluent(ids, blank) <==> !Lookalike(ids, blank)
  {
    if Lookalike(ids, blank) {
      var t, o :| t in ids && ValidId(o, blank) && Joined(t, o) in ids;
      LookalikesMatter(ids, blank, t, o);
    } else {
      forall xs: seq<Row>, ys: seq<Row>, startMs: int, endMs: Option<int> |
        FileOver(xs, ids, blank) && FileOver(ys, ids, blank) && RowsIn(xs, startMs, endMs) == RowsIn(ys, startMs, endMs)
        ensures SameOutcome(Load(xs, startMs, endMs), Load(ys, startMs, endMs))
      {
        NoLookalikesApart(xs, startMs, endMs, ids, blank);
        ImportIsConfluent(xs, ys, startMs, endMs);
      }
    }
  }
}
