/** The outbox table: insertion that ignores known keys, FIFO reads, batch deletion, retry counts. */
module Outbox {
  import opened Prelude
  import opened Payloads

  const SQLITE_MAX_VARIABLES: nat := 999
  const OUTBOX_INSERT_COLUMNS: nat := 3

  /** What a caller enqueues, with its key already computed. */
  datatype Item = Item(action: string, payload: Payload, key: string)

  datatype Row = Row(id: nat, item: Item, retries: nat)

  datatype Table = Table(rows: seq<Row>, nextId: nat)

  predicate HasKey(rows: seq<Row>, key: string) {
    exists i :: 0 <= i < |rows| && rows[i].item.key == key
  }

  /** Ids ascend below `nextId` and no two rows share a key. */
  predicate Sound(t: Table) {
    && (forall i :: 0 <= i < |t.rows| ==> t.rows[i].id < t.nextId)
    && (forall i, j :: 0 <= i < j < |t.rows| ==>
          t.rows[i].id < t.rows[j].id && t.rows[i].item.key != t.rows[j].item.key)
  }

  // --------------------------------------------------------------- insertion

  function InsertOne(t: Table, item: Item): Table {
    if HasKey(t.rows, item.key) then t else Table(t.rows + [Row(t.nextId, item, 0)], t.nextId + 1)
  }

  function InsertAll(t: Table, items: seq<Item>): Table
    decreases |items|
  {
    if items == [] then t else InsertAll(InsertOne(t, items[0]), items[1..])
  }

  /** The row for a key, as the pair of its action and payload; what a table means up to row ids. */
  function Lookup(rows: seq<Row>, key: string): Option<Item> {
    if rows == [] then None
    else if rows[0].item.key == key then Some(rows[0].item)
    else Lookup(rows[1..], key)
  }

  function FirstWithKey(items: seq<Item>, key: string): Option<Item> {
    if items == [] then None
    else if items[0].key == key then Some(items[0])
    else FirstWithKey(items[1..], key)
  }

  function OrElse(a: Option<Item>, b: Option<Item>): Option<Item> {
    if a.Some? then a else b
  }

  lemma {:induction false} LookupFinds(rows: seq<Row>, key: string)
    ensures Lookup(rows, key).Some? <==> HasKey(rows, key)
    ensures Lookup(rows, key).Some? ==> Lookup(rows, key).value.key == key
  {
    if rows != [] {
      LookupFinds(rows[1..], key);
      if HasKey(rows, key) && rows[0].item.key != key {
        var i :| 0 <= i < |rows| && rows[i].item.key == key;
        assert rows[1..][i - 1].item.key == key;
      }
    }
  }

  lemma {:induction false} LookupAppend(rows: seq<Row>, row: Row, key: string)
    ensures Lookup(rows + [row], key) == OrElse(Lookup(rows, key), if row.item.key == key then Some(row.item) else None)
  {
    if rows == [] {
      assert rows + [row] == [row] && [row][1..] == [];
    } else {
      assert (rows + [row])[1..] == rows[1..] + [row];
      LookupAppend(rows[1..], row, key);
    }
  }

  lemma InsertOneMeans(t: Table, item: Item, key: string)
    ensures Lookup(InsertOne(t, item).rows, key) ==
      OrElse(Lookup(t.rows, key), if item.key == key then Some(item) else None)
  {
    LookupFinds(t.rows, key);
    LookupAppend(t.rows, Row(t.nextId, item, 0), key);
  }

  /** What a key maps to after an enqueue: the row it had, else the first item that carries it. */
  lemma {:induction false} InsertAllMeans(t: Table, items: seq<Item>, key: string)
    ensures Lookup(InsertAll(t, items).rows, key) == OrElse(Lookup(t.rows, key), FirstWithKey(items, key))
    decreases |items|
  {
    if items != [] {
      InsertOneMeans(t, items[0], key);
      InsertAllMeans(InsertOne(t, items[0]), items[1..], key);
    }
  }

  lemma {:induction false} InsertAllKeepsSound(t: Table, items: seq<Item>)
    requires Sound(t)
    ensures Sound(InsertAll(t, items))
    ensures t.rows <= InsertAll(t, items).rows && |InsertAll(t, items).rows| <= |t.rows| + |items|
    decreases |items|
  {
    if items != [] {
      InsertAllKeepsSound(InsertOne(t, items[0]), items[1..]);
    }
  }

  /** Every row after an enqueue was there before or is one of the items, never tried so far. */
  lemma {:induction false} InsertedRowsAre(t: Table, items: seq<Item>, r: Row)
    requires r in InsertAll(t, items).rows
    ensures r in t.rows || (r.item in items && r.retries == 0)
    decreases |items|
  {
    if items != [] {
      InsertedRowsAre(InsertOne(t, items[0]), items[1..], r);
    }
  }

  /** Cutting an enqueue anywhere changes nothing: chunk boundaries are invisible. */
  lemma {:induction false} InsertAllSplits(t: Table, a: seq<Item>, b: seq<Item>)
    ensures InsertAll(InsertAll(t, a), b) == InsertAll(t, a + b)
    decreases |a|
  {
    if a == [] {
      assert a + b == b;
    } else {
      assert (a + b)[1..] == a[1..] + b;
      InsertAllSplits(InsertOne(t, a[0]), a[1..], b);
    }
  }

  // ---------------------------------------------------------------- deletion

  function IdSet(ids: seq<nat>): set<nat> { set id | id in ids }

  function Without(rows: seq<Row>, ids: set<nat>): seq<Row> {
    if rows == [] then []
    else if rows[0].id in ids then Without(rows[1..], ids)
    else [rows[0]] + Without(rows[1..], ids)
  }

  lemma {:induction false} WithoutTwice(rows: seq<Row>, a: set<nat>, b: set<nat>)
    ensures Without(Without(rows, a), b) == Without(rows, a + b)
  {
    if rows != [] {
      WithoutTwice(rows[1..], a, b);
      var rest := Without(rows[1..], a);
      if rows[0].id !in a {
        assert ([rows[0]] + rest)[1..] == rest;
      }
    }
  }

  lemma {:induction false} WithoutMembers(rows: seq<Row>, ids: set<nat>, row: Row)
    ensures row in Without(rows, ids) <==> row in rows && row.id !in ids
  {
    if rows != [] {
      WithoutMembers(rows[1..], ids, row);
      assert row in rows <==> row == rows[0] || row in rows[1..];
    }
  }

  function RowIds(rows: seq<Row>): (r: seq<nat>)
    ensures |r| == |rows| && forall i :: 0 <= i < |rows| ==> r[i] == rows[i].id
  {
    if rows == [] then [] else [rows[0].id] + RowIds(rows[1..])
  }

  /** Deleting ids that are all present removes exactly that many rows. */
  lemma {:induction false} WithoutCounts(rows: seq<Row>, ids: set<nat>)
    requires Distinct(RowIds(rows)) && forall id :: id in ids ==> id in RowIds(rows)
    ensures |Without(rows, ids)| + |ids| == |rows|
  {
    if rows == [] {
      assert ids == {};
    } else {
      var r := rows[0].id;
      assert RowIds(rows)[1..] == RowIds(rows[1..]);
      forall i, j | 0 <= i < j < |rows| - 1 ensures RowIds(rows[1..])[i] != RowIds(rows[1..])[j] {
        assert RowIds(rows)[i + 1] != RowIds(rows)[j + 1];
      }
      forall id | id in ids - {r} ensures id in RowIds(rows[1..]) {
        var i :| 0 <= i < |rows| && RowIds(rows)[i] == id;
        assert RowIds(rows[1..])[i - 1] == id;
      }
      assert r !in RowIds(rows[1..]);
      WithoutCounts(rows[1..], ids - {r});
      WithoutAbsent(rows[1..], ids, r);
      assert r in ids ==> |ids - {r}| == |ids| - 1;
      assert r !in ids ==> ids - {r} == ids;
    }
  }

  lemma {:induction false} WithoutConcat(a: seq<Row>, b: seq<Row>, ids: set<nat>)
    ensures Without(a + b, ids) == Without(a, ids) + Without(b, ids)
  {
    if a == [] {
      assert a + b == b;
    } else {
      assert (a + b)[1..] == a[1..] + b;
      WithoutConcat(a[1..], b, ids);
    }
  }

  lemma {:induction false} WithoutKeepsSound(rows: seq<Row>, ids: set<nat>, next: nat)
    requires Sound(Table(rows, next))
    ensures Sound(Table(Without(rows, ids), next))
  {
    if rows != [] {
      var rest := Without(rows[1..], ids);
      WithoutKeepsSound(rows[1..], ids, next);
      forall r | r in rest ensures rows[0].id < r.id && rows[0].item.key != r.item.key {
        WithoutMembers(rows[1..], ids, r);
      }
    }
  }

  lemma {:induction false} WithoutAbsent(rows: seq<Row>, ids: set<nat>, r: nat)
    requires r !in RowIds(rows)
    ensures Without(rows, ids) == Without(rows, ids - {r})
  {
    if rows != [] {
      assert RowIds(rows)[0] == rows[0].id;
      assert forall k :: k in RowIds(rows[1..]) ==> k in RowIds(rows);
      WithoutAbsent(rows[1..], ids, r);
    }
  }

  /** The oldest rows; as in SQLite, a negative limit means no limit. */
  function Oldest(rows: seq<Row>, limit: int): (r: seq<Row>)
    ensures r <= rows
  {
    if 0 <= limit < |rows| then rows[..limit] else rows
  }

  // ------------------------------------------------------------------ the table

  datatype DbError = DbError

  class OutboxTable {
    var table: Table

    constructor ()
      ensures table == Table([], 1)
    {
      table := Table([], 1);
    }

    /**
     Inserts in one transaction, chunk by chunk. `fails(k)` says that serializing
     or executing the `k`-th chunk fails; `commits` is the fate of the commit.
     */
    method EnqueueBatch(items: seq<Item>, fails: nat -> bool, commits: bool)
      returns (r: Result<(), DbError>, ghost statements: seq<nat>)
      modifies this
      ensures r.Ok? ==> table == InsertAll(old(table), items)
      ensures r.Err? ==> table == old(table)
      ensures r.Ok? <==> items == [] || (commits && forall k :: 0 <= k < Chunks(|items|) ==> !fails(k))
      ensures forall n :: n in statements ==> 0 < n * OUTBOX_INSERT_COLUMNS <= SQLITE_MAX_VARIABLES
    {
      statements := [];
      if items == [] {
        return Ok(()), statements;
      }
      var size := SQLITE_MAX_VARIABLES / OUTBOX_INSERT_COLUMNS;
      var tx := table;
      var done, k := 0, 0;
      while done < |items|
        invariant 0 <= done <= |items| && k <= Chunks(|items|) && table == old(table)
        invariant done == if k * size <= |items| then k * size else |items|
        invariant k < Chunks(|items|) <==> done < |items|
        invariant tx == InsertAll(table, items[..done])
        invariant forall j :: 0 <= j < k ==> !fails(j)
        invariant forall n :: n in statements ==> 0 < n * OUTBOX_INSERT_COLUMNS <= SQLITE_MAX_VARIABLES
        decreases |items| - done
      {
        if fails(k) {
          return Err(DbError), statements;
        }
        var end := if done + size <= |items| then done + size else |items|;
        var chunk := items[done..end];
        var before := |tx.rows|;
        InsertAllGrows(tx, chunk);
        InsertAllSplits(table, items[..done], chunk);
        assert items[..done] + chunk == items[..end];
        tx := InsertAll(tx, chunk);
        var rowsAffected := |tx.rows| - before;
        var ignored: nat := |chunk| - rowsAffected;
        statements := statements + [|chunk|];
        done, k := end, k + 1;
      }
      assert items[..|items|] == items;
      if !commits {
        return Err(DbError), statements;
      }
      table := tx;
      return Ok(()), statements;
    }

    function Pending(limit: int): seq<Row>
      reads this
    {
      Oldest(table.rows, limit)
    }

    /** Deletes in one transaction, at most 999 ids a statement. */
    method DeleteBatch(ids: seq<nat>, succeeds: bool) returns (r: Result<(), DbError>)
      modifies this
      ensures r.Ok? <==> ids == [] || succeeds
      ensures table == if ids == [] || !succeeds then old(table)
                       else old(table).(rows := Without(old(table).rows, IdSet(ids)))
    {
      if ids == [] {
        return Ok(());
      }
      if !succeeds {
        return Err(DbError);
      }
      var tx := table.rows;
      var done := 0;
      WithoutNothing(tx);
      assert IdSet(ids[..0]) == {};
      while done < |ids|
        invariant 0 <= done <= |ids| && table == old(table)
        invariant tx == Without(table.rows, IdSet(ids[..done]))
      {
        var end := if done + SQLITE_MAX_VARIABLES <= |ids| then done + SQLITE_MAX_VARIABLES else |ids|;
        var chunk := ids[done..end];
        WithoutTwice(table.rows, IdSet(ids[..done]), IdSet(chunk));
        assert ids[..end] == ids[..done] + chunk;
        assert IdSet(ids[..end]) == IdSet(ids[..done]) + IdSet(chunk);
        tx := Without(tx, IdSet(chunk));
        done := end;
      }
      assert ids[..|ids|] == ids;
      table := table.(rows := tx);
      return Ok(());
    }

    method IncrementRetries(id: nat, succeeds: bool)
      modifies this
      ensures table == if succeeds then old(table).(rows := Bumped(old(table).rows, id)) else old(table)
    {
      if succeeds {
        table := table.(rows := Bumped(table.rows, id));
      }
    }
  }

  function Chunks(n: nat): nat { (n + SQLITE_MAX_VARIABLES / OUTBOX_INSERT_COLUMNS - 1) / (SQLITE_MAX_VARIABLES / OUTBOX_INSERT_COLUMNS) }

  function Bumped(rows: seq<Row>, id: nat): (r: seq<Row>)
    ensures |r| == |rows|
    ensures forall i :: 0 <= i < |rows| ==>
      r[i] == if rows[i].id == id then rows[i].(retries := rows[i].retries + 1) else rows[i]
  {
    if rows == [] then []
    else [if rows[0].id == id then rows[0].(retries := rows[0].retries + 1) else rows[0]] + Bumped(rows[1..], id)
  }

  lemma {:induction false} InsertAllGrows(t: Table, items: seq<Item>)
    ensures |t.rows| <= |InsertAll(t, items).rows| <= |t.rows| + |items|
    decreases |items|
  {
    if items != [] {
      InsertAllGrows(InsertOne(t, items[0]), items[1..]);
    }
  }

  lemma {:induction false} WithoutNothing(rows: seq<Row>)
    ensures Without(rows, {}) == rows
  {
    if rows != [] {
      WithoutNothing(rows[1..]);
    }
  }
}
