/** The delivery loop: execute pending rows in any completion order, delete the delivered ones, drain. */
module OutboxDelivery {
  import opened Prelude
  import opened Outbox

  /**
   One round of the outside world: the order in which executions finish, which of
   them succeed, which database writes succeed, and what other tasks enqueue after
   the k-th execution and before the k-th deletion.
   */
  datatype Round = Round(
    readable: bool,
    arrival: seq<nat> -> seq<nat>,
    executes: nat -> bool,
    bumps: nat -> bool,
    batchDeletes: bool,
    deletes: nat -> bool,
    lands: nat -> seq<Item>,
    landsLate: nat -> seq<Item>)

  /** Nothing is enqueued while the round runs. */
  ghost predicate Quiet(w: Round) {
    forall k :: w.lands(k) == [] && w.landsLate(k) == []
  }

  /** Executions finish in some order, each exactly once. */
  ghost predicate Arrives(w: Round) {
    forall ids: seq<nat> :: multiset(w.arrival(ids)) == multiset(ids)
  }

  predicate Removes(w: Round, id: nat) {
    w.executes(id) && (w.batchDeletes || w.deletes(id))
  }

  /** The fate of one row: gone, retried later, or untouched. */
  function SettleRow(w: Round, row: Row): seq<Row> {
    if Removes(w, row.id) then []
    else if !w.executes(row.id) && w.bumps(row.id) then [row.(retries := row.retries + 1)]
    else [row]
  }

  /** The table after a round over the rows `ids`; no completion order appears here. */
  function Settle(w: Round, rows: seq<Row>, ids: set<nat>): seq<Row> {
    if rows == [] then []
    else (if rows[0].id in ids then SettleRow(w, rows[0]) else [rows[0]]) + Settle(w, rows[1..], ids)
  }

  /** Retry counts after the failures among `seen` have been recorded. */
  function Counted(w: Round, rows: seq<Row>, seen: set<nat>): (r: seq<Row>)
    ensures |r| == |rows|
    ensures forall i :: 0 <= i < |rows| ==> r[i] == CountedRow(w, rows[i], seen)
    ensures RowIds(r) == RowIds(rows)
  {
    if rows == [] then [] else [CountedRow(w, rows[0], seen)] + Counted(w, rows[1..], seen)
  }

  function CountedRow(w: Round, row: Row, seen: set<nat>): Row {
    if row.id in seen && !w.executes(row.id) && w.bumps(row.id) then row.(retries := row.retries + 1) else row
  }

  lemma {:induction false} CountOneMore(w: Round, rows: seq<Row>, seen: set<nat>, id: nat)
    requires id !in seen
    ensures Counted(w, rows, seen + {id}) ==
      if !w.executes(id) && w.bumps(id) then Bumped(Counted(w, rows, seen), id) else Counted(w, rows, seen)
  {
    if rows != [] {
      CountOneMore(w, rows[1..], seen, id);
      var counted := Counted(w, rows, seen);
      assert counted[0] == CountedRow(w, rows[0], seen) && counted[1..] == Counted(w, rows[1..], seen);
    }
  }

  lemma {:induction false} CountThenDelete(w: Round, rows: seq<Row>, ids: set<nat>, gone: set<nat>)
    requires forall id :: id in gone <==> id in ids && Removes(w, id)
    ensures Without(Counted(w, rows, ids), gone) == Settle(w, rows, ids)
  {
    if rows != [] {
      CountThenDelete(w, rows[1..], ids, gone);
      var counted := Counted(w, rows, ids);
      assert counted[1..] == Counted(w, rows[1..], ids);
    }
  }

  lemma HeadSettles(w: Round, row: Row, ids: set<nat>, id: nat)
    ensures var head := if row.id in ids then SettleRow(w, row) else [row];
      && (id in RowIds(head) ==> id == row.id)
      && (id == row.id && (id !in ids || !Removes(w, id)) ==> id in RowIds(head))
  {
    var head := if row.id in ids then SettleRow(w, row) else [row];
    if head != [] {
      assert RowIds(head) == [row.id];
    }
  }

  lemma {:induction false} RowIdsConcat(a: seq<Row>, b: seq<Row>)
    ensures RowIds(a + b) == RowIds(a) + RowIds(b)
  {
    if a == [] {
      assert a + b == b;
    } else {
      assert (a + b)[1..] == a[1..] + b;
      RowIdsConcat(a[1..], b);
    }
  }

  predicate CameFrom(rows: seq<Row>, r: Row) { exists k :: 0 <= k < |rows| && SameRow(rows[k], r) }

  lemma {:induction false} SettledCameFrom(w: Round, rows: seq<Row>, ids: set<nat>, r: Row)
    requires r in Settle(w, rows, ids)
    ensures CameFrom(rows, r)
  {
    var head := if rows[0].id in ids then SettleRow(w, rows[0]) else [rows[0]];
    if r in head {
      assert SameRow(rows[0], r);
    } else {
      SettledCameFrom(w, rows[1..], ids, r);
      var k :| 0 <= k < |rows| - 1 && SameRow(rows[1..][k], r);
      assert SameRow(rows[k + 1], r);
    }
  }

  lemma SoundTail(rows: seq<Row>, next: nat)
    requires Sound(Table(rows, next)) && rows != []
    ensures Sound(Table(rows[1..], next))
    ensures forall r :: CameFrom(rows[1..], r) ==> rows[0].id < r.id < next && rows[0].item.key != r.item.key
  {
    var rest := rows[1..];
    assert forall i :: 0 <= i < |rest| ==> rest[i] == rows[i + 1];
  }

  lemma SoundCons(h: Row, rest: seq<Row>, next: nat)
    requires Sound(Table(rest, next)) && h.id < next
    requires forall r :: r in rest ==> h.id < r.id && h.item.key != r.item.key
    ensures Sound(Table([h] + rest, next))
  {
  }

  /** Settled rows keep their id and item, in order, so the table stays sound. */
  lemma {:induction false} SettleKeepsSound(w: Round, rows: seq<Row>, ids: set<nat>, next: nat)
    requires Sound(Table(rows, next))
    ensures Sound(Table(Settle(w, rows, ids), next))
  {
    if rows != [] {
      SoundTail(rows, next);
      SettleKeepsSound(w, rows[1..], ids, next);
      var head := if rows[0].id in ids then SettleRow(w, rows[0]) else [rows[0]];
      var rest := Settle(w, rows[1..], ids);
      forall r | r in rest ensures rows[0].id < r.id && rows[0].item.key != r.item.key {
        SettledCameFrom(w, rows[1..], ids, r);
      }
      if head == [] {
        assert head + rest == rest;
      } else {
        SoundCons(head[0], rest, next);
        assert head == [head[0]];
      }
    }
  }

  predicate SameRow(a: Row, b: Row) { a.id == b.id && a.item == b.item }

  lemma SoundIdsDistinct(t: Table)
    requires Sound(t)
    ensures Distinct(RowIds(t.rows))
  {
  }

  /**
   A row that a round leaves is the row there was, its retries counted up by one exactly
   if the round read it, its execution failed and the count was stored.
   */
  lemma {:induction false} SurvivorsAre(w: Round, rows: seq<Row>, ids: set<nat>, r: Row)
    ensures r in Settle(w, rows, ids) <==>
      exists row :: row in rows && !(row.id in ids && w.executes(row.id) && (w.batchDeletes || w.deletes(row.id)))
        && r == row.(retries := row.retries + if row.id in ids && !w.executes(row.id) && w.bumps(row.id) then 1 else 0)
  {
    if rows != [] {
      SurvivorsAre(w, rows[1..], ids, r);
      assert forall x :: x in rows <==> x == rows[0] || x in rows[1..];
    }
  }

  // ------------------------------------------- rows that arrive meanwhile

  /** The table is `base`, followed by rows that got their ids from `first` on. */
  ghost predicate Shape(t: Table, base: seq<Row>, first: nat, quiet: bool) {
    && Sound(t) && base <= t.rows && first <= t.nextId
    && (forall i :: |base| <= i < |t.rows| ==> t.rows[i].id >= first)
    && (quiet ==> t == Table(base, first))
  }

  lemma {:induction false} LandKeeps(t: Table, base: seq<Row>, first: nat, quiet: bool, items: seq<Item>)
    requires Shape(t, base, first, quiet) && (quiet ==> items == [])
    ensures Shape(InsertAll(t, items), base, first, quiet)
    decreases |items|
  {
    if items != [] {
      LandKeeps(InsertOne(t, items[0]), base, first, quiet, items[1..]);
    }
  }

  lemma {:induction false} LateRowsStay(rows: seq<Row>, ids: set<nat>)
    requires forall r :: r in rows ==> r.id !in ids
    ensures Without(rows, ids) == rows
  {
    if rows != [] {
      LateRowsStay(rows[1..], ids);
    }
  }

  lemma DeleteKeeps(t: Table, base: seq<Row>, first: nat, quiet: bool, ids: set<nat>)
    requires Shape(t, base, first, quiet) && forall id :: id in ids ==> id < first
    ensures Shape(t.(rows := Without(t.rows, ids)), Without(base, ids), first, quiet)
  {
    var late := t.rows[|base|..];
    assert t.rows == base + late;
    WithoutConcat(base, late, ids);
    LateRowsStay(late, ids);
    WithoutKeepsSound(t.rows, ids, t.nextId);
  }

  lemma {:induction false} BumpedConcat(a: seq<Row>, b: seq<Row>, id: nat)
    ensures Bumped(a + b, id) == Bumped(a, id) + Bumped(b, id)
  {
    if a == [] {
      assert a + b == b;
    } else {
      assert (a + b)[1..] == a[1..] + b;
      BumpedConcat(a[1..], b, id);
    }
  }

  lemma BumpedSame(rows: seq<Row>, id: nat)
    ensures forall i :: 0 <= i < |rows| ==> SameRow(rows[i], Bumped(rows, id)[i])
  {
  }

  lemma BumpKeeps(t: Table, base: seq<Row>, first: nat, quiet: bool, id: nat)
    requires Shape(t, base, first, quiet) && id < first
    ensures Shape(t.(rows := Bumped(t.rows, id)), Bumped(base, id), first, quiet)
  {
    assert t.rows == base + t.rows[|base|..];
    BumpedConcat(base, t.rows[|base|..], id);
    BumpedSame(t.rows, id);
    SameRowsAreSound(t.rows, Bumped(t.rows, id), t.nextId);
  }

  lemma SameRowsAreSound(a: seq<Row>, b: seq<Row>, next: nat)
    requires Sound(Table(a, next)) && |a| == |b| && forall i :: 0 <= i < |a| ==> SameRow(a[i], b[i])
    ensures Sound(Table(b, next))
  {
  }

  /**
   Where a drain got: `Drained` after a read that found nothing, `DrainFailed` after
   a failed read, `StillRunning` when nothing has ended it yet.
   */
  datatype DrainResult = Drained(count: nat) | DrainFailed | StillRunning

  /** The ids whose own transaction succeeds. */
  function Deletable(w: Round, ids: seq<nat>): set<nat> { set id | id in ids && w.deletes(id) }

  lemma OneMoreDeletable(w: Round, ids: seq<nat>, i: nat, base: seq<Row>)
    requires Distinct(ids) && i < |ids|
    ensures ids[i] in ids
    ensures Deletable(w, ids[..i + 1]) == Deletable(w, ids[..i]) + if w.deletes(ids[i]) then {ids[i]} else {}
    ensures |Deletable(w, ids[..i + 1])| == |Deletable(w, ids[..i])| + if w.deletes(ids[i]) then 1 else 0
    ensures Without(base, Deletable(w, ids[..i + 1])) ==
      var before := Without(base, Deletable(w, ids[..i])); if w.deletes(ids[i]) then Without(before, {ids[i]}) else before
  {
    assert ids[i] !in ids[..i];
    assert ids[..i + 1] == ids[..i] + [ids[i]];
    WithoutTwice(base, Deletable(w, ids[..i]), {ids[i]});
    assert Deletable(w, ids[..i + 1]) == Deletable(w, ids[..i]) + if w.deletes(ids[i]) then {ids[i]} else {};
  }

  lemma OneMoreSeen(results: seq<nat>, i: nat)
    requires Distinct(results) && i < |results|
    ensures results[i] in results && results[i] !in IdSet(results[..i])
    ensures IdSet(results[..i + 1]) == IdSet(results[..i]) + {results[i]}
  {
    assert results[..i + 1] == results[..i] + [results[i]];
  }

  /** The delivered ids among `results`, each once. */
  ghost predicate Collected(w: Round, results: seq<nat>, successful: seq<nat>) {
    Distinct(successful) && forall id :: id in successful <==> id in results && w.executes(id)
  }

  lemma CollectsOneMore(w: Round, results: seq<nat>, i: nat, successful: seq<nat>)
    requires Distinct(results) && i < |results| && Collected(w, results[..i], successful)
    ensures Collected(w, results[..i + 1], if w.executes(results[i]) then successful + [results[i]] else successful)
  {
    assert results[i] !in results[..i];
    assert results[..i + 1] == results[..i] + [results[i]];
  }

  /** Why a drain stops where it does; `i` rounds have run. */
  predicate StopsAt(r: DrainResult, rounds: seq<Round>, i: nat, rows: seq<Row>, size: int, total: int)
    requires i <= |rounds|
  {
    match r
    case Drained(n) => i < |rounds| && rounds[i].readable && (rows == [] || size == 0) && n == total
    case DrainFailed => i < |rounds| && !rounds[i].readable
    case StillRunning => true
  }

  class OutboxProcessor {
    const state: OutboxTable
    const batchSize: int

    constructor (state: OutboxTable, batchSize: int)
      ensures this.state == state && this.batchSize == batchSize
    {
      this.state, this.batchSize := state, batchSize;
    }

    /** Another task enqueues. */
    method Land(items: seq<Item>, ghost base: seq<Row>, ghost first: nat, ghost quiet: bool)
      requires Shape(state.table, base, first, quiet) && (quiet ==> items == [])
      modifies state
      ensures Shape(state.table, base, first, quiet)
    {
      LandKeeps(state.table, base, first, quiet, items);
      var _, _ := state.EnqueueBatch(items, _ => false, true);
    }

    /** The best-effort fallback: each delivered id in its own transaction. */
    method DeleteOneByOne(ids: seq<nat>, w: Round, ghost base: seq<Row>, ghost first: nat) returns (count: nat)
      requires Distinct(ids) && (forall id :: id in ids ==> id < first) && Shape(state.table, base, first, Quiet(w))
      modifies state
      ensures Shape(state.table, Without(base, Deletable(w, ids)), first, Quiet(w)) && count == |Deletable(w, ids)|
    {
      count := 0;
      WithoutNothing(base);
      assert Deletable(w, ids[..0]) == {};
      for i := 0 to |ids|
        invariant Shape(state.table, Without(base, Deletable(w, ids[..i])), first, Quiet(w))
        invariant count == |Deletable(w, ids[..i])|
      {
        OneMoreDeletable(w, ids, i, base);
        var deleted := DeleteOne(ids[i], i, w, Without(base, Deletable(w, ids[..i])), first);
        if deleted {
          count := count + 1;
        }
      }
      assert ids[..|ids|] == ids;
    }

    method DeleteOne(id: nat, i: nat, w: Round, ghost base: seq<Row>, ghost first: nat) returns (deleted: bool)
      requires Shape(state.table, base, first, Quiet(w)) && id < first
      modifies state
      ensures deleted == w.deletes(id)
      ensures Shape(state.table, if deleted then Without(base, {id}) else base, first, Quiet(w))
    {
      Land(w.landsLate(i + 1), base, first, Quiet(w));
      assert IdSet([id]) == {id};
      DeleteKeeps(state.table, base, first, Quiet(w), {id});
      var r := state.DeleteBatch([id], w.deletes(id));
      deleted := r.Ok?;
    }

    /** Results in completion order: delivered ids are collected, failures counted on their rows. */
    method ExecuteAll(results: seq<nat>, w: Round, ghost base: seq<Row>, ghost first: nat) returns (successful: seq<nat>)
      requires Distinct(results) && (forall id :: id in results ==> id < first)
      requires Shape(state.table, base, first, Quiet(w))
      modifies state
      ensures Shape(state.table, Counted(w, base, IdSet(results)), first, Quiet(w))
      ensures Collected(w, results, successful)
    {
      successful := [];
      assert Counted(w, base, {}) == base && IdSet(results[..0]) == {};
      for i := 0 to |results|
        invariant Shape(state.table, Counted(w, base, IdSet(results[..i])), first, Quiet(w))
        invariant Collected(w, results[..i], successful)
      {
        OneMoreSeen(results, i);
        CollectsOneMore(w, results, i, successful);
        var delivered := FinishOne(results[i], i, w, base, IdSet(results[..i]), first);
        if delivered {
          successful := successful + [results[i]];
        }
      }
      assert results[..|results|] == results;
    }

    /** One result: a failure is counted on its row, and something may be enqueued before the next. */
    method FinishOne(id: nat, i: nat, w: Round, ghost base: seq<Row>, ghost seen: set<nat>, ghost first: nat)
      returns (delivered: bool)
      requires id !in seen && id < first && Shape(state.table, Counted(w, base, seen), first, Quiet(w))
      modifies state
      ensures delivered == w.executes(id)
      ensures Shape(state.table, Counted(w, base, seen + {id}), first, Quiet(w))
    {
      CountOneMore(w, base, seen, id);
      delivered := w.executes(id);
      if !delivered {
        BumpKeeps(state.table, Counted(w, base, seen), first, Quiet(w), id);
        state.IncrementRetries(id, w.bumps(id));
      }
      Land(w.lands(i), Counted(w, base, seen + {id}), first, Quiet(w));
    }

    /** One transaction for all delivered ids, else one each. */
    method DeleteDelivered(successful: seq<nat>, w: Round, ghost base: seq<Row>, ghost first: nat)
      returns (deletedCount: nat)
      requires Distinct(successful) && (forall id :: id in successful ==> id < first)
      requires Shape(state.table, base, first, Quiet(w))
      modifies state
      ensures var gone := set id | id in successful && (w.batchDeletes || w.deletes(id));
        Shape(state.table, Without(base, gone), first, Quiet(w)) && deletedCount == |gone|
    {
      deletedCount := 0;
      ghost var gone := set id | id in successful && (w.batchDeletes || w.deletes(id));
      if successful == [] {
        WithoutNothing(base);
        assert gone == {};
      } else {
        Land(w.landsLate(0), base, first, Quiet(w));
        DeleteKeeps(state.table, base, first, Quiet(w), IdSet(successful));
        var r := state.DeleteBatch(successful, w.batchDeletes);
        if r.Ok? {
          assert IdSet(successful) == gone;
          DistinctSize(successful);
          deletedCount := |successful|;
        } else {
          deletedCount := DeleteOneByOne(successful, w, base, first);
          assert Deletable(w, successful) == gone;
        }
      }
    }

    /**
     One batch. Whatever the completion order, and whatever is enqueued meanwhile, a
     row goes exactly when its execution and its deletion succeeded, the count is the
     number of rows gone, and new rows only follow behind.
     */
    method ProcessBatchItems(items: seq<Row>, w: Round) returns (deletedCount: nat)
      requires Sound(state.table) && Arrives(w)
      requires items <= state.table.rows
      modifies state
      ensures var settled := Settle(w, old(state.table).rows, IdSet(RowIds(items)));
        && Shape(state.table, settled, old(state.table).nextId, Quiet(w))
        && |settled| + deletedCount == |old(state.table).rows|
    {
      ghost var rows, ids, first := state.table.rows, IdSet(RowIds(items)), state.table.nextId;
      SoundIdsDistinct(state.table);
      PrefixIds(items, rows);
      IdsAreOld(state.table);
      var results := w.arrival(RowIds(items));
      PermutationIsDistinct(RowIds(items), results);
      SameElements(RowIds(items), results);
      assert forall id :: id in results <==> id in IdSet(results);
      var successful := ExecuteAll(results, w, rows, first);
      deletedCount := DeleteDelivered(successful, w, Counted(w, rows, ids), first);
      RoundSettles(w, rows, ids, set id | id in successful && (w.batchDeletes || w.deletes(id)));
    }

    /**
     Drains until a read finds nothing. `rounds` is what the world will do; the
     program has no retry cap, so it may still be running when they are used up. It
     ends if every batch it reads loses at least one row, after at most as many rounds
     as there were rows or came meanwhile. `h` holds the rows before each round that
     ran, and the rows left at the end.
     */
    method DrainQueue(rounds: seq<Round>) returns (r: DrainResult, ghost h: seq<seq<Row>>)
      requires Sound(state.table) && forall k :: 0 <= k < |rounds| ==> Arrives(rounds[k])
      modifies state
      ensures Sound(state.table) && Drains(rounds, batchSize, old(state.table).nextId, h)
      ensures h[0] == old(state.table).rows && h[|h| - 1] == state.table.rows
      ensures match r
        case Drained(n) =>
          && |h| <= |rounds| && rounds[|h| - 1].readable && (state.table.rows == [] || batchSize == 0)
          && n + |state.table.rows| == |old(state.table).rows| + Landed(rounds, batchSize, h)
        case DrainFailed => |h| <= |rounds| && !rounds[|h| - 1].readable
        case StillRunning => |h| == |rounds| + 1
      ensures (|rounds| > |old(state.table).rows| + Landed(rounds, batchSize, h)
               && (forall k :: 0 <= k < |rounds| ==> rounds[k].readable) && MakesProgress(rounds, batchSize, h)) ==> r.Drained?
    {
      var total: nat, i := 0, 0;
      r, h := StillRunning, [state.table.rows];
      ghost var first := state.table.nextId;
      RowIdsAscend(state.table.rows, first);
      while i < |rounds| && r.StillRunning?
        invariant i <= |rounds| && |h| == i + 1 && Sound(state.table) && first <= state.table.nextId
        invariant Drains(rounds, batchSize, first, h)
        invariant h[0] == old(state.table).rows && h[i] == state.table.rows
        invariant total + |h[i]| == |h[0]| + Landed(rounds, batchSize, h)
        invariant StopsAt(r, rounds, i, h[i], batchSize, total)
        decreases |rounds| - i, r.StillRunning?
      {
        if !rounds[i].readable {
          r := DrainFailed;
        } else {
          var found, count := DrainOnce(rounds[i], first);
          if !found {
            r := Drained(total);
          } else {
            total := total + count;
            OneMoreRound(rounds, batchSize, first, h, state.table.rows);
            h := h + [state.table.rows];
            i := i + 1;
          }
        }
      }
      ProgressBounds(rounds, batchSize, first, h);
    }

    /** One turn of the drain loop: reads the oldest rows and processes them, unless there are none. */
    method DrainOnce(w: Round, ghost first: nat) returns (found: bool, count: nat)
      requires Sound(state.table) && Arrives(w) && first <= state.table.nextId && w.readable
      modifies state
      ensures Sound(state.table) && old(state.table).nextId <= state.table.nextId
      ensures found <==> BatchIds(old(state.table).rows, batchSize) != {}
      ensures !found ==> state.table == old(state.table) && (state.table.rows == [] || batchSize == 0)
      ensures found ==> RoundLeaves(w, batchSize, first, old(state.table).rows, state.table.rows)
      ensures found ==> |Settle(w, old(state.table).rows, BatchIds(old(state.table).rows, batchSize))| + count == |old(state.table).rows|
    {
      var items := state.Pending(batchSize);
      found, count := items != [], 0;
      assert items != [] ==> RowIds(items)[0] in IdSet(RowIds(items));
      if found {
        count := ProcessBatchItems(items, w);
        RowIdsAscend(state.table.rows, state.table.nextId);
      }
    }
  }

  // -------------------------------------------------- the rounds of a drain

  /** The ids of the batch that is read from `rows`. */
  function BatchIds(rows: seq<Row>, size: int): set<nat> { IdSet(RowIds(Oldest(rows, size))) }

  /**
   Round `k` reads from `h[k]`, finds a batch there and leaves `h[k + 1]`; rows that
   came since the drain began have ids from `first` on.
   */
  ghost predicate Drains(rounds: seq<Round>, size: int, first: nat, h: seq<seq<Row>>) {
    && 1 <= |h| <= |rounds| + 1 && Ascending(RowIds(h[0])) && (forall id :: id in RowIds(h[0]) ==> id < first)
    && forall k :: 0 <= k < |h| - 1 ==> RoundLeaves(rounds[k], size, first, h[k], h[k + 1])
  }

  /** The round settles its batch; what was enqueued meanwhile follows behind. */
  ghost predicate RoundLeaves(w: Round, size: int, first: nat, before: seq<Row>, after: seq<Row>) {
    var settled := Settle(w, before, BatchIds(before, size));
    && w.readable && BatchIds(before, size) != {}
    && settled <= after && Ascending(RowIds(after))
    && (forall i :: |settled| <= i < |after| ==> after[i].id >= first)
    && (Quiet(w) ==> after == settled)
  }

  /** How many rows were enqueued while the rounds ran. */
  function Landed(rounds: seq<Round>, size: int, h: seq<seq<Row>>): int
    requires |h| <= |rounds| + 1
  {
    if |h| <= 1 then 0
    else
      var k := |h| - 2;
      Landed(rounds, size, h[..|h| - 1]) + |h[k + 1]| - |Settle(rounds[k], h[k], BatchIds(h[k], size))|
  }

  lemma OneMoreRound(rounds: seq<Round>, size: int, first: nat, h: seq<seq<Row>>, after: seq<Row>)
    requires Drains(rounds, size, first, h) && |h| <= |rounds|
    requires RoundLeaves(rounds[|h| - 1], size, first, h[|h| - 1], after)
    ensures Drains(rounds, size, first, h + [after])
    ensures Landed(rounds, size, h + [after]) == Landed(rounds, size, h) + |after|
      - |Settle(rounds[|h| - 1], h[|h| - 1], BatchIds(h[|h| - 1], size))|
  {
    assert (h + [after])[..|h|] == h;
  }

  predicate RemovesSome(w: Round, ids: set<nat>) {
    exists id :: id in ids && Removes(w, id)
  }

  /** Of every batch that was read at least one row was executed and deleted. */
  predicate MakesProgress(rounds: seq<Round>, size: int, h: seq<seq<Row>>)
    requires |h| <= |rounds| + 1
  {
    forall k :: 0 <= k < |h| - 1 ==> RemovesSome(rounds[k], BatchIds(h[k], size))
  }

  /** Histories can be cut after any round. */
  lemma DrainsPrefix(rounds: seq<Round>, size: int, first: nat, h: seq<seq<Row>>)
    requires Drains(rounds, size, first, h) && |h| > 1
    ensures var front := h[..|h| - 1]; Drains(rounds, size, first, front) && front[|front| - 1] == h[|h| - 2]
    ensures RoundLeaves(rounds[|h| - 2], size, first, h[|h| - 2], h[|h| - 1])
    ensures Ascending(RowIds(h[|h| - 2])) && Ascending(RowIds(h[|h| - 1]))
  {
    var k := |h| - 2;
    assert RoundLeaves(rounds[k], size, first, h[k], h[k + 1]);
    assert k > 0 ==> RoundLeaves(rounds[k - 1], size, first, h[k - 1], h[k - 1 + 1]);
  }

  lemma RoundShrinks(w: Round, rows: seq<Row>, size: int)
    requires Ascending(RowIds(rows)) && RemovesSome(w, BatchIds(rows, size))
    ensures |Settle(w, rows, BatchIds(rows, size))| < |rows|
  {
    RemovalShrinks(w, rows, Oldest(rows, size));
  }

  /** The number of rows, with those that came meanwhile, is a measure of a drain that makes progress. */
  lemma {:induction false} EachRoundShrinks(rounds: seq<Round>, size: int, first: nat, h: seq<seq<Row>>)
    requires Drains(rounds, size, first, h) && MakesProgress(rounds, size, h)
    ensures |h[|h| - 1]| + |h| - 1 <= |h[0]| + Landed(rounds, size, h)
  {
    if |h| > 1 {
      DrainsPrefix(rounds, size, first, h);
      EachRoundShrinks(rounds, size, first, h[..|h| - 1]);
      var k := |h| - 2;
      assert RemovesSome(rounds[k], BatchIds(h[k], size));
      RoundShrinks(rounds[k], h[k], size);
    }
  }

  lemma RemovalShrinks(w: Round, rows: seq<Row>, items: seq<Row>)
    requires Distinct(RowIds(rows)) && items <= rows && RemovesSome(w, IdSet(RowIds(items)))
    ensures |Settle(w, rows, IdSet(RowIds(items)))| < |rows|
  {
    var ids := IdSet(RowIds(items));
    PrefixIds(items, rows);
    var gone := set id | id in ids && Removes(w, id);
    RoundSettles(w, rows, ids, gone);
    var id :| id in ids && Removes(w, id);
    assert id in gone;
  }

  lemma ProgressBounds(rounds: seq<Round>, size: int, first: nat, h: seq<seq<Row>>)
    requires Drains(rounds, size, first, h)
    ensures MakesProgress(rounds, size, h) ==> |h| - 1 <= |h[0]| + Landed(rounds, size, h)
  {
    if MakesProgress(rounds, size, h) {
      EachRoundShrinks(rounds, size, first, h);
    }
  }

  predicate RemovedAt(w: Round, size: int, rows: seq<Row>, id: nat) {
    id in BatchIds(rows, size) && w.executes(id) && (w.batchDeletes || w.deletes(id))
  }

  /** Some round that ran read `id`, executed it and deleted it. */
  predicate RemovedIn(rounds: seq<Round>, size: int, h: seq<seq<Row>>, id: nat)
    requires |h| <= |rounds| + 1
  {
    |h| > 1 && (RemovedIn(rounds, size, h[..|h| - 1], id) || RemovedAt(rounds[|h| - 2], size, h[|h| - 2], id))
  }

  lemma RoundIds(w: Round, size: int, first: nat, before: seq<Row>, after: seq<Row>, id: nat)
    requires RoundLeaves(w, size, first, before, after) && id < first
    ensures id in RowIds(after) <==> id in RowIds(before) && !RemovedAt(w, size, before, id)
  {
    var settled := Settle(w, before, BatchIds(before, size));
    SettledIds(w, before, BatchIds(before, size), id);
    LateIds(settled, after, first, id);
  }

  lemma LateIds(rows: seq<Row>, after: seq<Row>, first: nat, id: nat)
    requires rows <= after && id < first && forall i :: |rows| <= i < |after| ==> after[i].id >= first
    ensures id in RowIds(after) <==> id in RowIds(rows)
  {
    var late := after[|rows|..];
    assert after == rows + late;
    RowIdsConcat(rows, late);
    assert forall i :: 0 <= i < |late| ==> RowIds(late)[i] >= first;
  }

  /**
   Of the rows that were there when the drain began, one is gone exactly when a round
   that ran read it, executed it and deleted it.
   */
  lemma {:induction false} RowGoneWhen(rounds: seq<Round>, size: int, first: nat, h: seq<seq<Row>>, id: nat)
    requires Drains(rounds, size, first, h) && id < first
    ensures id in RowIds(h[|h| - 1]) <==> id in RowIds(h[0]) && !RemovedIn(rounds, size, h, id)
  {
    if |h| > 1 {
      DrainsPrefix(rounds, size, first, h);
      RowGoneWhen(rounds, size, first, h[..|h| - 1], id);
      RoundIds(rounds[|h| - 2], size, first, h[|h| - 2], h[|h| - 1], id);
    }
  }

  lemma {:induction false} SettledIds(w: Round, rows: seq<Row>, ids: set<nat>, id: nat)
    ensures id in RowIds(Settle(w, rows, ids)) <==> id in RowIds(rows) && (id !in ids || !Removes(w, id))
  {
    if rows != [] {
      SettledIds(w, rows[1..], ids, id);
      HeadSettles(w, rows[0], ids, id);
      var head := if rows[0].id in ids then SettleRow(w, rows[0]) else [rows[0]];
      RowIdsConcat(head, Settle(w, rows[1..], ids));
      assert RowIds(rows) == [rows[0].id] + RowIds(rows[1..]);
    }
  }

  // ------------------------------------------------------------- starvation

  function Older(ids: seq<nat>, id: nat): set<nat> { set x | x in ids && x < id }

  predicate Ascending(ids: seq<nat>) { forall i, j :: 0 <= i < j < |ids| ==> ids[i] < ids[j] }

  lemma BelowAscending(ids: seq<nat>, i: nat)
    requires Ascending(ids) && i < |ids|
    ensures |Older(ids, ids[i])| == i
  {
    DistinctSize(ids[..i]);
    assert IdSet(ids[..i]) == Older(ids, ids[i]);
  }

  lemma RowIdsAscend(rows: seq<Row>, next: nat)
    requires Sound(Table(rows, next))
    ensures Ascending(RowIds(rows))
  {
  }

  lemma BatchIdsAre(rows: seq<Row>, size: nat)
    ensures BatchIds(rows, size) == IdSet(if size < |rows| then RowIds(rows)[..size] else RowIds(rows))
  {
    assert size < |rows| ==> RowIds(rows[..size]) == RowIds(rows)[..size];
  }

  lemma FirstOfAscending(ids: seq<nat>, size: nat, id: nat)
    requires Ascending(ids) && id in ids
    ensures id in IdSet(if size < |ids| then ids[..size] else ids) <==> |Older(ids, id)| < size
  {
    var i :| 0 <= i < |ids| && ids[i] == id;
    BelowAscending(ids, i);
    if size < |ids| {
      assert i < size ==> ids[..size][i] == ids[i];
      assert forall j :: 0 <= j < size ==> ids[..size][j] == ids[j];
    }
  }

  lemma OldestAre(rows: seq<Row>, size: nat, id: nat)
    requires Ascending(RowIds(rows)) && id in RowIds(rows)
    ensures id in BatchIds(rows, size) <==> |Older(RowIds(rows), id)| < size
  {
    BatchIdsAre(rows, size);
    FirstOfAscending(RowIds(rows), size, id);
  }

  /** The older rows that no round so far has removed. */
  function OlderLeft(rounds: seq<Round>, size: int, h: seq<seq<Row>>, id: nat): set<nat>
    requires 1 <= |h| <= |rounds| + 1
  {
    set x | x in RowIds(h[0]) && x < id && !RemovedIn(rounds, size, h, x)
  }

  lemma OlderLeftAre(rounds: seq<Round>, size: int, first: nat, h: seq<seq<Row>>, id: nat)
    requires Drains(rounds, size, first, h) && id < first
    ensures OlderLeft(rounds, size, h, id) == Older(RowIds(h[|h| - 1]), id)
  {
    forall x: nat | x < id ensures x in OlderLeft(rounds, size, h, id) <==> x in Older(RowIds(h[|h| - 1]), id) {
      RowGoneWhen(rounds, size, first, h, x);
    }
  }

  /**
   First in, first out, with no way past: after any rounds the next read finds a row
   exactly when the row is still there and fewer than a batch of older rows are.
   */
  lemma RowIsReadWhen(rounds: seq<Round>, size: nat, first: nat, h: seq<seq<Row>>, id: nat)
    requires Drains(rounds, size, first, h) && id in RowIds(h[0])
    ensures id in BatchIds(h[|h| - 1], size) <==>
      !RemovedIn(rounds, size, h, id) && |OlderLeft(rounds, size, h, id)| < size
  {
    var now := h[|h| - 1];
    if |h| > 1 {
      DrainsPrefix(rounds, size, first, h);
    }
    RowGoneWhen(rounds, size, first, h, id);
    OlderLeftAre(rounds, size, first, h, id);
    BatchIdsAre(now, size);
    if id in RowIds(now) {
      OldestAre(now, size, id);
    }
  }

  predicate NeverRemoved(rounds: seq<Round>, id: nat) {
    forall k :: 0 <= k < |rounds| ==> !Removes(rounds[k], id)
  }

  lemma {:induction false} KeptRowStays(rounds: seq<Round>, size: int, h: seq<seq<Row>>, id: nat)
    requires |h| <= |rounds| + 1 && NeverRemoved(rounds, id)
    ensures !RemovedIn(rounds, size, h, id)
  {
    if |h| > 1 {
      KeptRowStays(rounds, size, h[..|h| - 1], id);
    }
  }

  lemma HeadIsLeft(rounds: seq<Round>, size: nat, h: seq<seq<Row>>, ids: seq<nat>, i: nat)
    requires 1 <= |h| <= |rounds| + 1 && ids == RowIds(h[0]) && Ascending(ids) && size <= i < |ids|
    requires forall j :: 0 <= j < size ==> NeverRemoved(rounds, ids[j])
    ensures IdSet(ids[..size]) <= OlderLeft(rounds, size, h, ids[i])
  {
    forall x | x in IdSet(ids[..size]) ensures x in OlderLeft(rounds, size, h, ids[i]) {
      var j :| 0 <= j < size && ids[..size][j] == x;
      assert ids[j] == x;
      KeptRowStays(rounds, size, h, x);
    }
  }

  /** Hence a batch of rows that are never removed starves everything behind it, for good. */
  lemma HeadStarvesTail(rounds: seq<Round>, size: nat, first: nat, h: seq<seq<Row>>, i: nat)
    requires Drains(rounds, size, first, h) && size <= i < |h[0]|
    requires forall j :: 0 <= j < size ==> NeverRemoved(rounds, RowIds(h[0])[j])
    ensures h[0][i].id !in BatchIds(h[|h| - 1], size)
  {
    var ids := RowIds(h[0]);
    RowIsReadWhen(rounds, size, first, h, ids[i]);
    DistinctSize(ids[..size]);
    HeadIsLeft(rounds, size, h, ids, i);
    SubsetSize(IdSet(ids[..size]), OlderLeft(rounds, size, h, ids[i]));
  }

  lemma {:induction false} SubsetSize(a: set<nat>, b: set<nat>)
    requires a <= b
    ensures |a| <= |b|
  {
    if a != {} {
      var x :| x in a;
      SubsetSize(a - {x}, b - {x});
    }
  }

  lemma IdsAreOld(t: Table)
    requires Sound(t)
    ensures forall id :: id in RowIds(t.rows) ==> id < t.nextId
  {
  }

  lemma PrefixIds(items: seq<Row>, rows: seq<Row>)
    requires items <= rows && Distinct(RowIds(rows))
    ensures Distinct(RowIds(items)) && forall id :: id in RowIds(items) ==> id in RowIds(rows)
  {
    assert forall i :: 0 <= i < |items| ==> RowIds(items)[i] == RowIds(rows)[i];
  }

  lemma SameElements(a: seq<nat>, b: seq<nat>)
    requires multiset(a) == multiset(b)
    ensures IdSet(a) == IdSet(b)
  {
    assert forall id :: id in a <==> id in multiset(a);
    assert forall id :: id in b <==> id in multiset(b);
  }

  lemma RoundSettles(w: Round, rows: seq<Row>, ids: set<nat>, gone: set<nat>)
    requires Distinct(RowIds(rows)) && forall id :: id in ids ==> id in RowIds(rows)
    requires forall id :: id in gone <==> id in ids && Removes(w, id)
    ensures Without(Counted(w, rows, ids), gone) == Settle(w, rows, ids)
    ensures |Settle(w, rows, ids)| + |gone| == |rows|
  {
    CountThenDelete(w, rows, ids, gone);
    WithoutCounts(Counted(w, rows, ids), gone);
  }

  lemma {:induction false} DistinctSize(s: seq<nat>)
    requires Distinct(s)
    ensures |IdSet(s)| == |s|
  {
    if s != [] {
      var front, last := s[..|s| - 1], s[|s| - 1];
      DistinctSize(front);
      assert IdSet(s) == IdSet(front) + {last};
    } else {
      assert IdSet(s) == {};
    }
  }

  lemma PermutationIsDistinct(a: seq<nat>, b: seq<nat>)
    requires Distinct(a) && multiset(a) == multiset(b)
    ensures Distinct(b)
  {
    forall i, j | 0 <= i < j < |b| ensures b[i] != b[j] {
      if b[i] == b[j] {
        var rest := b[..i] + b[i + 1..];
        assert b == b[..i] + [b[i]] + b[i + 1..];
        assert rest[j - 1] == b[j];
        assert multiset(b) == multiset(rest) + multiset{b[i]};
        assert b[i] in multiset(rest);
        DistinctCountsOne(a, b[i]);
        assert false;
      }
    }
  }

  lemma {:induction false} DistinctCountsOne(a: seq<nat>, x: nat)
    requires Distinct(a)
    ensures multiset(a)[x] <= 1
  {
    if a != [] {
      DistinctCountsOne(a[1..], x);
      assert a == [a[0]] + a[1..];
      assert a[0] == x ==> x !in a[1..];
      assert x !in a[1..] ==> multiset(a[1..])[x] == 0;
    }
  }
}
