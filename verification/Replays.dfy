/**
 Where replay safety ends: a match that is handled again goes out again exactly when
 its outbox row was deleted, or its window drained, in the meantime.
 */
module Replays {
  import opened Prelude
  import opened Payloads
  import opened Outbox
  import opened AlertPolicies
  import opened AggregationWindows
  import Throttling

  /** No batch of the run handles a match with this id. */
  predicate NotHandled(es: seq<Event>, id: string) {
    forall i :: 0 <= i < |es| && es[i].Matches? ==> NotIn(es[i].xs, id)
  }

  predicate NotIn(xs: seq<Arrival>, id: string) { forall j :: 0 <= j < |xs| ==> xs[j].m.id != id }

  /** Handling one match once more. */
  function Again(keys: Keys, actions: Actions, st: State, m: MonitorMatch, now: int): State {
    Batch(keys, actions, st, [Arrival(m, now, true)], true)
  }

  // ------------------------------------------------------ unpoliced matches

  /** The rows under `key` are just `row`, or none if it has gone. */
  predicate OnlyRow(rows: seq<Row>, key: string, row: Row, there: bool) {
    && (row in rows <==> there)
    && forall i :: 0 <= i < |rows| && rows[i].item.key == key ==> rows[i] == row
  }

  lemma {:induction false} OtherKeysAside(t: Table, items: seq<Item>, key: string, row: Row, there: bool)
    requires OnlyRow(t.rows, key, row, there) && row.item.key == key
    requires forall i :: 0 <= i < |items| ==> items[i].key != key
    ensures OnlyRow(InsertAll(t, items).rows, key, row, there)
    decreases |items|
  {
    if items != [] {
      OneKeyAside(t, items[0], key, row, there);
      OtherKeysAside(InsertOne(t, items[0]), items[1..], key, row, there);
    }
  }

  lemma OneKeyAside(t: Table, item: Item, key: string, row: Row, there: bool)
    requires OnlyRow(t.rows, key, row, there) && row.item.key == key && item.key != key
    ensures OnlyRow(InsertOne(t, item).rows, key, row, there)
  {
    var t' := InsertOne(t, item);
    assert forall r :: r in t'.rows ==> r in t.rows || r.item == item;
  }

  lemma DispatchAside(keys: Keys, st: State, ps: seq<Payload>, ok: bool, key: string, row: Row, there: bool)
    requires OnlyRow(st.table.rows, key, row, there) && row.item.key == key
    requires forall p :: p in ps ==> keys(p) != key
    ensures OnlyRow(Dispatch(keys, st, ps, ok).table.rows, key, row, there)
  {
    assert forall i :: 0 <= i < |ps| ==> keys(ps[i]) != key;
    OtherKeysAside(st.table, Items(keys, ps), key, row, there);
  }

  /** Every payload a batch sends is a single one of a match the batch handles. */
  predicate SingleOf(xs: seq<Arrival>, p: Payload) {
    p.Single? && exists j :: 0 <= j < |xs| && xs[j].m == p.m
  }

  lemma {:induction false} PayloadsAreHandled(
    actions: Actions, ts: map<string, Throttling.ThrottleState>, xs: seq<Arrival>, p: Payload)
    ensures p in Sent(actions, ts, xs) || p in Immediate(actions, xs) ==> SingleOf(xs, p)
  {
    if xs != [] {
      var front, x := xs[..|xs| - 1], xs[|xs| - 1];
      PayloadsAreHandled(actions, ts, front, p);
      if SingleOf(front, p) {
        var j :| 0 <= j < |front| && front[j].m == p.m;
        assert xs[j].m == p.m;
      }
      assert x == xs[|xs| - 1];
    }
  }

  lemma BatchAside(keys: Keys, actions: Actions, st: State, xs: seq<Arrival>, ok: bool, id: string, row: Row, there: bool)
    requires KeysAreIds(keys) && NotIn(xs, id)
    requires OnlyRow(st.table.rows, id, row, there) && row.item.key == id
    ensures OnlyRow(Batch(keys, actions, st, xs, ok).table.rows, id, row, there)
  {
    HandleAllSplits(keys, actions, st, xs);
    forall p | p in Sent(actions, st.throttles, xs) || p in Immediate(actions, xs) ensures keys(p) != id {
      PayloadsAreHandled(actions, st.throttles, xs, p);
      assert keys(Single(p.m)) == p.m.id;
    }
    DispatchAside(keys, After(actions, st, xs), Sent(actions, st.throttles, xs), true, id, row, there);
    DispatchAside(keys, HandleAll(keys, actions, st, xs), Immediate(actions, xs), ok, id, row, there);
  }

  /** Aggregated payloads have keys of their own. */
  ghost predicate AggregatesApart(keys: Keys, id: string) { forall p: Payload :: p.Aggregated? ==> keys(p) != id }

  lemma CheckAside(keys: Keys, actions: Actions, st: State, e: Event, id: string, row: Row, there: bool)
    requires Possible(st, e) && e.Tick? && AggregatesApart(keys, id)
    requires OnlyRow(st.table.rows, id, row, there) && row.item.key == id
    ensures OnlyRow(Next(keys, actions, st, e).table.rows, id, row, there)
  {
    VisitsOnlyKeys(e.order, st.aggs);
    var ps := DrainedPayloads(actions, st.aggs, e.order, e.now, e.force);
    forall p | p in ps ensures keys(p) != id {
      DueWindowsGoOutOnce(actions, st.aggs, e.order, e.now, e.force, p);
    }
    DispatchAside(keys, st.(aggs := Sweep(actions, st.aggs, e.now, e.force)), ps, e.ok, id, row, there);
  }

  lemma LeaveAside(rows: seq<Row>, ids: set<nat>, key: string, row: Row, there: bool)
    requires OnlyRow(rows, key, row, there)
    ensures OnlyRow(Without(rows, ids), key, row, there && row.id !in ids)
  {
    var rows' := Without(rows, ids);
    WithoutMembers(rows, ids, row);
    forall i | 0 <= i < |rows'| && rows'[i].item.key == key ensures rows'[i] == row {
      WithoutMembers(rows, ids, rows'[i]);
    }
  }

  /** Some deletion of the run takes the row with this id. */
  predicate RowLeaves(es: seq<Event>, id: nat) {
    es != [] && (RowLeaves(es[..|es| - 1], id) || (es[|es| - 1].Leave? && id in es[|es| - 1].ids))
  }

  lemma {:induction false} RowStaysUnlessDeleted(keys: Keys, actions: Actions, st: State, es: seq<Event>, id: string, row: Row)
    requires Legal(keys, actions, st, es) && KeysAreIds(keys) && AggregatesApart(keys, id) && NotHandled(es, id)
    requires OnlyRow(st.table.rows, id, row, true) && row.item.key == id
    ensures OnlyRow(Run(keys, actions, st, es).table.rows, id, row, !RowLeaves(es, row.id))
    decreases |es|
  {
    if es != [] {
      var front, e := es[..|es| - 1], es[|es| - 1];
      var mid, there := Run(keys, actions, st, front), !RowLeaves(front, row.id);
      RowStaysUnlessDeleted(keys, actions, st, front, id, row);
      match e
      case Matches(xs, ok) => BatchAside(keys, actions, mid, xs, ok, id, row, there);
      case Tick(_, _, _, _) => CheckAside(keys, actions, mid, e, id, row, there);
      case Leave(ids) => LeaveAside(mid.table.rows, ids, id, row, there);
    }
  }

  /** Handling an unpoliced match adds a row exactly when its key is free. */
  lemma AgainUnpoliced(keys: Keys, actions: Actions, st: State, m: MonitorMatch, now: int)
    requires Unpoliced(actions, m)
    ensures Again(keys, actions, st, m, now).table ==
      InsertOne(st.table, Item(m.actionName, Single(m), keys(Single(m))))
  {
    var xs := [Arrival(m, now, true)];
    assert xs[..0] == [] && HandleAll(keys, actions, st, []) == st && Immediate(actions, []) == [];
    assert Handle(keys, actions, st, xs[0]) == st && HandleAll(keys, actions, st, xs) == st;
    assert Immediate(actions, xs) == [Single(m)];
    assert [Single(m)][1..] == [];
    var item := Item(m.actionName, Single(m), keys(Single(m)));
    assert Items(keys, [Single(m)]) == [item];
    assert InsertAll(st.table, [item]) == InsertOne(st.table, item) by {
      assert [item][1..] == [];
    }
  }

  /**
   An unpoliced match that has its row, and is not handled again in between, is put
   into the outbox a second time exactly when the row was deleted in the meantime.
   */
  lemma ReplayGoesOutAgainWhen(keys: Keys, actions: Actions, st: State, es: seq<Event>, m: MonitorMatch, row: Row, now: int)
    requires Legal(keys, actions, st, es) && KeysAreIds(keys) && AggregatesApart(keys, m.id) && NotHandled(es, m.id)
    requires Unpoliced(actions, m) && Sound(st.table) && row in st.table.rows && row.item.key == m.id
    ensures var later := Run(keys, actions, st, es);
      Again(keys, actions, later, m, now).table != later.table <==> RowLeaves(es, row.id)
  {
    assert OnlyRow(st.table.rows, m.id, row, true);
    RowStaysUnlessDeleted(keys, actions, st, es, m.id, row);
    var later := Run(keys, actions, st, es);
    AgainUnpoliced(keys, actions, later, m, now);
    assert keys(Single(m)) == m.id;
    assert HasKey(later.table.rows, m.id) <==> !RowLeaves(es, row.id);
  }

  // ----------------------------------------------------- aggregated matches

  lemma {:induction false} OthersDoNotPend(actions: Actions, aggs: map<string, AggState>, xs: seq<Arrival>, name: string, id: string)
    requires NotIn(xs, id)
    ensures Pends(WindowOf(AggsAfter(actions, aggs, xs), name), id) <==> Pends(WindowOf(aggs, name), id)
  {
    if xs != [] {
      var front, x := xs[..|xs| - 1], xs[|xs| - 1];
      OthersDoNotPend(actions, aggs, front, name, id);
      NextWindow(actions, AggsAfter(actions, aggs, front), x, name);
      CollectedOther(WindowOf(AggsAfter(actions, aggs, front), name), x, id);
    }
  }

  lemma CollectedOther(a: AggState, x: Arrival, id: string)
    requires x.m.id != id
    ensures Pends(Collect(a, x.m, x.now), id) <==> Pends(a, id)
  {
    if Pends(a, id) {
      CollectKeeps(a, x.m, x.now, id);
    }
  }

  /** A check empties the window: it is due, or no longer configured. */
  predicate Empties(actions: Actions, st: State, e: Event, name: string) {
    var a := WindowOf(st.aggs, name);
    e.Tick? && (Due(actions, name, a, e.now, e.force) || Orphaned(actions, name, a))
  }

  /** Some check of the run empties the window. */
  predicate WindowEmptied(keys: Keys, actions: Actions, st: State, es: seq<Event>, name: string)
    requires Legal(keys, actions, st, es)
    decreases |es|
  {
    es != [] && (WindowEmptied(keys, actions, st, es[..|es| - 1], name)
                 || Empties(actions, Run(keys, actions, st, es[..|es| - 1]), es[|es| - 1], name))
  }

  lemma PendsAfterEvent(keys: Keys, actions: Actions, st: State, e: Event, name: string, id: string)
    requires Possible(st, e) && (e.Matches? ==> NotIn(e.xs, id))
    ensures Pends(WindowOf(Next(keys, actions, st, e).aggs, name), id) <==>
      Pends(WindowOf(st.aggs, name), id) && !Empties(actions, st, e, name)
  {
    NextAggsAre(keys, actions, st, e);
    match e
    case Matches(xs, _) => OthersDoNotPend(actions, st.aggs, xs, name, id);
    case Tick(_, now, force, _) => SweepWindowIs(actions, st.aggs, now, force, name);
    case Leave(_) =>
  }

  lemma {:induction false} PendsUnlessEmptied(keys: Keys, actions: Actions, st: State, es: seq<Event>, name: string, id: string)
    requires Legal(keys, actions, st, es) && NotHandled(es, id) && Pends(WindowOf(st.aggs, name), id)
    ensures Pends(WindowOf(Run(keys, actions, st, es).aggs, name), id) <==> !WindowEmptied(keys, actions, st, es, name)
    decreases |es|
  {
    if es != [] {
      var front, e := es[..|es| - 1], es[|es| - 1];
      PendsUnlessEmptied(keys, actions, st, front, name, id);
      PendsAfterEvent(keys, actions, Run(keys, actions, st, front), e, name, id);
    }
  }

  /**
   An aggregated match that is pending, and is not handled again in between, is taken
   into its window a second time exactly when a check emptied the window meanwhile.
   */
  lemma ReplayIsCollectedAgainWhen(keys: Keys, actions: Actions, st: State, es: seq<Event>, m: MonitorMatch, now: int)
    requires Legal(keys, actions, st, es) && NotHandled(es, m.id) && AggregatedBy(actions, m)
    requires Pends(WindowOf(st.aggs, m.actionName), m.id)
    ensures var later := Run(keys, actions, st, es);
      Accepted(actions, later.aggs, [Arrival(m, now, true)], m.actionName) ==
        if WindowEmptied(keys, actions, st, es, m.actionName) then multiset{m} else multiset{}
  {
    PendsUnlessEmptied(keys, actions, st, es, m.actionName, m.id);
    var later, xs := Run(keys, actions, st, es), [Arrival(m, now, true)];
    assert xs[..0] == [] && AggsAfter(actions, later.aggs, []) == later.aggs;
    assert Accepted(actions, later.aggs, [], m.actionName) == multiset{};
  }
}
