/** What a batch of matches brings about, told from the matches' own fields. */
module AlertOutcomes {
  import opened Prelude
  import opened Payloads
  import opened Outbox
  import opened AlertPolicies
  import Throttling
  import Replays

  /** The action is configured, without a policy. */
  predicate SendsAtOnce(actions: Actions, name: string) { name in actions && actions[name].None? }

  predicate HasThrottle(actions: Actions, name: string) {
    name in actions && actions[name].Some? && actions[name].value.Throttle?
  }

  /** Matches of actions nobody has configured change nothing. */
  lemma {:induction false} UnknownActionsChangeNothing(keys: Keys, actions: Actions, st: State, xs: seq<Arrival>, ok: bool)
    requires forall i :: 0 <= i < |xs| ==> xs[i].m.actionName !in actions
    ensures HandleAll(keys, actions, st, xs) == st && Immediate(actions, xs) == []
    ensures Batch(keys, actions, st, xs, ok) == st
  {
    if xs != [] {
      UnknownActionsChangeNothing(keys, actions, st, xs[..|xs| - 1], ok);
    }
  }

  lemma {:induction false} FirstItemIs(keys: Keys, ps: seq<Payload>, key: string) returns (p: Payload)
    requires FirstWithKey(Items(keys, ps), key).Some?
    ensures p in ps && FirstWithKey(Items(keys, ps), key) == Some(Item(ActionOf(p), p, key))
  {
    if keys(ps[0]) == key {
      p := ps[0];
    } else {
      p := FirstItemIs(keys, ps[1..], key);
    }
  }

  /**
   A match of an action without a policy is in the outbox after its batch, under its id,
   as itself or as an earlier match of the batch with the same id, for its own action.
   */
  lemma SentAtOnceIsStored(keys: Keys, actions: Actions, st: State, xs: seq<Arrival>, i: nat) returns (j: nat)
    requires KeysAreIds(keys) && i < |xs| && SendsAtOnce(actions, xs[i].m.actionName)
    requires !HasKey(st.table.rows, xs[i].m.id)
    ensures j < |xs| && xs[j].m.id == xs[i].m.id
    ensures Lookup(Batch(keys, actions, st, xs, true).table.rows, xs[i].m.id) ==
      Some(Item(xs[j].m.actionName, Single(xs[j].m), xs[i].m.id))
  {
    var m, ps := xs[i].m, Sent(actions, st.throttles, xs) + Immediate(actions, xs);
    BatchMeans(keys, actions, st, xs);
    UnpolicedIsImmediate(actions, xs, i);
    assert Single(m) in ps && keys(Single(m)) == m.id;
    OfferedKeyIsFound(keys, ps, Single(m));
    DispatchMeans(keys, After(actions, st, xs), ps, m.id);
    LookupFinds(st.table.rows, m.id);
    var p := FirstItemIs(keys, ps, m.id);
    FirstWithKeyFits(keys, ps, m.id);
    Replays.PayloadsAreHandled(actions, st.throttles, xs, p);
    j :| 0 <= j < |xs| && xs[j].m == p.m;
    assert keys(Single(p.m)) == p.m.id;
  }

  lemma {:induction false} FirstWithKeyFits(keys: Keys, ps: seq<Payload>, key: string)
    ensures FirstWithKey(Items(keys, ps), key).Some? ==>
      keys(FirstWithKey(Items(keys, ps), key).value.payload) == key
  {
    if ps != [] && keys(ps[0]) != key {
      FirstWithKeyFits(keys, ps[1..], key);
    }
  }

  /** And a batch puts nothing else there: every new row is one of its matches, of an action that may send. */
  predicate RowOf(actions: Actions, xs: seq<Arrival>, r: Row) {
    exists j :: 0 <= j < |xs| && r.item.payload == Single(xs[j].m) && r.item.action == xs[j].m.actionName
      && r.retries == 0 && (SendsAtOnce(actions, r.item.action) || HasThrottle(actions, r.item.action))
  }

  lemma {:induction false} SentActionsMay(actions: Actions, ts: map<string, Throttling.ThrottleState>, xs: seq<Arrival>, p: Payload)
    ensures p in Sent(actions, ts, xs) ==> HasThrottle(actions, ActionOf(p))
    ensures p in Immediate(actions, xs) ==> SendsAtOnce(actions, ActionOf(p))
  {
    if xs != [] {
      SentActionsMay(actions, ts, xs[..|xs| - 1], p);
    }
  }

  lemma NewRowsAreMatches(keys: Keys, actions: Actions, st: State, xs: seq<Arrival>, r: Row)
    requires r in Batch(keys, actions, st, xs, true).table.rows
    ensures r in st.table.rows || RowOf(actions, xs, r)
  {
    BatchMeans(keys, actions, st, xs);
    var ps := Sent(actions, st.throttles, xs) + Immediate(actions, xs);
    if ps != [] {
      InsertedRowsAre(st.table, Items(keys, ps), r);
      if r !in st.table.rows {
        var i :| 0 <= i < |ps| && Items(keys, ps)[i] == r.item;
        Replays.PayloadsAreHandled(actions, st.throttles, xs, ps[i]);
        SentActionsMay(actions, st.throttles, xs, ps[i]);
        var j :| 0 <= j < |xs| && xs[j].m == ps[i].m;
        assert r.item.payload == Single(xs[j].m);
      }
    }
  }

  // ---------------------------------------------------------------- counters

  /** How many matches of the batch are of this action. */
  function CountOf(xs: seq<Arrival>, name: string): nat {
    if xs == [] then 0
    else CountOf(xs[..|xs| - 1], name) + if xs[|xs| - 1].m.actionName == name then 1 else 0
  }

  lemma {:induction false} ImmediateCounts(actions: Actions, xs: seq<Arrival>, name: string)
    ensures multiset(Names(Immediate(actions, xs)))[name] == if SendsAtOnce(actions, name) then CountOf(xs, name) else 0
  {
    if xs != [] {
      var front, x := xs[..|xs| - 1], xs[|xs| - 1];
      ImmediateCounts(actions, front, name);
      var last := if Unpoliced(actions, x.m) then [Single(x.m)] else [];
      ItemsConcat(p => "", Immediate(actions, front), last);
      assert last != [] ==> last[1..] == [] && Names(last) == [x.m.actionName] + Names([]);
      assert multiset(Names(Immediate(actions, front)) + Names(last)) ==
        multiset(Names(Immediate(actions, front))) + multiset(Names(last));
    }
  }

  lemma {:induction false} OnlyThrottledAreSent(actions: Actions, ts: map<string, Throttling.ThrottleState>, xs: seq<Arrival>, name: string)
    requires !HasThrottle(actions, name)
    ensures SentOf(actions, ts, xs, name) == 0
  {
    if xs != [] {
      OnlyThrottledAreSent(actions, ts, xs[..|xs| - 1], name);
      OneMoreSent(actions, ts, xs, name);
    }
  }

  /**
   The alert counter of an action goes up by its matches if it has no policy, by its
   throttle's attempts if it has a throttle (and no enqueue fails), and else not at all.
   */
  lemma CountersTell(keys: Keys, actions: Actions, st: State, xs: seq<Arrival>, name: string, a: int, b: int)
    requires AllEnqueue(xs)
    requires forall i :: 0 <= i < |xs| && xs[i].m.actionName == name ==> a <= xs[i].now <= b
    ensures Batch(keys, actions, st, xs, true).alerts[name] == st.alerts[name] +
      if SendsAtOnce(actions, name) then CountOf(xs, name)
      else if HasThrottle(actions, name) then
        Throttling.Attempts(actions[name].value.limit, Find(st.throttles, name), TimesOf(xs, name), a, b)
      else 0
  {
    BatchMeans(keys, actions, st, xs);
    var sent, now := Sent(actions, st.throttles, xs), Immediate(actions, xs);
    ItemsConcat(keys, sent, now);
    assert multiset(Names(sent) + Names(now)) == multiset(Names(sent)) + multiset(Names(now));
    ImmediateCounts(actions, xs, name);
    if HasThrottle(actions, name) {
      SentAreAttempts(actions, st.throttles, xs, name, actions[name].value.limit, a, b);
    } else {
      OnlyThrottledAreSent(actions, st.throttles, xs, name);
    }
    DispatchMeans(keys, After(actions, st, xs), sent + now, "");
  }

  // ----------------------------------------------------------------- windows

  /** An aggregated match is in its window after the batch, or another with its id is. */
  lemma AggregatedIsPending(keys: Keys, actions: Actions, st: State, xs: seq<Arrival>, i: nat) returns (k: nat)
    requires i < |xs|
    requires var name := xs[i].m.actionName;
      name in actions && actions[name].Some? && actions[name].value.Aggregate?
    ensures var name := xs[i].m.actionName;
      var after := Batch(keys, actions, st, xs, true);
      && name in after.aggs && k < |after.aggs[name].matches| && after.aggs[name].matches[k].id == xs[i].m.id
  {
    BatchMeans(keys, actions, st, xs);
    CollectedStaysPending(actions, st.aggs, xs, i);
    var a := AggsAfter(actions, st.aggs, xs)[xs[i].m.actionName];
    k :| 0 <= k < |a.matches| && a.matches[k].id == xs[i].m.id;
  }
}
