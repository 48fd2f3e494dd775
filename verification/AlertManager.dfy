/** The alert manager itself: maps updated in place, checked against `AlertPolicies`. */
module AlertManagement {
  import opened Prelude
  import opened Payloads
  import opened Outbox
  import opened AlertPolicies
  import opened AggregationWindows
  import Throttling

  class AlertManager {
    const actions: Actions
    const keys: Keys
    const outbox: OutboxTable
    var throttles: map<string, Throttling.ThrottleState>
    var aggs: map<string, AggState>
    var alerts: multiset<string>

    /** Starts from whatever policy states were restored. */
    constructor (actions: Actions, keys: Keys, outbox: OutboxTable,
                 throttles: map<string, Throttling.ThrottleState>, aggs: map<string, AggState>)
      ensures this.actions == actions && this.keys == keys && this.outbox == outbox
      ensures Now() == State(throttles, aggs, multiset{}, outbox.table)
    {
      this.actions, this.keys, this.outbox := actions, keys, outbox;
      this.throttles, this.aggs, alerts := throttles, aggs, multiset{};
    }

    ghost function Now(): State
      reads this, outbox
    {
      State(throttles, aggs, alerts, outbox.table)
    }

    method DispatchPayloadsBatch(payloads: seq<Payload>, ok: bool) returns (r: Result<(), DbError>)
      modifies this`alerts, outbox
      ensures Now() == Dispatch(keys, old(Now()), payloads, ok)
      ensures r.Ok? <==> payloads == [] || ok
      ensures r.Err? ==> Now() == old(Now())
    {
      if payloads == [] {
        return Ok(());
      }
      var enqueued, _ := outbox.EnqueueBatch(Items(keys, payloads), _ => false, ok);
      if enqueued.Err? {
        return Err(DbError);
      }
      var names := Names(payloads);
      for i := 0 to |names|
        invariant alerts == old(alerts) + multiset(names[..i])
        invariant outbox.table == InsertAll(old(outbox.table), Items(keys, payloads))
      {
        assert names[..i + 1] == names[..i] + [names[i]];
        alerts := alerts + multiset{names[i]};
      }
      assert names[..|names|] == names;
      return Ok(());
    }

    /** A failed enqueue is logged and swallowed; the attempt still counts against the window. */
    method HandleThrottle(x: Arrival, limit: Throttling.Policy)
      requires Throttled(actions, x.m) && PolicyOf(actions, x.m).value.value.limit == limit
      modifies this, outbox
      ensures Now() == Handle(keys, actions, old(Now()), x)
    {
      var name := x.m.actionName;
      var state := if name in throttles then throttles[name] else Throttling.ThrottleState(0, x.now);
      if x.now > state.windowStart + limit.window {
        state := Throttling.ThrottleState(0, x.now);
      }
      var shouldDispatch := state.count < limit.maxCount;
      if shouldDispatch {
        state := state.(count := state.count + 1);
      }
      throttles := throttles[name := state];
      if shouldDispatch {
        var _ := DispatchPayloadsBatch([Single(x.m)], x.enqueues);
      }
    }

    method HandleAggregation(x: Arrival)
      requires AggregatedBy(actions, x.m)
      modifies this`aggs
      ensures Now() == Handle(keys, actions, old(Now()), x)
    {
      var name := x.m.actionName;
      var a := if name in aggs then aggs[name] else FRESH;
      var known := false;
      for i := 0 to |a.matches|
        invariant aggs == old(aggs)
        invariant known <==> exists j :: 0 <= j < i && a.matches[j].id == x.m.id
      {
        if a.matches[i].id == x.m.id {
          known := true;
        }
      }
      if !known {
        if a.matches == [] {
          a := a.(windowStart := x.now);
        }
        a := a.(matches := a.matches + [x.m]);
      }
      aggs := aggs[name := a];
    }

    /** One match: policed ones are handled at once, unpoliced ones are returned for the end of the batch. */
    method HandleMatch(x: Arrival) returns (deferred: seq<Payload>)
      modifies this, outbox
      ensures Now() == Handle(keys, actions, old(Now()), x)
      ensures deferred == if Unpoliced(actions, x.m) then [Single(x.m)] else []
    {
      deferred := [];
      if x.m.actionName in actions {
        match actions[x.m.actionName] {
          case Some(Throttle(limit)) => HandleThrottle(x, limit);
          case Some(Aggregate(_, _)) => HandleAggregation(x);
          case None => deferred := [Single(x.m)];
        }
      }
    }

    /** The error of the final enqueue is the only one a batch reports. */
    method ProcessMatchesBatch(xs: seq<Arrival>, ok: bool) returns (r: Result<(), DbError>)
      modifies this, outbox
      ensures Now() == Batch(keys, actions, old(Now()), xs, ok)
      ensures r.Ok? <==> ok || Immediate(actions, xs) == []
    {
      var immediate := [];
      ghost var start := Now();
      for i := 0 to |xs|
        invariant Now() == HandleAll(keys, actions, start, xs[..i])
        invariant immediate == Immediate(actions, xs[..i])
      {
        assert xs[..i + 1][..i] == xs[..i] && xs[..i + 1][i] == xs[i];
        var deferred := HandleMatch(xs[i]);
        immediate := immediate + deferred;
      }
      assert xs[..|xs|] == xs;
      r := DispatchPayloadsBatch(immediate, ok);
    }

    /** One window of a check: drained into a payload, cleared as orphaned, or left alone. */
    method SweepWindow(name: string, now: int, force: bool) returns (payloads: seq<Payload>)
      requires name in aggs
      modifies this`aggs
      ensures aggs == old(aggs)[name := SweepOne(actions, name, old(aggs)[name], now, force)]
      ensures payloads == SentOfWindow(actions, old(aggs), name, now, force)
    {
      payloads := [];
      var a := aggs[name];
      assert aggs[name := a] == aggs;
      if a.matches != [] {
        if name in actions && actions[name].Some? && actions[name].value.Aggregate? {
          var policy := actions[name].value;
          if force || now > a.windowStart + policy.window {
            payloads := [Aggregated(name, a.matches, policy.template)];
            aggs := aggs[name := a.(matches := [])];
          }
        } else {
          aggs := aggs[name := a.(matches := [])];
        }
      }
    }

    /** `order` is the order in which the concurrent map happens to be iterated. */
    method SweepAll(order: seq<string>, now: int, force: bool) returns (payloads: seq<Payload>)
      requires Visits(order, aggs)
      modifies this`aggs
      ensures aggs == Sweep(actions, old(aggs), now, force)
      ensures payloads == DrainedPayloads(actions, old(aggs), order, now, force)
    {
      payloads := [];
      ghost var start := aggs;
      ghost var seen: set<string> := {};
      NothingOrAllSeen(actions, start, order, now, force);
      for i := 0 to |order|
        invariant seen == NameSet(order[..i])
        invariant aggs == SweepSeen(actions, start, seen, now, force)
        invariant (forall name :: name in order[..i] ==> name in start)
        invariant payloads == DrainedPayloads(actions, start, order[..i], now, force)
      {
        VisitNext(actions, start, order, i, now, force);
        SweepOneMore(actions, start, seen, now, force, order[i]);
        var drained := SweepWindow(order[i], now, force);
        payloads := payloads + drained;
        seen := seen + {order[i]};
      }
      assert order[..|order|] == order;
    }

    method CheckAndDispatchExpiredWindows(order: seq<string>, now: int, force: bool, ok: bool)
      requires Visits(order, aggs)
      modifies this, outbox
      ensures Now() == Check(keys, actions, old(Now()), order, now, force, ok)
    {
      var payloads := SweepAll(order, now, force);
      var _ := DispatchPayloadsBatch(payloads, ok);
    }
  }

  /** The windows part-way through a check, when those in `seen` have been visited. */
  function SweepSeen(actions: Actions, aggs: map<string, AggState>, seen: set<string>, now: int, force: bool)
    : map<string, AggState>
  {
    map name | name in aggs :: if name in seen then SweepOne(actions, name, aggs[name], now, force) else aggs[name]
  }

  lemma SweepOneMore(actions: Actions, aggs: map<string, AggState>, seen: set<string>, now: int, force: bool, name: string)
    requires name in aggs && name !in seen
    ensures var part := SweepSeen(actions, aggs, seen, now, force);
      && part[name] == aggs[name]
      && SweepSeen(actions, aggs, seen + {name}, now, force) == part[name := SweepOne(actions, name, aggs[name], now, force)]
  {
  }

  function NameSet(order: seq<string>): set<string> { set name | name in order }

  lemma NothingOrAllSeen(actions: Actions, aggs: map<string, AggState>, order: seq<string>, now: int, force: bool)
    requires Visits(order, aggs)
    ensures SweepSeen(actions, aggs, {}, now, force) == aggs
    ensures SweepSeen(actions, aggs, NameSet(order), now, force) == Sweep(actions, aggs, now, force)
    ensures NameSet(order[..0]) == {} && forall name :: name in order ==> name in aggs
  {
    assert forall name :: name in order ==> name in NameSet(order);
  }

  lemma VisitNext(actions: Actions, aggs: map<string, AggState>, order: seq<string>, i: nat, now: int, force: bool)
    requires Visits(order, aggs) && i < |order|
    ensures var name := order[i];
      && name in aggs && name !in NameSet(order[..i])
      && NameSet(order[..i + 1]) == NameSet(order[..i]) + {name}
    ensures (forall name :: name in order[..i + 1] ==> name in aggs)
    ensures DrainedPayloads(actions, aggs, order[..i + 1], now, force) ==
      DrainedPayloads(actions, aggs, order[..i], now, force)
      + SentOfWindow(actions, aggs, order[i], now, force)
  {
    var name := order[i];
    assert forall n :: n in order ==> n in (set m | m in order);
    assert name in order && name !in order[..i];
    assert order[..i + 1][..i] == order[..i] && order[..i + 1] == order[..i] + [name];
  }
}
