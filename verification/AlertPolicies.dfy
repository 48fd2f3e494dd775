/**
 Alert policies as functions on the manager's state: throttling, aggregation
 windows, immediate dispatch, and what batches and replays of matches amount to.
 */
module AlertPolicies {
  import opened Prelude
  import opened Payloads
  import opened Outbox
  import Throttling

  datatype Policy =
    | Throttle(limit: Throttling.Policy)
    | Aggregate(window: nat, template: string)

  /** Configured actions; an action may have no policy. */
  type Actions = map<string, Option<Policy>>

  datatype AggState = AggState(matches: seq<MonitorMatch>, windowStart: int)

  /** `alerts` counts generated alerts per action name. */
  datatype State = State(
    throttles: map<string, Throttling.ThrottleState>,
    aggs: map<string, AggState>,
    alerts: multiset<string>,
    table: Table)

  /** One match, with the clock reading it is handled at and whether its own enqueue succeeds. */
  datatype Arrival = Arrival(m: MonitorMatch, now: int, enqueues: bool)

  type Keys = Payload -> string

  function Items(keys: Keys, ps: seq<Payload>): (r: seq<Item>)
    ensures |r| == |ps|
    ensures forall i :: 0 <= i < |ps| ==> r[i] == Item(ActionOf(ps[i]), ps[i], keys(ps[i]))
  {
    if ps == [] then []
    else [Item(ActionOf(ps[0]), ps[0], keys(ps[0]))] + Items(keys, ps[1..])
  }

  function Names(ps: seq<Payload>): (r: seq<string>)
    ensures |r| == |ps|
  {
    if ps == [] then [] else [ActionOf(ps[0])] + Names(ps[1..])
  }

  /** Enqueue, and only if that succeeded count the alerts. */
  function Dispatch(keys: Keys, st: State, ps: seq<Payload>, ok: bool): State {
    if ps == [] || !ok then st
    else st.(table := InsertAll(st.table, Items(keys, ps)), alerts := st.alerts + multiset(Names(ps)))
  }

  // ---------------------------------------------------------- single matches

  function Find<T>(m: map<string, T>, k: string): Option<T> {
    if k in m then Some(m[k]) else None
  }

  function PolicyOf(actions: Actions, m: MonitorMatch): Option<Option<Policy>> {
    Find(actions, m.actionName)
  }

  predicate Throttled(actions: Actions, m: MonitorMatch) {
    PolicyOf(actions, m).Some? && PolicyOf(actions, m).value.Some? && PolicyOf(actions, m).value.value.Throttle?
  }

  predicate AggregatedBy(actions: Actions, m: MonitorMatch) {
    PolicyOf(actions, m).Some? && PolicyOf(actions, m).value.Some? && PolicyOf(actions, m).value.value.Aggregate?
  }

  predicate Unpoliced(actions: Actions, m: MonitorMatch) {
    PolicyOf(actions, m) == Some(None)
  }

  /** The payload a throttled match sends, if its window still allows one. */
  function ThrottleSends(actions: Actions, ts: map<string, Throttling.ThrottleState>, x: Arrival): seq<Payload> {
    if Throttled(actions, x.m) && x.enqueues
       && Throttling.Allows(PolicyOf(actions, x.m).value.value.limit, Find(ts, x.m.actionName), x.now)
    then [Single(x.m)] else []
  }

  function NextThrottles(actions: Actions, ts: map<string, Throttling.ThrottleState>, x: Arrival)
    : map<string, Throttling.ThrottleState>
  {
    if !Throttled(actions, x.m) then ts
    else ts[x.m.actionName :=
              Throttling.Step(PolicyOf(actions, x.m).value.value.limit, Find(ts, x.m.actionName), x.now)]
  }

  predicate Pends(a: AggState, id: string) {
    exists i :: 0 <= i < |a.matches| && a.matches[i].id == id
  }

  function Collect(a: AggState, m: MonitorMatch, now: int): AggState {
    if Pends(a, m.id) then a
    else AggState(a.matches + [m], if a.matches == [] then now else a.windowStart)
  }

  /** The state an action's window has before its first match. */
  const FRESH := AggState([], 0)

  function WindowOf(aggs: map<string, AggState>, name: string): AggState {
    if name in aggs then aggs[name] else FRESH
  }

  function NextAggs(actions: Actions, aggs: map<string, AggState>, x: Arrival): map<string, AggState> {
    if !AggregatedBy(actions, x.m) then aggs
    else aggs[x.m.actionName := Collect(WindowOf(aggs, x.m.actionName), x.m, x.now)]
  }

  /** The policy part of handling one match; unpoliced matches wait for the end of the batch. */
  function Handle(keys: Keys, actions: Actions, st: State, x: Arrival): State {
    Dispatch(keys,
      st.(throttles := NextThrottles(actions, st.throttles, x), aggs := NextAggs(actions, st.aggs, x)),
      ThrottleSends(actions, st.throttles, x), true)
  }

  // ------------------------------------------------------------------ batches

  function HandleAll(keys: Keys, actions: Actions, st: State, xs: seq<Arrival>): State {
    if xs == [] then st
    else Handle(keys, actions, HandleAll(keys, actions, st, xs[..|xs| - 1]), xs[|xs| - 1])
  }

  function Immediate(actions: Actions, xs: seq<Arrival>): seq<Payload> {
    if xs == [] then []
    else
      var x := xs[|xs| - 1];
      Immediate(actions, xs[..|xs| - 1]) + if Unpoliced(actions, x.m) then [Single(x.m)] else []
  }

  function Batch(keys: Keys, actions: Actions, st: State, xs: seq<Arrival>, ok: bool): State {
    Dispatch(keys, HandleAll(keys, actions, st, xs), Immediate(actions, xs), ok)
  }

  function ThrottlesAfter(actions: Actions, ts: map<string, Throttling.ThrottleState>, xs: seq<Arrival>)
    : map<string, Throttling.ThrottleState>
  {
    if xs == [] then ts else NextThrottles(actions, ThrottlesAfter(actions, ts, xs[..|xs| - 1]), xs[|xs| - 1])
  }

  function AggsAfter(actions: Actions, aggs: map<string, AggState>, xs: seq<Arrival>): map<string, AggState> {
    if xs == [] then aggs else NextAggs(actions, AggsAfter(actions, aggs, xs[..|xs| - 1]), xs[|xs| - 1])
  }

  /** Everything the throttles send while `xs` is handled, in order. */
  function Sent(actions: Actions, ts: map<string, Throttling.ThrottleState>, xs: seq<Arrival>): seq<Payload> {
    if xs == [] then []
    else Sent(actions, ts, xs[..|xs| - 1])
         + ThrottleSends(actions, ThrottlesAfter(actions, ts, xs[..|xs| - 1]), xs[|xs| - 1])
  }

  lemma {:induction false} ItemsConcat(keys: Keys, a: seq<Payload>, b: seq<Payload>)
    ensures Items(keys, a + b) == Items(keys, a) + Items(keys, b)
    ensures Names(a + b) == Names(a) + Names(b)
  {
    if a == [] {
      assert a + b == b;
    } else {
      assert (a + b)[1..] == a[1..] + b;
      ItemsConcat(keys, a[1..], b);
    }
  }

  lemma DispatchTwice(keys: Keys, st: State, a: seq<Payload>, b: seq<Payload>)
    ensures Dispatch(keys, Dispatch(keys, st, a, true), b, true) == Dispatch(keys, st, a + b, true)
  {
    ItemsConcat(keys, a, b);
    InsertAllSplits(st.table, Items(keys, a), Items(keys, b));
    assert a == [] ==> a + b == b;
    assert b == [] ==> a + b == a;
    assert multiset(Names(a) + Names(b)) == multiset(Names(a)) + multiset(Names(b));
  }

  /** Handling a run of matches splits into its effect on the states and one enqueue. */
  lemma {:induction false} HandleAllSplits(keys: Keys, actions: Actions, st: State, xs: seq<Arrival>)
    ensures HandleAll(keys, actions, st, xs) ==
      Dispatch(keys, st.(throttles := ThrottlesAfter(actions, st.throttles, xs), aggs := AggsAfter(actions, st.aggs, xs)),
               Sent(actions, st.throttles, xs), true)
  {
    if xs != [] {
      var front, x := xs[..|xs| - 1], xs[|xs| - 1];
      HandleAllSplits(keys, actions, st, front);
      var after := st.(throttles := ThrottlesAfter(actions, st.throttles, xs), aggs := AggsAfter(actions, st.aggs, xs));
      DispatchTwice(keys, after, Sent(actions, st.throttles, front),
                    ThrottleSends(actions, ThrottlesAfter(actions, st.throttles, front), x));
    }
  }

  lemma Snoc(a: seq<Arrival>, b: seq<Arrival>)
    requires b != []
    ensures var ab := a + b; ab[..|ab| - 1] == a + b[..|b| - 1] && ab[|ab| - 1] == b[|b| - 1] && ab != []
  {
  }

  lemma {:induction false} ThrottlesConcat(
    actions: Actions, ts: map<string, Throttling.ThrottleState>, a: seq<Arrival>, b: seq<Arrival>)
    ensures ThrottlesAfter(actions, ts, a + b) == ThrottlesAfter(actions, ThrottlesAfter(actions, ts, a), b)
  {
    if b == [] {
      assert a + b == a;
    } else {
      Snoc(a, b);
      ThrottlesConcat(actions, ts, a, b[..|b| - 1]);
    }
  }

  lemma {:induction false} SentConcat(
    actions: Actions, ts: map<string, Throttling.ThrottleState>, a: seq<Arrival>, b: seq<Arrival>)
    ensures Sent(actions, ts, a + b) == Sent(actions, ts, a) + Sent(actions, ThrottlesAfter(actions, ts, a), b)
  {
    if b == [] {
      assert a + b == a;
    } else {
      Snoc(a, b);
      SentConcat(actions, ts, a, b[..|b| - 1]);
      ThrottlesConcat(actions, ts, a, b[..|b| - 1]);
    }
  }

  lemma {:induction false} AggsConcat(actions: Actions, aggs: map<string, AggState>, a: seq<Arrival>, b: seq<Arrival>)
    ensures AggsAfter(actions, aggs, a + b) == AggsAfter(actions, AggsAfter(actions, aggs, a), b)
  {
    if b == [] {
      assert a + b == a;
    } else {
      Snoc(a, b);
      AggsConcat(actions, aggs, a, b[..|b| - 1]);
    }
  }

  lemma {:induction false} ImmediateConcat(actions: Actions, a: seq<Arrival>, b: seq<Arrival>)
    ensures Immediate(actions, a + b) == Immediate(actions, a) + Immediate(actions, b)
  {
    if b == [] {
      assert a + b == a;
    } else {
      Snoc(a, b);
      ImmediateConcat(actions, a, b[..|b| - 1]);
    }
  }

  /** The whole effect of a successful batch: new policy states and one sequence of payloads. */
  lemma BatchMeans(keys: Keys, actions: Actions, st: State, xs: seq<Arrival>)
    ensures Batch(keys, actions, st, xs, true) ==
      Dispatch(keys, st.(throttles := ThrottlesAfter(actions, st.throttles, xs), aggs := AggsAfter(actions, st.aggs, xs)),
               Sent(actions, st.throttles, xs) + Immediate(actions, xs), true)
  {
    HandleAllSplits(keys, actions, st, xs);
    DispatchTwice(keys,
      st.(throttles := ThrottlesAfter(actions, st.throttles, xs), aggs := AggsAfter(actions, st.aggs, xs)),
      Sent(actions, st.throttles, xs), Immediate(actions, xs));
  }

  // ------------------------------------------------- the throttle of one action

  /** The clock readings at which matches of action `name` are handled. */
  function TimesOf(xs: seq<Arrival>, name: string): seq<int> {
    if xs == [] then []
    else
      var x := xs[|xs| - 1];
      TimesOf(xs[..|xs| - 1], name) + if x.m.actionName == name then [x.now] else []
  }

  function SentOf(actions: Actions, ts: map<string, Throttling.ThrottleState>, xs: seq<Arrival>, name: string): nat {
    multiset(Names(Sent(actions, ts, xs)))[name]
  }

  predicate AllEnqueue(xs: seq<Arrival>) { forall i :: 0 <= i < |xs| ==> xs[i].enqueues }

  lemma OneMoreSent(actions: Actions, ts: map<string, Throttling.ThrottleState>, xs: seq<Arrival>, name: string)
    requires xs != []
    ensures var front, x := xs[..|xs| - 1], xs[|xs| - 1];
      SentOf(actions, ts, xs, name) == SentOf(actions, ts, front, name) +
        if x.m.actionName == name && ThrottleSends(actions, ThrottlesAfter(actions, ts, front), x) != [] then 1 else 0
  {
    var front, x := xs[..|xs| - 1], xs[|xs| - 1];
    var sent, last := Sent(actions, ts, front), ThrottleSends(actions, ThrottlesAfter(actions, ts, front), x);
    ItemsConcat(p => "", sent, last);
    assert last != [] ==> last[1..] == [] && Names(last) == [x.m.actionName] + Names([]);
    assert multiset(Names(sent) + Names(last)) == multiset(Names(sent)) + multiset(Names(last));
  }

  predicate ThrottledBy(actions: Actions, name: string, limit: Throttling.Policy) {
    Find(actions, name) == Some(Some(Throttle(limit)))
  }

  lemma NextThrottleOf(actions: Actions, ts: map<string, Throttling.ThrottleState>, x: Arrival, name: string,
                       limit: Throttling.Policy)
    requires ThrottledBy(actions, name, limit)
    ensures Find(NextThrottles(actions, ts, x), name) ==
      if x.m.actionName == name then Some(Throttling.Step(limit, Find(ts, name), x.now)) else Find(ts, name)
    ensures x.m.actionName == name ==>
      (ThrottleSends(actions, ts, x) != [] <==> x.enqueues && Throttling.Allows(limit, Find(ts, name), x.now))
  {
  }

  /** The matches of one throttled action run its throttle by themselves, whatever arrives between them. */
  lemma {:induction false} ThrottleRunsAlone(
    actions: Actions, ts: map<string, Throttling.ThrottleState>, xs: seq<Arrival>, name: string, limit: Throttling.Policy)
    requires ThrottledBy(actions, name, limit)
    ensures Find(ThrottlesAfter(actions, ts, xs), name) == Throttling.Run(limit, Find(ts, name), TimesOf(xs, name))
  {
    if xs != [] {
      var front, x := xs[..|xs| - 1], xs[|xs| - 1];
      ThrottleRunsAlone(actions, ts, front, name, limit);
      NextThrottleOf(actions, ThrottlesAfter(actions, ts, front), x, name, limit);
      Throttling.RunSnoc(limit, Find(ts, name), TimesOf(front, name), x.now, 0, 0);
      assert TimesOf(front, name) + [] == TimesOf(front, name);
    }
  }

  lemma OneMoreAttempt(
    actions: Actions, ts: map<string, Throttling.ThrottleState>, xs: seq<Arrival>, name: string,
    limit: Throttling.Policy, a: int, b: int)
    requires ThrottledBy(actions, name, limit) && xs != []
    requires xs[|xs| - 1].m.actionName == name ==> a <= xs[|xs| - 1].now <= b
    ensures var front, x := xs[..|xs| - 1], xs[|xs| - 1];
      Throttling.Attempts(limit, Find(ts, name), TimesOf(xs, name), a, b) ==
        Throttling.Attempts(limit, Find(ts, name), TimesOf(front, name), a, b) +
        if x.m.actionName == name && Throttling.Allows(limit, Find(ThrottlesAfter(actions, ts, front), name), x.now)
        then 1 else 0
  {
    var front, x := xs[..|xs| - 1], xs[|xs| - 1];
    ThrottleRunsAlone(actions, ts, front, name, limit);
    if x.m.actionName == name {
      Throttling.RunSnoc(limit, Find(ts, name), TimesOf(front, name), x.now, a, b);
    } else {
      assert TimesOf(front, name) + [] == TimesOf(front, name);
    }
  }

  /** Each attempt of the throttle becomes a payload, unless its enqueue fails. */
  lemma {:induction false} SentAreAttempts(
    actions: Actions, ts: map<string, Throttling.ThrottleState>, xs: seq<Arrival>, name: string,
    limit: Throttling.Policy, a: int, b: int)
    requires ThrottledBy(actions, name, limit)
    requires forall i :: 0 <= i < |xs| && xs[i].m.actionName == name ==> a <= xs[i].now <= b
    ensures SentOf(actions, ts, xs, name) <= Throttling.Attempts(limit, Find(ts, name), TimesOf(xs, name), a, b)
    ensures AllEnqueue(xs) ==>
      SentOf(actions, ts, xs, name) == Throttling.Attempts(limit, Find(ts, name), TimesOf(xs, name), a, b)
  {
    if xs != [] {
      var front, x := xs[..|xs| - 1], xs[|xs| - 1];
      SentAreAttempts(actions, ts, front, name, limit, a, b);
      OneMoreSent(actions, ts, xs, name);
      OneMoreAttempt(actions, ts, xs, name, limit, a, b);
      NextThrottleOf(actions, ThrottlesAfter(actions, ts, front), x, name, limit);
    }
  }

  /**
   The limit as seen from outside: whatever else arrives, matches of one action that are
   handled within `k` window lengths bring at most `(k + 1) * maxCount` payloads.
   */
  lemma {:induction false} ActionStaysWithinLimit(
    actions: Actions, ts: map<string, Throttling.ThrottleState>, xs: seq<Arrival>, name: string,
    limit: Throttling.Policy, a: int, k: nat)
    requires ThrottledBy(actions, name, limit)
    requires Throttling.NonDecreasing(TimesOf(xs, name))
    requires forall i :: 0 <= i < |xs| && xs[i].m.actionName == name ==> a <= xs[i].now <= a + k * limit.window
    ensures SentOf(actions, ts, xs, name) <= (k + 1) * limit.maxCount
  {
    SentAreAttempts(actions, ts, xs, name, limit, a, a + k * limit.window);
    Throttling.SlidingWindowBound(limit, Find(ts, name), TimesOf(xs, name), a, k);
  }

  // -------------------------------------------------- batches versus batches

  predicate AllBuilt(xs: seq<Arrival>) {
    forall i :: 0 <= i < |xs| ==> Built(xs[i].m)
  }

  /** A single payload is stored under its match id. */
  ghost predicate KeysAreIds(keys: Keys) {
    forall m :: keys(Single(m)) == m.id
  }

  /** Same states, same counters, and the same outbox up to row ids and order. */
  ghost predicate SameOutcome(a: State, b: State) {
    && a.throttles == b.throttles && a.aggs == b.aggs && a.alerts == b.alerts
    && forall key :: Lookup(a.table.rows, key) == Lookup(b.table.rows, key)
  }

  predicate FromThrottle(actions: Actions, p: Payload) { p.Single? && Built(p.m) && Throttled(actions, p.m) }

  predicate FromUnpoliced(actions: Actions, p: Payload) { p.Single? && Built(p.m) && Unpoliced(actions, p.m) }

  lemma {:induction false} SentAreThrottled(actions: Actions, ts: map<string, Throttling.ThrottleState>, xs: seq<Arrival>)
    requires AllBuilt(xs)
    ensures forall p :: p in Sent(actions, ts, xs) ==> FromThrottle(actions, p)
  {
    if xs != [] {
      SentAreThrottled(actions, ts, xs[..|xs| - 1]);
    }
  }

  lemma {:induction false} ImmediateAreUnpoliced(actions: Actions, xs: seq<Arrival>)
    requires AllBuilt(xs)
    ensures forall p :: p in Immediate(actions, xs) ==> FromUnpoliced(actions, p)
  {
    if xs != [] {
      ImmediateAreUnpoliced(actions, xs[..|xs| - 1]);
    }
  }

  lemma {:induction false} FirstWithKeyConcat(a: seq<Item>, b: seq<Item>, key: string)
    ensures FirstWithKey(a + b, key) == OrElse(FirstWithKey(a, key), FirstWithKey(b, key))
  {
    if a == [] {
      assert a + b == b;
    } else {
      assert (a + b)[1..] == a[1..] + b;
      FirstWithKeyConcat(a[1..], b, key);
    }
  }

  lemma {:induction false} FirstWithKeyIsThere(keys: Keys, ps: seq<Payload>, key: string) returns (p: Payload)
    requires FirstWithKey(Items(keys, ps), key).Some?
    ensures p in ps && keys(p) == key
  {
    if keys(ps[0]) == key {
      p := ps[0];
    } else {
      p := FirstWithKeyIsThere(keys, ps[1..], key);
    }
  }

  /** Throttled and unpoliced payloads never compete for a key, because an id names its action. */
  lemma NoSharedKey(keys: Keys, actions: Actions, a: seq<Payload>, b: seq<Payload>, key: string)
    requires KeysAreIds(keys)
    requires (forall p :: p in a ==> FromThrottle(actions, p)) && (forall p :: p in b ==> FromUnpoliced(actions, p))
    ensures FirstWithKey(Items(keys, a), key).None? || FirstWithKey(Items(keys, b), key).None?
  {
    if FirstWithKey(Items(keys, a), key).Some? && FirstWithKey(Items(keys, b), key).Some? {
      var p := FirstWithKeyIsThere(keys, a, key);
      var q := FirstWithKeyIsThere(keys, b, key);
      SameIdSameEvent(p.m, q.m);
      assert false;
    }
  }

  lemma MultisetOfFour(a: seq<string>, b: seq<string>, c: seq<string>, d: seq<string>)
    ensures multiset(a + b + c + d) == multiset(a + c + b + d)
  {
  }

  /** The states after handling `xs`, before anything is enqueued. */
  function After(actions: Actions, st: State, xs: seq<Arrival>): State {
    st.(throttles := ThrottlesAfter(actions, st.throttles, xs), aggs := AggsAfter(actions, st.aggs, xs))
  }

  lemma BatchTwice(keys: Keys, actions: Actions, st: State, a: seq<Arrival>, b: seq<Arrival>)
    ensures var ts := ThrottlesAfter(actions, st.throttles, a);
      Batch(keys, actions, Batch(keys, actions, st, a, true), b, true) ==
        Dispatch(keys, After(actions, st, a + b),
          (Sent(actions, st.throttles, a) + Immediate(actions, a)) + (Sent(actions, ts, b) + Immediate(actions, b)), true)
  {
    var mid := Batch(keys, actions, st, a, true);
    BatchMeans(keys, actions, st, a);
    BatchMeans(keys, actions, mid, b);
    ThrottlesConcat(actions, st.throttles, a, b);
    AggsConcat(actions, st.aggs, a, b);
    var first := Sent(actions, st.throttles, a) + Immediate(actions, a);
    assert After(actions, mid, b) == Dispatch(keys, After(actions, st, a + b), first, true);
    DispatchTwice(keys, After(actions, st, a + b), first,
                  Sent(actions, ThrottlesAfter(actions, st.throttles, a), b) + Immediate(actions, b));
  }

  lemma BatchOnce(keys: Keys, actions: Actions, st: State, a: seq<Arrival>, b: seq<Arrival>)
    ensures var ts := ThrottlesAfter(actions, st.throttles, a);
      Batch(keys, actions, st, a + b, true) ==
        Dispatch(keys, After(actions, st, a + b),
          (Sent(actions, st.throttles, a) + Sent(actions, ts, b)) + (Immediate(actions, a) + Immediate(actions, b)), true)
  {
    BatchMeans(keys, actions, st, a + b);
    SentConcat(actions, st.throttles, a, b);
    ImmediateConcat(actions, a, b);
  }

  /**
   Cutting a batch in two changes nothing that can be observed, although it sends
   the unpoliced payloads of the first part before the throttled ones of the second.
   */
  lemma BatchesSplit(keys: Keys, actions: Actions, st: State, a: seq<Arrival>, b: seq<Arrival>)
    requires KeysAreIds(keys) && AllBuilt(a) && AllBuilt(b)
    ensures SameOutcome(Batch(keys, actions, st, a + b, true),
                        Batch(keys, actions, Batch(keys, actions, st, a, true), b, true))
  {
    BatchOnce(keys, actions, st, a, b);
    BatchTwice(keys, actions, st, a, b);
    var sa, ia := Sent(actions, st.throttles, a), Immediate(actions, a);
    var sb, ib := Sent(actions, ThrottlesAfter(actions, st.throttles, a), b), Immediate(actions, b);
    SentAreThrottled(actions, ThrottlesAfter(actions, st.throttles, a), b);
    ImmediateAreUnpoliced(actions, a);
    SwapMiddle(keys, actions, After(actions, st, a + b), sa, sb, ia, ib);
  }

  lemma SwapMiddle(keys: Keys, actions: Actions, st: State, sa: seq<Payload>, sb: seq<Payload>,
                   ia: seq<Payload>, ib: seq<Payload>)
    requires KeysAreIds(keys)
    requires (forall p :: p in sb ==> FromThrottle(actions, p)) && (forall p :: p in ia ==> FromUnpoliced(actions, p))
    ensures SameOutcome(Dispatch(keys, st, (sa + sb) + (ia + ib), true), Dispatch(keys, st, (sa + ia) + (sb + ib), true))
  {
    var ps, qs := sa + sb + ia + ib, sa + ia + sb + ib;
    assert (sa + sb) + (ia + ib) == ps && (sa + ia) + (sb + ib) == qs;
    forall key ensures FirstWithKey(Items(keys, ps), key) == FirstWithKey(Items(keys, qs), key) {
      NoSharedKey(keys, actions, sb, ia, key);
      FirstOfFour(keys, sa, sb, ia, ib, key);
      FirstOfFour(keys, sa, ia, sb, ib, key);
    }
    NamesOfFour(keys, sa, sb, ia, ib);
    NamesOfFour(keys, sa, ia, sb, ib);
    MultisetOfFour(Names(sa), Names(sb), Names(ia), Names(ib));
    DispatchDependsOnFirsts(keys, st, ps, qs);
  }

  lemma DispatchMeans(keys: Keys, st: State, ps: seq<Payload>, key: string)
    ensures var r := Dispatch(keys, st, ps, true);
      && r.throttles == st.throttles && r.aggs == st.aggs
      && r.alerts == st.alerts + multiset(Names(ps))
      && Lookup(r.table.rows, key) == OrElse(Lookup(st.table.rows, key), FirstWithKey(Items(keys, ps), key))
  {
    if ps != [] {
      InsertAllMeans(st.table, Items(keys, ps), key);
    }
  }

  /** Two enqueues agree if they offer the same first payload per key and the same names. */
  lemma DispatchDependsOnFirsts(keys: Keys, st: State, ps: seq<Payload>, qs: seq<Payload>)
    requires forall key :: FirstWithKey(Items(keys, ps), key) == FirstWithKey(Items(keys, qs), key)
    requires multiset(Names(ps)) == multiset(Names(qs))
    ensures SameOutcome(Dispatch(keys, st, ps, true), Dispatch(keys, st, qs, true))
  {
    var a, b := Dispatch(keys, st, ps, true), Dispatch(keys, st, qs, true);
    DispatchMeans(keys, st, ps, "");
    DispatchMeans(keys, st, qs, "");
    forall key ensures Lookup(a.table.rows, key) == Lookup(b.table.rows, key) {
      DispatchMeans(keys, st, ps, key);
      DispatchMeans(keys, st, qs, key);
    }
  }

  lemma NamesOfFour(keys: Keys, a: seq<Payload>, b: seq<Payload>, c: seq<Payload>, d: seq<Payload>)
    ensures Names(a + b + c + d) == Names(a) + Names(b) + Names(c) + Names(d)
    ensures Items(keys, a + b + c + d) == Items(keys, a) + Items(keys, b) + Items(keys, c) + Items(keys, d)
  {
    ItemsConcat(keys, a, b);
    ItemsConcat(keys, a + b, c);
    ItemsConcat(keys, a + b + c, d);
  }

  lemma FirstOfFour(keys: Keys, a: seq<Payload>, b: seq<Payload>, c: seq<Payload>, d: seq<Payload>, key: string)
    ensures FirstWithKey(Items(keys, a + b + c + d), key) ==
      OrElse(OrElse(OrElse(FirstWithKey(Items(keys, a), key), FirstWithKey(Items(keys, b), key)),
                    FirstWithKey(Items(keys, c), key)), FirstWithKey(Items(keys, d), key))
  {
    NamesOfFour(keys, a, b, c, d);
    FirstWithKeyConcat(Items(keys, a), Items(keys, b), key);
    FirstWithKeyConcat(Items(keys, a) + Items(keys, b), Items(keys, c), key);
    FirstWithKeyConcat(Items(keys, a) + Items(keys, b) + Items(keys, c), Items(keys, d), key);
  }

  lemma SameOutcomeTransitive(a: State, b: State, c: State)
    requires SameOutcome(a, b) && SameOutcome(b, c)
    ensures SameOutcome(a, c)
  {
  }

  lemma OneMoreMatch(keys: Keys, actions: Actions, st: State, front: seq<Arrival>, last: seq<Arrival>, other: State)
    requires KeysAreIds(keys) && AllBuilt(front) && AllBuilt(last)
    requires SameOutcome(Batch(keys, actions, st, front, true), other)
    ensures SameOutcome(Batch(keys, actions, st, front + last, true), Batch(keys, actions, other, last, true))
  {
    var mid := Batch(keys, actions, st, front, true);
    BatchesSplit(keys, actions, st, front, last);
    SameOutcomeIsKept(keys, actions, mid, other, last);
    SameOutcomeTransitive(Batch(keys, actions, st, front + last, true), Batch(keys, actions, mid, last, true),
                          Batch(keys, actions, other, last, true));
  }

  lemma EmptyBatch(keys: Keys, actions: Actions, st: State)
    ensures SameOutcome(Batch(keys, actions, st, [], true), st)
  {
    assert HandleAll(keys, actions, st, []) == st && Immediate(actions, []) == [];
  }

  /** Handles the matches one at a time, in batches of one. */
  function OneByOne(keys: Keys, actions: Actions, st: State, xs: seq<Arrival>): State {
    if xs == [] then st
    else Batch(keys, actions, OneByOne(keys, actions, st, xs[..|xs| - 1]), xs[|xs| - 1..], true)
  }

  /** Hence a batch does what handling its matches one at a time would do. */
  lemma {:induction false} BatchIsOneByOne(keys: Keys, actions: Actions, st: State, xs: seq<Arrival>)
    requires KeysAreIds(keys) && AllBuilt(xs)
    ensures SameOutcome(Batch(keys, actions, st, xs, true), OneByOne(keys, actions, st, xs))
  {
    if xs == [] {
      EmptyBatch(keys, actions, st);
    } else {
      BatchIsOneByOne(keys, actions, st, xs[..|xs| - 1]);
      CutLast(keys, actions, st, xs, OneByOne(keys, actions, st, xs[..|xs| - 1]));
    }
  }

  lemma CutLast(keys: Keys, actions: Actions, st: State, xs: seq<Arrival>, other: State)
    requires KeysAreIds(keys) && AllBuilt(xs) && xs != []
    requires SameOutcome(Batch(keys, actions, st, xs[..|xs| - 1], true), other)
    ensures SameOutcome(Batch(keys, actions, st, xs, true), Batch(keys, actions, other, xs[|xs| - 1..], true))
  {
    var front, last := xs[..|xs| - 1], xs[|xs| - 1..];
    assert xs == front + last;
    OneMoreMatch(keys, actions, st, front, last, other);
  }

  /** Outboxes that differ only in row ids and order stay so. */
  lemma SameOutcomeIsKept(keys: Keys, actions: Actions, s: State, t: State, xs: seq<Arrival>)
    requires SameOutcome(s, t)
    ensures SameOutcome(Batch(keys, actions, s, xs, true), Batch(keys, actions, t, xs, true))
  {
    BatchMeans(keys, actions, s, xs);
    BatchMeans(keys, actions, t, xs);
    var ps := Sent(actions, s.throttles, xs) + Immediate(actions, xs);
    forall key
      ensures Lookup(Batch(keys, actions, s, xs, true).table.rows, key) ==
              Lookup(Batch(keys, actions, t, xs, true).table.rows, key)
    {
      InsertAllMeans(s.table, Items(keys, ps), key);
      InsertAllMeans(t.table, Items(keys, ps), key);
    }
  }

  // -------------------------------------------------------------- replays

  /** Handling `m` again can change neither the outbox nor any policy state. */
  predicate Absorbed(keys: Keys, actions: Actions, st: State, m: MonitorMatch) {
    && !Throttled(actions, m)
    && (Unpoliced(actions, m) ==> HasKey(st.table.rows, keys(Single(m))))
    && (AggregatedBy(actions, m) ==> m.actionName in st.aggs && Pends(st.aggs[m.actionName], m.id))
  }

  lemma {:induction false} CollectedStaysPending(
    actions: Actions, aggs: map<string, AggState>, xs: seq<Arrival>, i: nat)
    requires i < |xs| && AggregatedBy(actions, xs[i].m)
    ensures var after := AggsAfter(actions, aggs, xs);
      xs[i].m.actionName in after && Pends(after[xs[i].m.actionName], xs[i].m.id)
  {
    var m, last := xs[i].m, xs[|xs| - 1];
    var before := AggsAfter(actions, aggs, xs[..|xs| - 1]);
    if i < |xs| - 1 {
      CollectedStaysPending(actions, aggs, xs[..|xs| - 1], i);
      CollectKeeps(before[m.actionName], last.m, last.now, m.id);
    } else {
      CollectAdds(WindowOf(before, m.actionName), m, last.now);
    }
  }

  lemma CollectKeeps(a: AggState, m: MonitorMatch, now: int, id: string)
    requires Pends(a, id)
    ensures Pends(Collect(a, m, now), id)
  {
    var i :| 0 <= i < |a.matches| && a.matches[i].id == id;
    assert Collect(a, m, now).matches[i].id == id;
  }

  lemma CollectAdds(a: AggState, m: MonitorMatch, now: int)
    ensures Pends(Collect(a, m, now), m.id)
  {
    if !Pends(a, m.id) {
      assert Collect(a, m, now).matches[|a.matches|].id == m.id;
    }
  }

  lemma {:induction false} UnpolicedIsImmediate(actions: Actions, xs: seq<Arrival>, i: nat)
    requires i < |xs| && Unpoliced(actions, xs[i].m)
    ensures Single(xs[i].m) in Immediate(actions, xs)
  {
    if i < |xs| - 1 {
      UnpolicedIsImmediate(actions, xs[..|xs| - 1], i);
    }
  }

  lemma {:induction false} OfferedKeyIsFound(keys: Keys, ps: seq<Payload>, p: Payload)
    requires p in ps
    ensures FirstWithKey(Items(keys, ps), keys(p)).Some?
  {
    if ps[0] != p {
      OfferedKeyIsFound(keys, ps[1..], p);
    }
  }

  /** Whatever a batch handled without throttling is absorbed afterwards. */
  lemma BatchAbsorbs(keys: Keys, actions: Actions, st: State, xs: seq<Arrival>, i: nat)
    requires i < |xs| && !Throttled(actions, xs[i].m)
    ensures Absorbed(keys, actions, Batch(keys, actions, st, xs, true), xs[i].m)
  {
    BatchMeans(keys, actions, st, xs);
    var m := xs[i].m;
    if AggregatedBy(actions, m) {
      CollectedStaysPending(actions, st.aggs, xs, i);
    }
    if Unpoliced(actions, m) {
      UnpolicedIsImmediate(actions, xs, i);
      var ps := Sent(actions, st.throttles, xs) + Immediate(actions, xs);
      OfferedKeyIsFound(keys, ps, Single(m));
      DispatchMeans(keys, After(actions, st, xs), ps, keys(Single(m)));
      LookupFinds(Batch(keys, actions, st, xs, true).table.rows, keys(Single(m)));
    }
  }

  datatype Delivery = Delivery(xs: seq<Arrival>, ok: bool)

  function Batches(keys: Keys, actions: Actions, st: State, ds: seq<Delivery>): State {
    if ds == [] then st
    else
      var last := ds[|ds| - 1];
      Batch(keys, actions, Batches(keys, actions, st, ds[..|ds| - 1]), last.xs, last.ok)
  }

  lemma DispatchKeepsKeys(keys: Keys, st: State, ps: seq<Payload>, ok: bool, key: string)
    requires HasKey(st.table.rows, key)
    ensures HasKey(Dispatch(keys, st, ps, ok).table.rows, key)
  {
    if ok {
      DispatchMeans(keys, st, ps, key);
      LookupFinds(st.table.rows, key);
      LookupFinds(Dispatch(keys, st, ps, true).table.rows, key);
    }
  }

  lemma {:induction false} PendingStays(
    actions: Actions, aggs: map<string, AggState>, xs: seq<Arrival>, name: string, id: string)
    requires name in aggs && Pends(aggs[name], id)
    ensures var after := AggsAfter(actions, aggs, xs); name in after && Pends(after[name], id)
  {
    if xs != [] {
      PendingStays(actions, aggs, xs[..|xs| - 1], name, id);
      var x := xs[|xs| - 1];
      CollectKeeps(AggsAfter(actions, aggs, xs[..|xs| - 1])[name], x.m, x.now, id);
    }
  }

  lemma AbsorbedStays(keys: Keys, actions: Actions, st: State, m: MonitorMatch, xs: seq<Arrival>, ok: bool)
    requires Absorbed(keys, actions, st, m)
    ensures Absorbed(keys, actions, Batch(keys, actions, st, xs, ok), m)
  {
    HandleAllSplits(keys, actions, st, xs);
    if Unpoliced(actions, m) {
      DispatchKeepsKeys(keys, After(actions, st, xs), Sent(actions, st.throttles, xs), true, keys(Single(m)));
      DispatchKeepsKeys(keys, HandleAll(keys, actions, st, xs), Immediate(actions, xs), ok, keys(Single(m)));
    }
    if AggregatedBy(actions, m) {
      PendingStays(actions, st.aggs, xs, m.actionName, m.id);
    }
  }

  lemma {:induction false} AbsorbedStaysThrough(keys: Keys, actions: Actions, st: State, m: MonitorMatch, ds: seq<Delivery>)
    requires Absorbed(keys, actions, st, m)
    ensures Absorbed(keys, actions, Batches(keys, actions, st, ds), m)
  {
    if ds != [] {
      var last := ds[|ds| - 1];
      AbsorbedStaysThrough(keys, actions, st, m, ds[..|ds| - 1]);
      AbsorbedStays(keys, actions, Batches(keys, actions, st, ds[..|ds| - 1]), m, last.xs, last.ok);
    }
  }

  lemma {:induction false} KnownKeysAddNothing(t: Table, items: seq<Item>)
    requires forall i :: 0 <= i < |items| ==> HasKey(t.rows, items[i].key)
    ensures InsertAll(t, items) == t
    decreases |items|
  {
    if items != [] {
      assert HasKey(t.rows, items[0].key);
      KnownKeysAddNothing(t, items[1..]);
    }
  }

  lemma {:induction false} AbsorbedChangeNothing(keys: Keys, actions: Actions, st: State, ys: seq<Arrival>)
    requires forall j :: 0 <= j < |ys| ==> Absorbed(keys, actions, st, ys[j].m)
    ensures HandleAll(keys, actions, st, ys) == st
    ensures forall p :: p in Immediate(actions, ys) ==> HasKey(st.table.rows, keys(p))
  {
    if ys != [] {
      var y := ys[|ys| - 1];
      AbsorbedChangeNothing(keys, actions, st, ys[..|ys| - 1]);
      assert Absorbed(keys, actions, st, y.m);
      assert NextAggs(actions, st.aggs, y) == st.aggs;
    }
  }

  /**
   Replay safety: handling already-handled matches again, in any order and number, at
   any time and after any further batches, leaves the outbox and all policy states as
   they are, as long as their actions are not throttled.
   */
  lemma ReplayIsHarmless(keys: Keys, actions: Actions, st: State, xs: seq<Arrival>, between: seq<Delivery>,
                         ys: seq<Arrival>, ok: bool)
    requires forall j :: 0 <= j < |ys| ==>
      !Throttled(actions, ys[j].m) && exists i :: 0 <= i < |xs| && xs[i].m == ys[j].m
    ensures var before := Batches(keys, actions, Batch(keys, actions, st, xs, true), between);
      var again := Batch(keys, actions, before, ys, ok);
      again.table == before.table && again.aggs == before.aggs && again.throttles == before.throttles
  {
    var once := Batch(keys, actions, st, xs, true);
    var before := Batches(keys, actions, once, between);
    forall j | 0 <= j < |ys| ensures Absorbed(keys, actions, before, ys[j].m) {
      var i :| 0 <= i < |xs| && xs[i].m == ys[j].m;
      BatchAbsorbs(keys, actions, st, xs, i);
      AbsorbedStaysThrough(keys, actions, once, ys[j].m, between);
    }
    AbsorbedChangeNothing(keys, actions, before, ys);
    KnownPayloadsAddNothing(keys, before, Immediate(actions, ys), ok);
  }

  lemma KnownPayloadsAddNothing(keys: Keys, st: State, ps: seq<Payload>, ok: bool)
    requires forall p :: p in ps ==> HasKey(st.table.rows, keys(p))
    ensures var after := Dispatch(keys, st, ps, ok);
      after.table == st.table && after.aggs == st.aggs && after.throttles == st.throttles
  {
    var items := Items(keys, ps);
    forall i | 0 <= i < |items| ensures HasKey(st.table.rows, items[i].key) {
      assert ps[i] in ps && items[i].key == keys(ps[i]);
    }
    KnownKeysAddNothing(st.table, items);
  }
}
