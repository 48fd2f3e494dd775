/** Draining of aggregation windows, and the ledger that accounts for every aggregated match. */
module AggregationWindows {
  import opened Prelude
  import opened MatchIds
  import opened Payloads
  import opened Outbox
  import opened AlertPolicies

  function AggregatePolicy(actions: Actions, name: string): Option<Policy> {
    if name in actions && actions[name].Some? && actions[name].value.Aggregate? then actions[name] else None
  }

  /** The window's time is up, or a flush forces it out. */
  predicate Due(actions: Actions, name: string, a: AggState, now: int, force: bool) {
    && a.matches != [] && AggregatePolicy(actions, name).Some?
    && (force || now > a.windowStart + AggregatePolicy(actions, name).value.window)
  }

  /** The action, or its aggregation policy, is no longer configured. */
  predicate Orphaned(actions: Actions, name: string, a: AggState) {
    a.matches != [] && AggregatePolicy(actions, name).None?
  }

  function SweepOne(actions: Actions, name: string, a: AggState, now: int, force: bool): AggState {
    if Due(actions, name, a, now, force) || Orphaned(actions, name, a) then a.(matches := []) else a
  }

  function Sweep(actions: Actions, aggs: map<string, AggState>, now: int, force: bool): map<string, AggState> {
    map name | name in aggs :: SweepOne(actions, name, aggs[name], now, force)
  }

  function DrainedPayload(actions: Actions, name: string, a: AggState): Payload
    requires AggregatePolicy(actions, name).Some?
  {
    Aggregated(name, a.matches, AggregatePolicy(actions, name).value.template)
  }

  /** The payloads of one check, in the order in which the map happens to be visited. */
  function DrainedPayloads(actions: Actions, aggs: map<string, AggState>, order: seq<string>, now: int, force: bool)
    : (ps: seq<Payload>)
    requires forall name :: name in order ==> name in aggs
  {
    if order == [] then []
    else
      var name := order[|order| - 1];
      DrainedPayloads(actions, aggs, order[..|order| - 1], now, force) + SentOfWindow(actions, aggs, name, now, force)
  }

  /** `order` visits every key once. */
  predicate Visits(order: seq<string>, aggs: map<string, AggState>) {
    Distinct(order) && (set name | name in order) == aggs.Keys
  }

  function Check(keys: Keys, actions: Actions, st: State, order: seq<string>, now: int, force: bool, ok: bool): State
    requires forall name :: name in order ==> name in st.aggs
  {
    Dispatch(keys, st.(aggs := Sweep(actions, st.aggs, now, force)),
             DrainedPayloads(actions, st.aggs, order, now, force), ok)
  }

  /**
   What a check has to send: for an action with an aggregation policy, all matches of
   its window under the policy's template, if the window's time is up or a flush asks.
   */
  predicate ToSend(actions: Actions, aggs: map<string, AggState>, now: int, force: bool, p: Payload) {
    && p.Aggregated? && p.action in aggs && p.action in actions
    && match actions[p.action]
       case Some(Aggregate(window, template)) =>
         && p.matches == aggs[p.action].matches != [] && p.template == template
         && (force || now > aggs[p.action].windowStart + window)
       case _ => false
  }

  /** Every due window goes out in exactly one payload, whole and nonempty, whatever the visiting order. */
  lemma {:induction false} DueWindowsGoOutOnce(
    actions: Actions, aggs: map<string, AggState>, order: seq<string>, now: int, force: bool, p: Payload)
    requires Distinct(order) && forall name :: name in order ==> name in aggs
    ensures var ps := DrainedPayloads(actions, aggs, order, now, force);
      multiset(ps)[p] == if ToSend(actions, aggs, now, force, p) && p.action in order then 1 else 0
    ensures p in DrainedPayloads(actions, aggs, order, now, force) ==> p.Aggregated? && p.matches != []
  {
    if order != [] {
      var front, name := order[..|order| - 1], order[|order| - 1];
      DueWindowsGoOutOnce(actions, aggs, front, now, force, p);
      assert order == front + [name] && name !in front;
      OneMoreWindow(actions, aggs, name, now, force, p);
      CountsAdd(DrainedPayloads(actions, aggs, front, now, force), SentOfWindow(actions, aggs, name, now, force), p);
    }
  }

  /** What the visit of one window sends. */
  function SentOfWindow(actions: Actions, aggs: map<string, AggState>, name: string, now: int, force: bool): seq<Payload>
    requires name in aggs
  {
    if Due(actions, name, aggs[name], now, force) then [DrainedPayload(actions, name, aggs[name])] else []
  }

  lemma OneMoreWindow(actions: Actions, aggs: map<string, AggState>, name: string, now: int, force: bool, p: Payload)
    requires name in aggs
    ensures var qs := SentOfWindow(actions, aggs, name, now, force);
      && multiset(qs)[p] == (if ToSend(actions, aggs, now, force, p) && p.action == name then 1 else 0)
      && (p in qs ==> p.Aggregated? && p.matches != [])
  {
    if Due(actions, name, aggs[name], now, force) {
      DueIsToSend(actions, aggs, name, now, force, p);
    }
  }

  lemma CountsAdd(a: seq<Payload>, b: seq<Payload>, p: Payload)
    ensures multiset(a + b)[p] == multiset(a)[p] + multiset(b)[p]
    ensures p in a + b <==> p in a || p in b
  {
    assert multiset(a + b) == multiset(a) + multiset(b);
  }

  lemma DueIsToSend(actions: Actions, aggs: map<string, AggState>, name: string, now: int, force: bool, p: Payload)
    requires name in aggs && Due(actions, name, aggs[name], now, force)
    ensures p == DrainedPayload(actions, name, aggs[name]) <==>
      ToSend(actions, aggs, now, force, p) && p.action == name
  {
  }

  /** All that is pending of an action, as one payload under its policy's template. */
  function Whole(actions: Actions, name: string, matches: seq<MonitorMatch>): Payload
    requires name in actions && actions[name].Some? && actions[name].value.Aggregate?
  {
    Aggregated(name, matches, actions[name].value.template)
  }

  /** A successful check leaves a row for the key of every payload it drained. */
  lemma DrainedWindowsAreStored(
    keys: Keys, actions: Actions, st: State, order: seq<string>, now: int, force: bool, name: string)
    requires Visits(order, st.aggs) && name in st.aggs && Due(actions, name, st.aggs[name], now, force)
    ensures HasKey(Check(keys, actions, st, order, now, force, true).table.rows,
                   keys(Whole(actions, name, st.aggs[name].matches)))
  {
    var p, ps := Whole(actions, name, st.aggs[name].matches), DrainedPayloads(actions, st.aggs, order, now, force);
    DueWindowsGoOutOnce(actions, st.aggs, order, now, force, p);
    assert p in ps;
    OfferedKeyIsFound(keys, ps, p);
    var swept := st.(aggs := Sweep(actions, st.aggs, now, force));
    DispatchMeans(keys, swept, ps, keys(p));
    LookupFinds(Check(keys, actions, st, order, now, force, true).table.rows, keys(p));
  }

  // ---------------------------------------------------------------- whole runs

  /** Batches of matches, window checks, and rows leaving the outbox, in any interleaving. */
  datatype Event =
    | Matches(xs: seq<Arrival>, ok: bool)
    | Tick(order: seq<string>, now: int, force: bool, ok: bool)
    | Leave(ids: set<nat>)

  predicate Possible(st: State, e: Event) { e.Tick? ==> Visits(e.order, st.aggs) }

  lemma VisitsOnlyKeys(order: seq<string>, aggs: map<string, AggState>)
    requires Visits(order, aggs)
    ensures forall name :: name in order <==> name in aggs
  {
    assert forall name :: name in order <==> name in (set n | n in order);
  }

  function SentBy(actions: Actions, aggs: map<string, AggState>, order: seq<string>, now: int, force: bool): seq<Payload>
    requires Visits(order, aggs)
  {
    VisitsOnlyKeys(order, aggs);
    DrainedPayloads(actions, aggs, order, now, force)
  }

  function Next(keys: Keys, actions: Actions, st: State, e: Event): State
    requires Possible(st, e)
  {
    match e
    case Matches(xs, ok) => Batch(keys, actions, st, xs, ok)
    case Tick(order, now, force, ok) =>
      VisitsOnlyKeys(order, st.aggs);
      Check(keys, actions, st, order, now, force, ok)
    case Leave(ids) => st.(table := st.table.(rows := Without(st.table.rows, ids)))
  }

  predicate Legal(keys: Keys, actions: Actions, st: State, es: seq<Event>)
    decreases |es|, 0
  {
    es == [] || (Legal(keys, actions, st, es[..|es| - 1])
                 && Possible(Run(keys, actions, st, es[..|es| - 1]), es[|es| - 1]))
  }

  function Run(keys: Keys, actions: Actions, st: State, es: seq<Event>): State
    requires Legal(keys, actions, st, es)
    decreases |es|, 1
  {
    if es == [] then st
    else Next(keys, actions, Run(keys, actions, st, es[..|es| - 1]), es[|es| - 1])
  }

  /** What one event does to the windows alone. */
  function NextWindows(actions: Actions, aggs: map<string, AggState>, e: Event): map<string, AggState> {
    match e
    case Matches(xs, _) => AggsAfter(actions, aggs, xs)
    case Tick(_, now, force, _) => Sweep(actions, aggs, now, force)
    case Leave(_) => aggs
  }

  lemma NextAggsAre(keys: Keys, actions: Actions, st: State, e: Event)
    requires Possible(st, e)
    ensures Next(keys, actions, st, e).aggs == NextWindows(actions, st.aggs, e)
  {
    if e.Matches? {
      HandleAllSplits(keys, actions, st, e.xs);
    }
  }

  // ------------------------------------------------------------------- ledger

  /** Where the matches of one action went. */
  datatype Ledger = Ledger(
    accepted: multiset<MonitorMatch>, enqueued: multiset<MonitorMatch>,
    lost: multiset<MonitorMatch>, cleared: multiset<MonitorMatch>)

  const EMPTY_LEDGER := Ledger(multiset{}, multiset{}, multiset{}, multiset{})

  function Pending(aggs: map<string, AggState>, name: string): multiset<MonitorMatch> {
    multiset(WindowOf(aggs, name).matches)
  }

  /** The matches of a batch that enter the window of `name`. */
  function Accepted(actions: Actions, aggs: map<string, AggState>, xs: seq<Arrival>, name: string): multiset<MonitorMatch> {
    if xs == [] then multiset{}
    else
      var front, x := xs[..|xs| - 1], xs[|xs| - 1];
      Accepted(actions, aggs, front, name) + AcceptedOne(actions, AggsAfter(actions, aggs, front), x, name)
  }

  function AcceptedOne(actions: Actions, aggs: map<string, AggState>, x: Arrival, name: string): multiset<MonitorMatch> {
    if AggregatedBy(actions, x.m) && x.m.actionName == name && !Pends(WindowOf(aggs, name), x.m.id)
    then multiset{x.m} else multiset{}
  }

  /** The payload stands for these matches, in any order. */
  predicate StandsFor(p: Payload, matches: seq<MonitorMatch>) {
    p.Aggregated? && multiset(Ids(p.matches)) == multiset(Ids(matches))
  }

  /** The outbox row under `key` stands for these very matches. */
  predicate Stored(table: Table, key: string, matches: seq<MonitorMatch>) {
    var row := Lookup(table.rows, key);
    row.Some? && StandsFor(row.value.payload, matches)
  }

  /** A drained window counts as enqueued only if the outbox then holds its matches under its key. */
  function Booked(keys: Keys, actions: Actions, st: State, e: Event, name: string): Ledger
    requires Possible(st, e)
  {
    var a := WindowOf(st.aggs, name);
    match e
    case Matches(xs, _) => EMPTY_LEDGER.(accepted := Accepted(actions, st.aggs, xs, name))
    case Tick(_, now, force, _) =>
      if Due(actions, name, a, now, force) then
        if Stored(Next(keys, actions, st, e).table, keys(Whole(actions, name, a.matches)), a.matches)
        then EMPTY_LEDGER.(enqueued := multiset(a.matches))
        else EMPTY_LEDGER.(lost := multiset(a.matches))
      else if Orphaned(actions, name, a) then EMPTY_LEDGER.(cleared := multiset(a.matches))
      else EMPTY_LEDGER
    case Leave(_) => EMPTY_LEDGER
  }

  function Add(a: Ledger, b: Ledger): Ledger {
    Ledger(a.accepted + b.accepted, a.enqueued + b.enqueued, a.lost + b.lost, a.cleared + b.cleared)
  }

  function LedgerOf(keys: Keys, actions: Actions, st: State, es: seq<Event>, name: string): Ledger
    requires Legal(keys, actions, st, es)
  {
    if es == [] then EMPTY_LEDGER
    else
      var front := es[..|es| - 1];
      Add(LedgerOf(keys, actions, st, front, name),
          Booked(keys, actions, Run(keys, actions, st, front), es[|es| - 1], name))
  }

  lemma NextWindow(actions: Actions, aggs: map<string, AggState>, x: Arrival, name: string)
    ensures WindowOf(NextAggs(actions, aggs, x), name) ==
      if AggregatedBy(actions, x.m) && x.m.actionName == name then Collect(WindowOf(aggs, name), x.m, x.now)
      else WindowOf(aggs, name)
  {
  }

  lemma OneBalances(actions: Actions, aggs: map<string, AggState>, x: Arrival, name: string)
    ensures Pending(NextAggs(actions, aggs, x), name) == Pending(aggs, name) + AcceptedOne(actions, aggs, x, name)
  {
    NextWindow(actions, aggs, x, name);
  }

  lemma {:induction false} BatchBalances(actions: Actions, aggs: map<string, AggState>, xs: seq<Arrival>, name: string)
    ensures Pending(AggsAfter(actions, aggs, xs), name) == Pending(aggs, name) + Accepted(actions, aggs, xs, name)
  {
    if xs != [] {
      BatchBalances(actions, aggs, xs[..|xs| - 1], name);
      OneBalances(actions, AggsAfter(actions, aggs, xs[..|xs| - 1]), xs[|xs| - 1], name);
    }
  }

  lemma TickBalances(keys: Keys, actions: Actions, st: State, e: Event, name: string)
    requires Possible(st, e) && e.Tick?
    ensures var b, a := Booked(keys, actions, st, e, name), WindowOf(st.aggs, name);
      && b.accepted == multiset{}
      && multiset(a.matches) == multiset(SweepOne(actions, name, a, e.now, e.force).matches) + b.enqueued + b.lost + b.cleared
  {
    var empty: seq<MonitorMatch> := [];
    assert multiset(empty) == multiset{};
  }

  lemma StepBalances(keys: Keys, actions: Actions, st: State, e: Event, name: string)
    requires Possible(st, e)
    ensures var b := Booked(keys, actions, st, e, name);
      Pending(st.aggs, name) + b.accepted ==
        Pending(Next(keys, actions, st, e).aggs, name) + b.enqueued + b.lost + b.cleared
  {
    NextAggsAre(keys, actions, st, e);
    match e
    case Matches(xs, _) => BatchBalances(actions, st.aggs, xs, name);
    case Tick(_, now, force, _) =>
      TickBalances(keys, actions, st, e, name);
      SweepWindowIs(actions, st.aggs, now, force, name);
    case Leave(_) =>
  }

  lemma SweepWindowIs(actions: Actions, aggs: map<string, AggState>, now: int, force: bool, name: string)
    ensures WindowOf(Sweep(actions, aggs, now, force), name) == SweepOne(actions, name, WindowOf(aggs, name), now, force)
  {
  }

  lemma AddBalances(p0: multiset<MonitorMatch>, p1: multiset<MonitorMatch>, p2: multiset<MonitorMatch>, l: Ledger, b: Ledger)
    requires p0 + l.accepted == p1 + l.enqueued + l.lost + l.cleared
    requires p1 + b.accepted == p2 + b.enqueued + b.lost + b.cleared
    ensures var s := Add(l, b); p0 + s.accepted == p2 + s.enqueued + s.lost + s.cleared
  {
    var s := Add(l, b);
    assert p0 + s.accepted == (p0 + l.accepted) + b.accepted;
    assert p2 + s.enqueued + s.lost + s.cleared == (p2 + b.enqueued + b.lost + b.cleared) + l.enqueued + l.lost + l.cleared;
    assert p1 + l.enqueued + l.lost + l.cleared + b.accepted == (p1 + b.accepted) + l.enqueued + l.lost + l.cleared;
  }

  /**
   Conservation: what was pending plus what was accepted is what is pending now, plus
   what the outbox got under its key, plus what was drained and lost, plus what was
   cleared as orphaned.
   */
  lemma {:induction false} MatchesAreConserved(keys: Keys, actions: Actions, st: State, es: seq<Event>, name: string)
    requires Legal(keys, actions, st, es)
    ensures var l := LedgerOf(keys, actions, st, es, name);
      Pending(st.aggs, name) + l.accepted ==
        Pending(Run(keys, actions, st, es).aggs, name) + l.enqueued + l.lost + l.cleared
    decreases |es|
  {
    if es != [] {
      var front, last := es[..|es| - 1], es[|es| - 1];
      var mid := Run(keys, actions, st, front);
      MatchesAreConserved(keys, actions, st, front, name);
      StepBalances(keys, actions, mid, last, name);
      AddBalances(Pending(st.aggs, name), Pending(mid.aggs, name), Pending(Run(keys, actions, st, es).aggs, name),
                  LedgerOf(keys, actions, st, front, name), Booked(keys, actions, mid, last, name));
    }
  }

  // ------------------------------------------------------------------- losses

  /** What the outbox will hold under the key of `p` if the enqueue of a check succeeds. */
  function FirstClaim(keys: Keys, actions: Actions, st: State, e: Event, p: Payload): Option<Item>
    requires Possible(st, e) && e.Tick?
  {
    VisitsOnlyKeys(e.order, st.aggs);
    OrElse(Lookup(st.table.rows, keys(p)),
           FirstWithKey(Items(keys, DrainedPayloads(actions, st.aggs, e.order, e.now, e.force)), keys(p)))
  }

  /**
   The check drains the window of `name`, and either the enqueue fails, with its
   matches not in the outbox already, or its key belongs to other matches, in the
   outbox or earlier in the same check.
   */
  predicate TickLoses(keys: Keys, actions: Actions, st: State, e: Event, name: string)
    requires Possible(st, e)
  {
    && e.Tick? && Due(actions, name, WindowOf(st.aggs, name), e.now, e.force)
    && var matches := WindowOf(st.aggs, name).matches;
       var p := Whole(actions, name, matches);
       && !Stored(st.table, keys(p), matches)
       && (e.ok ==> FirstClaim(keys, actions, st, e, p).Some?
                    && !StandsFor(FirstClaim(keys, actions, st, e, p).value.payload, matches))
  }

  lemma TableAfterCheck(keys: Keys, actions: Actions, st: State, e: Event, p: Payload)
    requires Possible(st, e) && e.Tick?
    ensures Lookup(Next(keys, actions, st, e).table.rows, keys(p)) ==
      if e.ok then FirstClaim(keys, actions, st, e, p) else Lookup(st.table.rows, keys(p))
  {
    VisitsOnlyKeys(e.order, st.aggs);
    if e.ok {
      DispatchMeans(keys, st.(aggs := Sweep(actions, st.aggs, e.now, e.force)),
                    DrainedPayloads(actions, st.aggs, e.order, e.now, e.force), keys(p));
    }
  }

  lemma DuePayloadClaims(keys: Keys, actions: Actions, st: State, e: Event, name: string)
    requires Possible(st, e) && e.Tick? && Due(actions, name, WindowOf(st.aggs, name), e.now, e.force)
    ensures FirstClaim(keys, actions, st, e, Whole(actions, name, WindowOf(st.aggs, name).matches)).Some?
  {
    VisitsOnlyKeys(e.order, st.aggs);
    var p := Whole(actions, name, WindowOf(st.aggs, name).matches);
    DueWindowsGoOutOnce(actions, st.aggs, e.order, e.now, e.force, p);
    var ps := DrainedPayloads(actions, st.aggs, e.order, e.now, e.force);
    assert p in multiset(ps);
    OfferedKeyIsFound(keys, ps, p);
  }

  lemma LostWhen(keys: Keys, actions: Actions, st: State, e: Event, name: string)
    requires Possible(st, e)
    ensures Booked(keys, actions, st, e, name).lost != multiset{} <==> TickLoses(keys, actions, st, e, name)
    ensures Booked(keys, actions, st, e, name).cleared != multiset{} <==>
      e.Tick? && Orphaned(actions, name, WindowOf(st.aggs, name))
    ensures TickLoses(keys, actions, st, e, name) ==>
      && WindowOf(Next(keys, actions, st, e).aggs, name).matches == []
      && (!e.ok ==> Next(keys, actions, st, e).table == st.table)
  {
    var a := WindowOf(st.aggs, name);
    NextAggsAre(keys, actions, st, e);
    assert a.matches != [] ==> a.matches[0] in multiset(a.matches);
    if e.Tick? && Due(actions, name, a, e.now, e.force) {
      TableAfterCheck(keys, actions, st, e, Whole(actions, name, a.matches));
      DuePayloadClaims(keys, actions, st, e, name);
    }
  }

  /** The `i`-th event of the run is a check that loses the window of `name`. */
  predicate LosesAt(keys: Keys, actions: Actions, st: State, es: seq<Event>, i: nat, name: string) {
    && i < |es| && Legal(keys, actions, st, es[..i]) && Possible(Run(keys, actions, st, es[..i]), es[i])
    && TickLoses(keys, actions, Run(keys, actions, st, es[..i]), es[i], name)
  }

  ghost predicate SomeLoses(keys: Keys, actions: Actions, st: State, es: seq<Event>, name: string) {
    exists i: nat :: LosesAt(keys, actions, st, es, i, name)
  }

  lemma EarlierLosses(keys: Keys, actions: Actions, st: State, es: seq<Event>, name: string)
    requires es != []
    ensures var front := es[..|es| - 1];
      SomeLoses(keys, actions, st, es, name) <==>
        SomeLoses(keys, actions, st, front, name) || LosesAt(keys, actions, st, es, |front|, name)
  {
    var front := es[..|es| - 1];
    forall i: nat | i < |front|
      ensures LosesAt(keys, actions, st, es, i, name) <==> LosesAt(keys, actions, st, front, i, name)
    {
      assert es[..i] == front[..i];
    }
    if SomeLoses(keys, actions, st, front, name) {
      var i: nat :| LosesAt(keys, actions, st, front, i, name);
      assert LosesAt(keys, actions, st, es, i, name);
    }
  }

  /**
   Matches are lost exactly in checks that find their window due and whose enqueue
   fails, or that find its key taken by other matches.
   */
  lemma {:induction false} LossesHaveCauses(keys: Keys, actions: Actions, st: State, es: seq<Event>, name: string)
    requires Legal(keys, actions, st, es)
    ensures LedgerOf(keys, actions, st, es, name).lost != multiset{} <==> SomeLoses(keys, actions, st, es, name)
    decreases |es|
  {
    if es != [] {
      var front, last := es[..|es| - 1], es[|es| - 1];
      LossesHaveCauses(keys, actions, st, front, name);
      EarlierLosses(keys, actions, st, es, name);
      LosesLast(keys, actions, st, es, name);
      LostWhen(keys, actions, Run(keys, actions, st, front), last, name);
      AddLosses(LedgerOf(keys, actions, st, front, name), Booked(keys, actions, Run(keys, actions, st, front), last, name));
    }
  }

  lemma LosesLast(keys: Keys, actions: Actions, st: State, es: seq<Event>, name: string)
    requires Legal(keys, actions, st, es) && es != []
    ensures var front := es[..|es| - 1];
      LosesAt(keys, actions, st, es, |front|, name) <==>
        TickLoses(keys, actions, Run(keys, actions, st, front), es[|es| - 1], name)
  {
  }

  lemma AddLosses(a: Ledger, b: Ledger)
    ensures Add(a, b).lost == multiset{} <==> a.lost == multiset{} && b.lost == multiset{}
  {
    assert forall m :: m in a.lost || m in b.lost ==> m in Add(a, b).lost;
  }

  /** Nothing is cleared while the action has an aggregation policy. */
  lemma {:induction false} ClearedAreOrphans(keys: Keys, actions: Actions, st: State, es: seq<Event>, name: string)
    requires Legal(keys, actions, st, es)
    ensures LedgerOf(keys, actions, st, es, name).cleared != multiset{} ==> AggregatePolicy(actions, name).None?
    decreases |es|
  {
    if es != [] {
      ClearedAreOrphans(keys, actions, st, es[..|es| - 1], name);
      LostWhen(keys, actions, Run(keys, actions, st, es[..|es| - 1]), es[|es| - 1], name);
    }
  }

  // --------------------------------------------- losses and the idempotency key

  predicate HonestItem(keys: Keys, item: Item) {
    item.key == keys(item.payload) && (item.payload.Single? ==> Built(item.payload.m))
  }

  predicate Honest(keys: Keys, table: Table) {
    forall i :: 0 <= i < |table.rows| ==> HonestItem(keys, table.rows[i].item)
  }

  predicate HonestPayload(p: Payload) { p.Single? ==> Built(p.m) }

  lemma {:induction false} InsertAllKeepsHonest(keys: Keys, t: Table, items: seq<Item>)
    requires Honest(keys, t) && forall i :: 0 <= i < |items| ==> HonestItem(keys, items[i])
    ensures Honest(keys, InsertAll(t, items))
    decreases |items|
  {
    if items != [] {
      InsertAllKeepsHonest(keys, InsertOne(t, items[0]), items[1..]);
    }
  }

  lemma DispatchKeepsHonest(keys: Keys, st: State, ps: seq<Payload>, ok: bool)
    requires Honest(keys, st.table) && forall p :: p in ps ==> HonestPayload(p)
    ensures Honest(keys, Dispatch(keys, st, ps, ok).table)
  {
    assert forall i :: 0 <= i < |ps| ==> HonestPayload(ps[i]);
    InsertAllKeepsHonest(keys, st.table, Items(keys, ps));
  }

  lemma BatchKeepsHonest(keys: Keys, actions: Actions, st: State, xs: seq<Arrival>, ok: bool)
    requires Honest(keys, st.table) && AllBuilt(xs)
    ensures Honest(keys, Batch(keys, actions, st, xs, ok).table)
  {
    HandleAllSplits(keys, actions, st, xs);
    SentAreThrottled(actions, st.throttles, xs);
    ImmediateAreUnpoliced(actions, xs);
    DispatchKeepsHonest(keys, After(actions, st, xs), Sent(actions, st.throttles, xs), true);
    DispatchKeepsHonest(keys, HandleAll(keys, actions, st, xs), Immediate(actions, xs), ok);
  }

  lemma {:induction false} LeavingKeepsHonest(keys: Keys, t: Table, ids: set<nat>)
    requires Honest(keys, t)
    ensures Honest(keys, t.(rows := Without(t.rows, ids)))
  {
    var rows := Without(t.rows, ids);
    forall i | 0 <= i < |rows| ensures HonestItem(keys, rows[i].item) {
      WithoutMembers(t.rows, ids, rows[i]);
    }
  }

  lemma NextKeepsHonest(keys: Keys, actions: Actions, st: State, e: Event)
    requires Possible(st, e) && Honest(keys, st.table) && (e.Matches? ==> AllBuilt(e.xs))
    ensures Honest(keys, Next(keys, actions, st, e).table)
  {
    match e
    case Matches(xs, ok) => BatchKeepsHonest(keys, actions, st, xs, ok);
    case Tick(order, now, force, ok) =>
      VisitsOnlyKeys(order, st.aggs);
      var ps := DrainedPayloads(actions, st.aggs, order, now, force);
      forall p | p in ps ensures HonestPayload(p) {
        DueWindowsGoOutOnce(actions, st.aggs, order, now, force, p);
      }
      DispatchKeepsHonest(keys, st.(aggs := Sweep(actions, st.aggs, now, force)), ps, ok);
    case Leave(ids) => LeavingKeepsHonest(keys, st.table, ids);
  }

  predicate BuiltBatches(es: seq<Event>) { forall i :: 0 <= i < |es| && es[i].Matches? ==> AllBuilt(es[i].xs) }

  lemma {:induction false} RunKeepsHonest(keys: Keys, actions: Actions, st: State, es: seq<Event>)
    requires Legal(keys, actions, st, es) && Honest(keys, st.table) && BuiltBatches(es)
    ensures Honest(keys, Run(keys, actions, st, es).table)
    decreases |es|
  {
    if es != [] {
      RunKeepsHonest(keys, actions, st, es[..|es| - 1]);
      NextKeepsHonest(keys, actions, Run(keys, actions, st, es[..|es| - 1]), es[|es| - 1]);
    }
  }

  /** An honest row under the key of an aggregated payload stands for the same matches, or the hash collides. */
  lemma SharedKeyMeans<H(!new)>(hs: Hasher<H>, keys: Keys, item: Item, p: Payload)
    requires forall q :: keys(q) == IdempotencyKey(hs, q)
    requires HonestItem(keys, item) && p.Aggregated? && item.key == keys(p)
    ensures StandsFor(item.payload, p.matches) || Collides(hs)
  {
    if item.payload.Single? {
      SingleAndAggregateKeysDiffer(hs, item.payload, p);
    } else {
      AggregateKeyIsCanonical(hs, item.payload, p);
    }
  }

  /**
   With the program's keys and built matches, whatever is lost was drained by a check
   whose enqueue failed, unless the 64-bit hash collides on two sorted id lists.
   */
  lemma LossMeansFailureOrCollision<H(!new)>(
    hs: Hasher<H>, keys: Keys, actions: Actions, st: State, es: seq<Event>, name: string)
    requires forall q :: keys(q) == IdempotencyKey(hs, q)
    requires Legal(keys, actions, st, es) && Honest(keys, st.table) && BuiltBatches(es)
    requires LedgerOf(keys, actions, st, es, name).lost != multiset{}
    ensures Collides(hs) || exists i: nat :: LosesAt(keys, actions, st, es, i, name) && !es[i].ok
  {
    LossesHaveCauses(keys, actions, st, es, name);
    var i: nat :| LosesAt(keys, actions, st, es, i, name);
    if es[i].ok {
      RunKeepsHonest(keys, actions, st, es[..i]);
      GoodTickMeans(hs, keys, actions, Run(keys, actions, st, es[..i]), es[i], name);
    }
  }

  lemma GoodTickMeans<H(!new)>(hs: Hasher<H>, keys: Keys, actions: Actions, st: State, e: Event, name: string)
    requires forall q :: keys(q) == IdempotencyKey(hs, q)
    requires Possible(st, e) && Honest(keys, st.table) && TickLoses(keys, actions, st, e, name) && e.ok
    ensures Collides(hs)
  {
    ClaimMeans(hs, keys, actions, st, e, Whole(actions, name, WindowOf(st.aggs, name).matches));
  }

  lemma ClaimMeans<H(!new)>(hs: Hasher<H>, keys: Keys, actions: Actions, st: State, e: Event, p: Payload)
    requires forall q :: keys(q) == IdempotencyKey(hs, q)
    requires Possible(st, e) && e.Tick? && Honest(keys, st.table) && p.Aggregated?
    requires FirstClaim(keys, actions, st, e, p).Some?
    ensures StandsFor(FirstClaim(keys, actions, st, e, p).value.payload, p.matches) || Collides(hs)
  {
    var good := Tick(e.order, e.now, e.force, true);
    TableAfterCheck(keys, actions, st, good, p);
    NextKeepsHonest(keys, actions, st, good);
    LookupIsHonest(keys, Next(keys, actions, st, good).table.rows, keys(p));
    SharedKeyMeans(hs, keys, FirstClaim(keys, actions, st, e, p).value, p);
  }

  lemma {:induction false} LookupIsHonest(keys: Keys, rows: seq<Row>, key: string)
    requires forall i :: 0 <= i < |rows| ==> HonestItem(keys, rows[i].item)
    ensures Lookup(rows, key).Some? ==> HonestItem(keys, Lookup(rows, key).value) && Lookup(rows, key).value.key == key
  {
    if rows != [] {
      LookupIsHonest(keys, rows[1..], key);
    }
  }

  // ----------------------------------------------------------- the window's clock

  /**
   The time of the latest match of the batch that found the window of `name` empty,
   else `before`.
   */
  function OpenedIn(actions: Actions, aggs: map<string, AggState>, xs: seq<Arrival>, name: string, before: Option<int>)
    : Option<int>
  {
    if xs == [] then before
    else
      var front, x := xs[..|xs| - 1], xs[|xs| - 1];
      if AggregatedBy(actions, x.m) && x.m.actionName == name
         && WindowOf(AggsAfter(actions, aggs, front), name).matches == []
      then Some(x.now)
      else OpenedIn(actions, aggs, front, name, before)
  }

  /** The time of the first match accepted since the window was last empty. */
  function OpenedAt(keys: Keys, actions: Actions, st: State, es: seq<Event>, name: string): Option<int>
    requires Legal(keys, actions, st, es)
    decreases |es|
  {
    if es == [] then None
    else
      var front, e := es[..|es| - 1], es[|es| - 1];
      var before := OpenedAt(keys, actions, st, front, name);
      if e.Matches? then OpenedIn(actions, Run(keys, actions, st, front).aggs, e.xs, name, before) else before
  }

  predicate ClockIs(a: AggState, since: Option<int>) { a.matches != [] ==> since == Some(a.windowStart) }

  lemma {:induction false} BatchKeepsClock(
    actions: Actions, aggs: map<string, AggState>, xs: seq<Arrival>, name: string, before: Option<int>)
    requires ClockIs(WindowOf(aggs, name), before)
    ensures ClockIs(WindowOf(AggsAfter(actions, aggs, xs), name), OpenedIn(actions, aggs, xs, name, before))
  {
    if xs != [] {
      var front, x := xs[..|xs| - 1], xs[|xs| - 1];
      BatchKeepsClock(actions, aggs, front, name, before);
      NextWindow(actions, AggsAfter(actions, aggs, front), x, name);
    }
  }

  lemma {:induction false} ClockIsFirstMatch(keys: Keys, actions: Actions, st: State, es: seq<Event>, name: string)
    requires Legal(keys, actions, st, es) && WindowOf(st.aggs, name).matches == []
    ensures ClockIs(WindowOf(Run(keys, actions, st, es).aggs, name), OpenedAt(keys, actions, st, es, name))
    decreases |es|
  {
    if es != [] {
      var front, e := es[..|es| - 1], es[|es| - 1];
      var mid := Run(keys, actions, st, front);
      ClockIsFirstMatch(keys, actions, st, front, name);
      NextAggsAre(keys, actions, mid, e);
      match e
      case Matches(xs, _) => BatchKeepsClock(actions, mid.aggs, xs, name, OpenedAt(keys, actions, st, front, name));
      case Tick(_, now, force, _) => SweepWindowIs(actions, mid.aggs, now, force, name);
      case Leave(_) =>
    }
  }

  /**
   A check that is not a flush sends the window of an aggregated action exactly when it
   holds matches and the check's time is more than the policy's window past that of the
   first match accepted since the window was last empty.
   */
  lemma WindowIsSentWhen(keys: Keys, actions: Actions, st: State, es: seq<Event>, name: string, order: seq<string>,
                         now: int, window: nat, template: string)
    requires Legal(keys, actions, st, es) && WindowOf(st.aggs, name).matches == []
    requires name in actions && actions[name] == Some(Aggregate(window, template))
    requires Visits(order, Run(keys, actions, st, es).aggs)
    ensures var later := Run(keys, actions, st, es);
      var ps := SentBy(actions, later.aggs, order, now, false);
      var matches, since := WindowOf(later.aggs, name).matches, OpenedAt(keys, actions, st, es, name);
      Aggregated(name, matches, template) in ps <==> matches != [] && since.Some? && now > since.value + window
  {
    var later := Run(keys, actions, st, es);
    VisitsOnlyKeys(order, later.aggs);
    ClockIsFirstMatch(keys, actions, st, es, name);
    var p, ps := Aggregated(name, WindowOf(later.aggs, name).matches, template),
                 SentBy(actions, later.aggs, order, now, false);
    DueWindowsGoOutOnce(actions, later.aggs, order, now, false, p);
    assert p in ps <==> multiset(ps)[p] > 0;
  }

  predicate WellFormed(aggs: map<string, AggState>) {
    forall name :: name in aggs ==> WindowOk(name, aggs[name])
  }

  predicate WindowOk(name: string, a: AggState) {
    Distinct(Ids(a.matches)) && forall m :: m in a.matches ==> m.actionName == name
  }

  lemma {:induction false} BatchKeepsWellFormed(actions: Actions, aggs: map<string, AggState>, xs: seq<Arrival>)
    requires WellFormed(aggs)
    ensures WellFormed(AggsAfter(actions, aggs, xs))
  {
    if xs != [] {
      var before, x := AggsAfter(actions, aggs, xs[..|xs| - 1]), xs[|xs| - 1];
      BatchKeepsWellFormed(actions, aggs, xs[..|xs| - 1]);
      CollectKeepsWindowOk(x.m.actionName, WindowOf(before, x.m.actionName), x.m, x.now);
    }
  }

  /** Pending matches of a window keep pairwise distinct ids and belong to its action. */
  lemma {:induction false} WindowsStayWellFormed(keys: Keys, actions: Actions, st: State, es: seq<Event>)
    requires Legal(keys, actions, st, es) && WellFormed(st.aggs)
    ensures WellFormed(Run(keys, actions, st, es).aggs)
    decreases |es|
  {
    if es != [] {
      var before, e := Run(keys, actions, st, es[..|es| - 1]), es[|es| - 1];
      WindowsStayWellFormed(keys, actions, st, es[..|es| - 1]);
      NextAggsAre(keys, actions, before, e);
      if e.Matches? {
        BatchKeepsWellFormed(actions, before.aggs, e.xs);
      }
    }
  }

  lemma CollectKeepsWindowOk(name: string, a: AggState, m: MonitorMatch, now: int)
    requires m.actionName == name && WindowOk(name, a)
    ensures WindowOk(name, Collect(a, m, now))
  {
    var c := Collect(a, m, now);
    if !Pends(a, m.id) {
      assert Ids(c.matches) == Ids(a.matches) + [m.id];
    }
  }
}
