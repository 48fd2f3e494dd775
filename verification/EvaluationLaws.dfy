/** What every evaluation guarantees about the matches of one item: unique ids, and one kind of match per monitor. */
module EvaluationLaws {
  import opened Prelude
  import opened MatchIds
  import opened Payloads
  import opened ChainData
  import opened EvaluationSpec

  function MatchKeys(found: seq<MonitorMatch>): (r: seq<MatchKey>)
    ensures |r| == |found| && forall i :: 0 <= i < |r| ==> r[i] == KeyOf(found[i])
  {
    if found == [] then [] else MatchKeys(found[..|found| - 1]) + [KeyOf(found[|found| - 1])]
  }

  /** Ids are formatted from the identifying fields. */
  predicate Formatted(g: Engine, found: seq<MonitorMatch>) {
    forall i :: 0 <= i < |found| ==> found[i].id == g.formatId(KeyOf(found[i]))
  }

  lemma KeysConcat(a: seq<MonitorMatch>, b: seq<MonitorMatch>)
    ensures MatchKeys(a + b) == MatchKeys(a) + MatchKeys(b)
  {
  }

  lemma DistinctConcat(a: seq<MatchKey>, b: seq<MatchKey>)
    requires Distinct(a) && Distinct(b) && forall k :: k in a ==> k !in b
    ensures Distinct(a + b)
  {
    forall i, j | 0 <= i < j < |a + b| ensures (a + b)[i] != (a + b)[j] {
      if i < |a| <= j {
        assert a[i] in a && b[j - |a|] in b;
      }
    }
  }

  predicate Sane(g: Engine, found: seq<MonitorMatch>) { Formatted(g, found) && Distinct(MatchKeys(found)) }

  lemma JoinSane(g: Engine, a: seq<MonitorMatch>, b: seq<MonitorMatch>)
    requires Sane(g, a) && Sane(g, b) && forall k :: k in MatchKeys(a) ==> k !in MatchKeys(b)
    ensures Sane(g, a + b)
    ensures forall k :: k in MatchKeys(a + b) <==> k in MatchKeys(a) || k in MatchKeys(b)
  {
    KeysConcat(a, b);
    DistinctConcat(MatchKeys(a), MatchKeys(b));
  }

  function DataKey(item: Item, m: Monitor, action: string, index: Option<nat>): MatchKey {
    if index.Some? then LogKey(m.id, action, item.tx.hash, index.value) else TxKey(m.id, action, item.tx.hash)
  }

  lemma ExpectKeys(g: Engine, item: Item, m: Monitor, data: MatchData, called: bool)
    requires Distinct(m.actions)
    ensures var e := Expect(g, item, m, data, called);
      && Sane(g, e)
      && (forall k :: k in MatchKeys(e) ==> k.monitor == m.id)
      && (forall k :: k in MatchKeys(e) ==>
            if data.LogMatch? then k.LogKey? && k.logIndex == data.logIndex else k.TxKey?)
  {
    var e := Expect(g, item, m, data, called);
    ExpectFormatted(g, item, m, data, called);
    forall i | 0 <= i < |e|
      ensures MatchKeys(e)[i] == DataKey(item, m, m.actions[i], if data.LogMatch? then Some(data.logIndex) else None)
    {
      PerActionAt(g, item, m, m.actions, i, data, CallShown(g, item, called));
    }
  }

  /** Log matches found so far come from finished monitors, or from `m` and one of the logs already seen. */
  predicate LogsSoFar(g: Engine, p: Progress, finished: set<int>, current: int, indexes: set<nat>) {
    && Sane(g, p.found)
    && (forall k :: k in MatchKeys(p.found) ==>
          k.LogKey? && k.monitor in p.matched
          && (k.monitor in finished || (k.monitor == current && k.logIndex in indexes)))
  }

  lemma LogStepKeepsKeys(g: Engine, item: Item, m: Monitor, l: Log, p: Progress, finished: set<int>, indexes: set<nat>)
    requires LogsSoFar(g, p, finished, m.id, indexes) && LogStep(g, item, m, l, p).Ok?
    requires Distinct(m.actions) && m.id !in finished && IndexOf(l) !in indexes
    ensures LogsSoFar(g, LogStep(g, item, m, l, p).value, finished, m.id, indexes + {IndexOf(l)})
  {
    var q := LogStep(g, item, m, l, p).value;
    if q.found != p.found {
      var d := Visible(g, m, l).value;
      var more := Expect(g, item, m, LogData(g, item, d), q.called);
      ExpectKeys(g, item, m, LogData(g, item, d), q.called);
      JoinSane(g, p.found, more);
    }
  }

  function Indexes(logs: seq<Log>): set<nat> { set l | l in logs :: IndexOf(l) }

  predicate DistinctIndexes(logs: seq<Log>) {
    forall i, j :: 0 <= i < j < |logs| ==> IndexOf(logs[i]) != IndexOf(logs[j])
  }

  lemma {:induction false} MonitorKeepsKeys(g: Engine, item: Item, m: Monitor, logs: seq<Log>, p: Progress, finished: set<int>)
    requires LogsSoFar(g, p, finished, m.id, {}) && MonitorOverLogs(g, item, m, logs, p).Ok?
    requires Distinct(m.actions) && m.id !in finished && DistinctIndexes(logs)
    ensures LogsSoFar(g, MonitorOverLogs(g, item, m, logs, p).value, finished, m.id, Indexes(logs))
  {
    if logs == [] {
      assert Indexes(logs) == {};
    } else {
      var front, l := logs[..|logs| - 1], logs[|logs| - 1];
      MonitorKeepsKeys(g, item, m, front, p, finished);
      assert IndexOf(l) !in Indexes(front);
      LogStepKeepsKeys(g, item, m, l, MonitorOverLogs(g, item, m, front, p).value, finished, Indexes(front));
      assert Indexes(logs) == Indexes(front) + {IndexOf(l)};
    }
  }

  /** Monitor ids are unique in the list, and each monitor's actions are too. */
  predicate ProperMonitors(ms: seq<Monitor>) {
    && (forall i, j :: 0 <= i < j < |ms| ==> ms[i].id != ms[j].id)
    && (forall i :: 0 <= i < |ms| ==> Distinct(ms[i].actions))
  }

  function MonitorIds(ms: seq<Monitor>): set<int> { set m | m in ms :: m.id }

  lemma LastMonitor(ms: seq<Monitor>)
    requires ProperMonitors(ms) && ms != []
    ensures var front, m := ms[..|ms| - 1], ms[|ms| - 1];
      && ProperMonitors(front) && Distinct(m.actions) && m.id !in MonitorIds(front)
      && MonitorIds(ms) == MonitorIds(front) + {m.id}
  {
    var front, m := ms[..|ms| - 1], ms[|ms| - 1];
    assert forall x :: x in ms <==> x in front || x == m;
  }

  lemma {:induction false} LogPassKeepsKeys(g: Engine, item: Item, ms: seq<Monitor>, next: int)
    requires LogPass(g, item, ms).Ok? && ProperMonitors(ms) && DistinctIndexes(item.logs)
    ensures LogsSoFar(g, LogPass(g, item, ms).value, MonitorIds(ms), next, {})
  {
    if ms != [] {
      var front, m := ms[..|ms| - 1], ms[|ms| - 1];
      LastMonitor(ms);
      LogPassKeepsKeys(g, item, front, m.id);
      MonitorKeepsKeys(g, item, m, item.logs, LogPass(g, item, front).value, MonitorIds(front));
    }
  }

  /** After the tx-aware pass: log matches of matched monitors, tx matches of the others. */
  predicate AllSoFar(g: Engine, found: seq<MonitorMatch>, matched: set<int>, finished: set<int>) {
    && Sane(g, found)
    && (forall k :: k in MatchKeys(found) ==>
          if k.LogKey? then k.monitor in matched else k.monitor !in matched && k.monitor in finished)
  }

  lemma {:induction false} TxPassKeepsKeys(g: Engine, item: Item, ms: seq<Monitor>, p: Progress)
    requires TxPass(g, item, ms, p).Ok? && ProperMonitors(ms)
    requires AllSoFar(g, p.found, p.matched, {})
    ensures AllSoFar(g, TxPass(g, item, ms, p).value.found, p.matched, MonitorIds(ms))
  {
    if ms != [] {
      var front, m := ms[..|ms| - 1], ms[|ms| - 1];
      TxPassKeepsKeys(g, item, front, p);
      TxPassKeepsMatched(g, item, front, p);
      LastMonitor(ms);
      var before := TxPass(g, item, front, p).value;
      var more := Expect(g, item, m, TxData(g, item), before.called || m.caps.call);
      ExpectKeys(g, item, m, TxData(g, item), before.called || m.caps.call);
      if m.id !in p.matched && TxVerdict(g, item, m).value {
        JoinSane(g, before.found, more);
      }
    }
  }

  ghost predicate UsesMatchIds(g: Engine) {
    forall k :: g.formatId(k) == MatchId(k)
  }

  /**
   All matches of one item have pairwise distinct ids, and no monitor yields both log
   matches and transaction matches, provided the logs' effective indexes differ.
   */
  lemma MatchesAreUnique(g: Engine, item: Item, logAware: seq<Monitor>, txAware: seq<Monitor>, i: nat, j: nat)
    requires UsesMatchIds(g) && Evaluate(g, item, logAware, txAware).Ok?
    requires ProperMonitors(logAware) && ProperMonitors(txAware) && DistinctIndexes(item.logs)
    requires i < j < |Evaluate(g, item, logAware, txAware).value|
    ensures var found := Evaluate(g, item, logAware, txAware).value;
      && found[i].id != found[j].id
      && (found[i].monitorId == found[j].monitorId ==> found[i].data.LogMatch? == found[j].data.LogMatch?)
  {
    var p := if item.logs == [] then START else LogPass(g, item, logAware).value;
    if item.logs != [] {
      LogPassKeepsKeys(g, item, logAware, 0);
    }
    TxPassKeepsKeys(g, item, txAware, p);
    var found := Evaluate(g, item, logAware, txAware).value;
    var keys := MatchKeys(found);
    IdInjective(keys[i], keys[j]);
    assert keys[i] in keys && keys[j] in keys;
  }

  // ------------------------------------------------ every match is well built

  lemma ExpectFormatted(g: Engine, item: Item, m: Monitor, data: MatchData, called: bool)
    ensures Formatted(g, Expect(g, item, m, data, called))
  {
    forall i | 0 <= i < |m.actions|
      ensures var x := Expect(g, item, m, data, called)[i]; x.id == g.formatId(KeyOf(x))
    {
      PerActionAt(g, item, m, m.actions, i, data, CallShown(g, item, called));
    }
  }

  lemma {:induction false} OverLogsFormatted(g: Engine, item: Item, m: Monitor, logs: seq<Log>, p: Progress)
    requires Formatted(g, p.found) && MonitorOverLogs(g, item, m, logs, p).Ok?
    ensures Formatted(g, MonitorOverLogs(g, item, m, logs, p).value.found)
  {
    if logs != [] {
      var l := logs[|logs| - 1];
      OverLogsFormatted(g, item, m, logs[..|logs| - 1], p);
      if Visible(g, m, l).Some? {
        var called := MonitorOverLogs(g, item, m, logs, p).value.called;
        ExpectFormatted(g, item, m, LogData(g, item, Visible(g, m, l).value), called);
      }
    }
  }

  lemma {:induction false} LogPassFormatted(g: Engine, item: Item, ms: seq<Monitor>)
    requires LogPass(g, item, ms).Ok?
    ensures Formatted(g, LogPass(g, item, ms).value.found)
  {
    if ms != [] {
      LogPassFormatted(g, item, ms[..|ms| - 1]);
      OverLogsFormatted(g, item, ms[|ms| - 1], item.logs, LogPass(g, item, ms[..|ms| - 1]).value);
    }
  }

  lemma {:induction false} TxPassFormatted(g: Engine, item: Item, ms: seq<Monitor>, p: Progress)
    requires Formatted(g, p.found) && TxPass(g, item, ms, p).Ok?
    ensures Formatted(g, TxPass(g, item, ms, p).value.found)
  {
    if ms != [] {
      TxPassFormatted(g, item, ms[..|ms| - 1], p);
      ExpectFormatted(g, item, ms[|ms| - 1], TxData(g, item), TxPass(g, item, ms, p).value.called);
    }
  }

  /**
   Whatever the engine returns for an item carries the id its own fields determine,
   which is what the alert manager's batch law asks of its matches.
   */
  lemma EvaluatedMatchesAreBuilt(g: Engine, item: Item, logAware: seq<Monitor>, txAware: seq<Monitor>, i: nat)
    requires UsesMatchIds(g) && Evaluate(g, item, logAware, txAware).Ok?
    requires i < |Evaluate(g, item, logAware, txAware).value|
    ensures Built(Evaluate(g, item, logAware, txAware).value[i])
  {
    var p := if item.logs == [] then START else LogPass(g, item, logAware).value;
    if item.logs != [] {
      LogPassFormatted(g, item, logAware);
    }
    TxPassFormatted(g, item, txAware, p);
  }

  // ------------------------------------------- when a match shows the call

  /** Some call monitor of `ms` gets to see a log. */
  predicate CallSeen(g: Engine, item: Item, ms: seq<Monitor>) {
    exists m :: m in ms && m.caps.call && SeesSome(g, m, item.logs)
  }

  predicate SeesSome(g: Engine, m: Monitor, logs: seq<Log>) {
    exists l :: l in logs && Visible(g, m, l).Some?
  }

  /** Some call monitor of `ms` did not match a log, so it is evaluated on the transaction. */
  predicate CallNeeded(ms: seq<Monitor>, matched: set<int>) {
    exists m :: m in ms && m.caps.call && m.id !in matched
  }

  lemma ExpectShows(g: Engine, item: Item, m: Monitor, data: MatchData, called: bool)
    ensures forall x :: x in Expect(g, item, m, data, called) ==> x.decodedCall == CallShown(g, item, called)
  {
    var e := Expect(g, item, m, data, called);
    forall i | 0 <= i < |e| ensures e[i].decodedCall == CallShown(g, item, called) {
      PerActionAt(g, item, m, m.actions, i, data, CallShown(g, item, called));
    }
  }

  /** Of the matches `after`, those beyond `before` show the call iff `called`. */
  predicate NewShow(g: Engine, item: Item, before: seq<MonitorMatch>, after: seq<MonitorMatch>, called: bool) {
    before <= after && forall i :: |before| <= i < |after| ==> after[i].decodedCall == CallShown(g, item, called)
  }

  lemma {:induction false} OverLogsShow(g: Engine, item: Item, m: Monitor, logs: seq<Log>, p: Progress)
    requires MonitorOverLogs(g, item, m, logs, p).Ok?
    ensures var q := MonitorOverLogs(g, item, m, logs, p).value;
      && NewShow(g, item, p.found, q.found, p.called || m.caps.call)
      && (q.called <==> p.called || (m.caps.call && SeesSome(g, m, logs)))
  {
    if logs != [] {
      var front, l := logs[..|logs| - 1], logs[|logs| - 1];
      OverLogsShow(g, item, m, front, p);
      assert SeesSome(g, m, logs) <==> SeesSome(g, m, front) || Visible(g, m, l).Some? by {
        assert forall x :: x in logs <==> x in front || x == l;
      }
      if Visible(g, m, l).Some? {
        ExpectShows(g, item, m, LogData(g, item, Visible(g, m, l).value), p.called || m.caps.call);
      }
    }
  }

  lemma CallSeenSnoc(g: Engine, item: Item, front: seq<Monitor>, m: Monitor)
    ensures CallSeen(g, item, front + [m]) <==> CallSeen(g, item, front) || (m.caps.call && SeesSome(g, m, item.logs))
  {
    assert forall x :: x in front + [m] <==> x in front || x == m;
  }

  lemma {:induction false} LogPassCalledWhen(g: Engine, item: Item, ms: seq<Monitor>)
    requires LogPass(g, item, ms).Ok?
    ensures LogPass(g, item, ms).value.called <==> CallSeen(g, item, ms)
  {
    if ms != [] {
      var front, m := ms[..|ms| - 1], ms[|ms| - 1];
      LogPassCalledWhen(g, item, front);
      OverLogsShow(g, item, m, item.logs, LogPass(g, item, front).value);
      CallSeenSnoc(g, item, front, m);
      assert ms == front + [m];
    }
  }

  lemma {:induction false} TxPassCalledWhen(g: Engine, item: Item, ms: seq<Monitor>, p: Progress)
    requires TxPass(g, item, ms, p).Ok?
    ensures TxPass(g, item, ms, p).value.called <==> p.called || CallNeeded(ms, p.matched)
  {
    if ms != [] {
      var front, m := ms[..|ms| - 1], ms[|ms| - 1];
      TxPassCalledWhen(g, item, front, p);
      TxPassKeepsMatched(g, item, front, p);
      assert forall x :: x in ms <==> x in front || x == m;
    }
  }

  /**
   A log match shows the decoded call exactly when its monitor, or one listed before
   it, has the call capability and got to see a log.
   */
  lemma LogMatchShowsCallWhen(g: Engine, item: Item, front: seq<Monitor>, m: Monitor, i: nat)
    requires LogPass(g, item, front).Ok? && LogPass(g, item, front + [m]).Ok?
    requires |LogPass(g, item, front).value.found| <= i < |LogPass(g, item, front + [m]).value.found|
    ensures LogPass(g, item, front + [m]).value.found[i].decodedCall == CallShown(g, item, CallSeen(g, item, front + [m]))
  {
    assert (front + [m])[..|front|] == front;
    var p := LogPass(g, item, front).value;
    LogPassCalledWhen(g, item, front);
    OverLogsShow(g, item, m, item.logs, p);
    CallSeenSnoc(g, item, front, m);
    if !SeesSome(g, m, item.logs) {
      UnseenFindsNothing(g, item, m, item.logs, p);
    }
  }

  lemma {:induction false} UnseenFindsNothing(g: Engine, item: Item, m: Monitor, logs: seq<Log>, p: Progress)
    requires !SeesSome(g, m, logs)
    ensures MonitorOverLogs(g, item, m, logs, p) == Ok(p)
  {
    if logs != [] {
      UnseenFindsNothing(g, item, m, logs[..|logs| - 1], p);
      assert Visible(g, m, logs[|logs| - 1]).None?;
    }
  }

  /** Some monitor of `ms` with this id matches some log of the item. */
  predicate MatchesALog(g: Engine, item: Item, ms: seq<Monitor>, id: int) {
    exists m :: m in ms && m.id == id && HitsSome(g, item, m, item.logs)
  }

  predicate HitsSome(g: Engine, item: Item, m: Monitor, logs: seq<Log>) {
    exists l :: l in logs && LogVerdict(g, item, m, l) == Ok(true)
  }

  lemma {:induction false} OverLogsMatched(g: Engine, item: Item, m: Monitor, logs: seq<Log>, p: Progress)
    requires MonitorOverLogs(g, item, m, logs, p).Ok?
    ensures MonitorOverLogs(g, item, m, logs, p).value.matched ==
      p.matched + if HitsSome(g, item, m, logs) then {m.id} else {}
  {
    if logs != [] {
      var front, l := logs[..|logs| - 1], logs[|logs| - 1];
      OverLogsMatched(g, item, m, front, p);
      assert HitsSome(g, item, m, logs) <==> HitsSome(g, item, m, front) || LogVerdict(g, item, m, l) == Ok(true) by {
        assert forall x :: x in logs <==> x in front || x == l;
      }
    }
  }

  lemma {:induction false} LogPassMatchedWhen(g: Engine, item: Item, ms: seq<Monitor>, id: int)
    requires LogPass(g, item, ms).Ok?
    ensures id in LogPass(g, item, ms).value.matched <==> MatchesALog(g, item, ms, id)
  {
    if ms != [] {
      var front, m := ms[..|ms| - 1], ms[|ms| - 1];
      LogPassMatchedWhen(g, item, front, id);
      OverLogsMatched(g, item, m, item.logs, LogPass(g, item, front).value);
      assert forall x :: x in ms <==> x in front || x == m;
    }
  }

  /** Some call monitor of `ms` matches no log by its id, so it is evaluated on the transaction. */
  predicate CallLeftOver(g: Engine, item: Item, logAware: seq<Monitor>, ms: seq<Monitor>) {
    exists m :: m in ms && m.caps.call && !MatchesALog(g, item, logAware, m.id)
  }

  /** What the second pass starts from. */
  function AfterLogs(g: Engine, item: Item, logAware: seq<Monitor>): Result<Progress, EvalError> {
    if item.logs == [] then Ok(START) else LogPass(g, item, logAware)
  }

  lemma AfterLogsMeans(g: Engine, item: Item, logAware: seq<Monitor>, ms: seq<Monitor>)
    requires AfterLogs(g, item, logAware).Ok?
    ensures var p := AfterLogs(g, item, logAware).value;
      && (p.called <==> CallSeen(g, item, logAware))
      && (CallNeeded(ms, p.matched) <==> CallLeftOver(g, item, logAware, ms))
  {
    var p := AfterLogs(g, item, logAware).value;
    if item.logs != [] {
      LogPassCalledWhen(g, item, logAware);
      forall id ensures id in p.matched <==> MatchesALog(g, item, logAware, id) {
        LogPassMatchedWhen(g, item, logAware, id);
      }
    }
    assert forall id :: id in p.matched <==> MatchesALog(g, item, logAware, id);
  }

  /**
   A transaction match of an item shows it exactly when a call monitor saw a log, or
   its monitor or one listed before it has the call capability and matched no log.
   */
  lemma TxMatchShowsCallWhen(g: Engine, item: Item, logAware: seq<Monitor>, front: seq<Monitor>, m: Monitor, i: nat)
    requires Evaluate(g, item, logAware, front).Ok? && Evaluate(g, item, logAware, front + [m]).Ok?
    requires |Evaluate(g, item, logAware, front).value| <= i < |Evaluate(g, item, logAware, front + [m]).value|
    ensures Evaluate(g, item, logAware, front + [m]).value[i].decodedCall ==
      CallShown(g, item, CallSeen(g, item, logAware) || CallLeftOver(g, item, logAware, front + [m]))
  {
    var p := AfterLogs(g, item, logAware).value;
    assert (front + [m])[..|front|] == front;
    AfterLogsMeans(g, item, logAware, front + [m]);
    TxPassCalledWhen(g, item, front + [m], p);
    ExpectShows(g, item, m, TxData(g, item), TxPass(g, item, front, p).value.called || m.caps.call);
  }

  const ANY_TX_MATCHES := Engine(
    (k: MatchKey) => MatchId(k), (l: Log) => None, (l: Log) => None, (t: Transaction) => Some("call"),
    (t: Transaction, r: Option<Receipt>) => "", (t: Transaction, r: Option<Receipt>) => "",
    (c: DecodedCall) => c, (j: Json) => "", (s: string, scope: Scope) => (Ok(true), scope))

  const TX_MONITOR := Monitor(1, "", [""], Capabilities(true, false, false), "", {})
  const CALL_MONITOR := Monitor(2, "", [""], Capabilities(false, false, true), "", {})

  lemma OneTxMatch(item: Item, m: Monitor, p: Progress)
    requires |m.actions| == 1 && m.id !in p.matched
    ensures var called := p.called || m.caps.call;
      TxStep(ANY_TX_MATCHES, item, m, p) == Ok(p.(called := called, found := p.found +
        [MatchFor(ANY_TX_MATCHES, item, m, m.actions[0], TxData(ANY_TX_MATCHES, item),
                  CallShown(ANY_TX_MATCHES, item, called))]))
  {
    var called, data := p.called || m.caps.call, TxData(ANY_TX_MATCHES, item);
    var call := CallShown(ANY_TX_MATCHES, item, called);
    PerActionAt(ANY_TX_MATCHES, item, m, m.actions, 0, data, call);
    assert Expect(ANY_TX_MATCHES, item, m, data, called) == [MatchFor(ANY_TX_MATCHES, item, m, m.actions[0], data, call)];
    assert TxVerdict(ANY_TX_MATCHES, item, m) == Ok(true);
  }

  /** Two monitors over a log-less item that both match it: who shows the call depends on who comes first. */
  lemma TwoTxMatches(item: Item, a: Monitor, b: Monitor)
    requires item.logs == [] && |a.actions| == |b.actions| == 1
    ensures var r := Evaluate(ANY_TX_MATCHES, item, [], [a, b]);
      && r.Ok? && |r.value| == 2 && r.value[0].monitorId == a.id && r.value[1].monitorId == b.id
      && r.value[0].decodedCall == CallShown(ANY_TX_MATCHES, item, a.caps.call)
      && r.value[1].decodedCall == CallShown(ANY_TX_MATCHES, item, a.caps.call || b.caps.call)
  {
    assert [a, b][..1] == [a] && [a][..0] == [];
    OneTxMatch(item, a, START);
    var p := TxStep(ANY_TX_MATCHES, item, a, START).value;
    OneTxMatch(item, b, p);
    assert TxPass(ANY_TX_MATCHES, item, [a], START) == Ok(p);
    assert TxPass(ANY_TX_MATCHES, item, [a, b], START) == TxStep(ANY_TX_MATCHES, item, b, p);
  }

  /** So one monitor's match can differ with nothing but the monitor's place in the list. */
  lemma ListingOrderDecidesTheCall(item: Item)
    requires item.logs == []
    ensures var r := Evaluate(ANY_TX_MATCHES, item, [], [TX_MONITOR, CALL_MONITOR]);
      r.Ok? && |r.value| == 2 && r.value[0].monitorId == 1 && r.value[0].decodedCall == None
    ensures var r := Evaluate(ANY_TX_MATCHES, item, [], [CALL_MONITOR, TX_MONITOR]);
      r.Ok? && |r.value| == 2 && r.value[1].monitorId == 1 && r.value[1].decodedCall == Some("call")
  {
    TwoTxMatches(item, TX_MONITOR, CALL_MONITOR);
    TwoTxMatches(item, CALL_MONITOR, TX_MONITOR);
  }

  // --------------------------------------------- the condition is necessary

  const ANY_LOG_MATCHES := Engine(
    (k: MatchKey) => MatchId(k), (l: Log) => None, (l: Log) => Some(("", "")), (t: Transaction) => None,
    (t: Transaction, r: Option<Receipt>) => "", (t: Transaction, r: Option<Receipt>) => "",
    (c: DecodedCall) => "", (j: Json) => "", (s: string, scope: Scope) => (Ok(true), scope))

  const LOG_MONITOR := Monitor(1, "", [""], Capabilities(false, true, false), "", {})

  /** One match per log, under the id of its effective index. */
  predicate FoundPerLog(g: Engine, item: Item, logs: seq<Log>, found: seq<MonitorMatch>) {
    |found| == |logs| && forall k :: 0 <= k < |logs| ==>
      found[k].id == g.formatId(LogKey(1, "", item.tx.hash, IndexOf(logs[k])))
  }

  ghost predicate MatchesEveryLog(g: Engine, item: Item) {
    forall l :: LogVerdict(g, item, LOG_MONITOR, l) == Ok(true) && Visible(g, LOG_MONITOR, l).Some?
  }

  lemma OneMoreFound(g: Engine, item: Item, l: Log, p: Progress)
    requires LogVerdict(g, item, LOG_MONITOR, l) == Ok(true) && Visible(g, LOG_MONITOR, l).Some?
    ensures var r := LogStep(g, item, LOG_MONITOR, l, p);
      && r.Ok? && |r.value.found| == |p.found| + 1 && p.found <= r.value.found
      && r.value.found[|p.found|].id == g.formatId(LogKey(1, "", item.tx.hash, IndexOf(l)))
  {
    var d := LogData(g, item, Visible(g, LOG_MONITOR, l).value);
    PerActionAt(g, item, LOG_MONITOR, LOG_MONITOR.actions, 0, d, CallShown(g, item, p.called));
  }

  lemma {:induction false} EveryLogIsFound(g: Engine, item: Item, logs: seq<Log>)
    requires MatchesEveryLog(g, item)
    ensures var r := MonitorOverLogs(g, item, LOG_MONITOR, logs, START);
      r.Ok? && FoundPerLog(g, item, logs, r.value.found)
  {
    if logs != [] {
      var front, l := logs[..|logs| - 1], logs[|logs| - 1];
      EveryLogIsFound(g, item, front);
      assert LogVerdict(g, item, LOG_MONITOR, l) == Ok(true);
      OneMoreFound(g, item, l, MonitorOverLogs(g, item, LOG_MONITOR, front, START).value);
    }
  }

  /**
   The id is not unique beyond that: whenever two logs of an item share an effective
   index (for instance, both lack one and count as 0), some monitor matches both
   under one id.
   */
  lemma SharedIndexCollides(item: Item, i: nat, j: nat) returns (found: seq<MonitorMatch>)
    requires i < j < |item.logs| && IndexOf(item.logs[i]) == IndexOf(item.logs[j])
    ensures Evaluate(ANY_LOG_MATCHES, item, [LOG_MONITOR], []) == Ok(found)
    ensures UsesMatchIds(ANY_LOG_MATCHES) && RespectsConstants(ANY_LOG_MATCHES) && ProperMonitors([LOG_MONITOR])
    ensures |found| == |item.logs| && found[i].id == found[j].id
  {
    assert MatchesEveryLog(ANY_LOG_MATCHES, item);
    EveryLogIsFound(ANY_LOG_MATCHES, item, item.logs);
    var r := MonitorOverLogs(ANY_LOG_MATCHES, item, LOG_MONITOR, item.logs, START);
    found := r.value.found;
    assert [LOG_MONITOR][..0] == [];
    assert LogPass(ANY_LOG_MATCHES, item, [LOG_MONITOR]) == r;
  }
}
