/**
 What scripts see and what their matches say, told from outside: by engines whose
 scripts ask for one binding, and by the fields of the matches that come out.
 */
module ScriptViews {
  import opened Prelude
  import opened MatchIds
  import opened Payloads
  import opened ChainData
  import opened EvaluationSpec
  import opened EvaluationLaws
  import opened EvaluationParts

  /** The value a script finds under a name: that of the latest binding. */
  function Bound(scope: Scope, name: string): Option<Value> {
    if scope == [] then None
    else if scope[|scope| - 1].name == name then Some(scope[|scope| - 1].value)
    else Bound(scope[..|scope| - 1], name)
  }

  /** Every script of this engine asks whether `name` is bound to `v`. */
  ghost predicate Asks(g: Engine, name: string, v: Value) {
    forall script, scope: Scope :: g.run(script, scope).0 == Ok(Bound(scope, name) == Some(v))
  }

  lemma BoundOfThree(a: Binding, b: Binding, c: Binding, name: string)
    ensures Bound([a, b, c], name) ==
      if c.name == name then Some(c.value) else if b.name == name then Some(b.value)
      else if a.name == name then Some(a.value) else None
  {
    assert [a, b, c][..2] == [a, b] && [a, b][..1] == [a] && [a][..0] == [];
    assert Bound([a], name) == if a.name == name then Some(a.value) else None;
    assert Bound([a, b], name) == if b.name == name then Some(b.value) else Bound([a], name);
  }

  // ------------------------------------------------------------ on a transaction

  /** What a monitor finds under `name` when it is evaluated on the transaction. */
  predicate TxFinds(g: Engine, item: Item, m: Monitor, name: string, v: Value) {
    || (name == "tx" && v == TxValue(g.txMap(item.tx, item.receipt)))
    || (name == "log" && v == LogValue(None))
    || (name == "decoded_call" && m.caps.call && v == CallValue(g.decodeCall(item.tx)))
    || (name == "decoded_call" && !m.caps.call && v == CallValue(None))
  }

  /**
   On an item without logs a script finds the transaction under `tx`, no log under
   `log`, and under `decoded_call` the decoded call, if its monitor has the capability.
   */
  lemma TxScriptFinds(g: Engine, item: Item, m: Monitor, name: string, v: Value)
    requires Asks(g, name, v) && item.logs == [] && m.actions != []
    ensures var r := Evaluate(g, item, [], [m]);
      r.Ok? && (r.value != [] <==> TxFinds(g, item, m, name, v))
  {
    TxVerdictIs(g, item, m, name, v);
    LoneTxMonitor(g, item, m);
  }

  lemma TxVerdictIs(g: Engine, item: Item, m: Monitor, name: string, v: Value)
    requires Asks(g, name, v)
    ensures TxVerdict(g, item, m) == Ok(TxFinds(g, item, m, name, v))
  {
    var scope := TxScope(g, item, m);
    BoundOfThree(scope[0], scope[1], scope[2], name);
    assert scope == [scope[0], scope[1], scope[2]];
    assert g.run(m.script, scope).0 == Ok(Bound(scope, name) == Some(v));
  }

  lemma LoneTxMonitor(g: Engine, item: Item, m: Monitor)
    requires item.logs == [] && m.actions != [] && TxVerdict(g, item, m).Ok?
    ensures Evaluate(g, item, [], [m]).Ok?
    ensures Evaluate(g, item, [], [m]).value != [] <==> TxVerdict(g, item, m) == Ok(true)
  {
    assert [m][..0] == [];
    assert TxPass(g, item, [m], START) == TxStep(g, item, m, START);
  }

  // -------------------------------------------------------------------- on a log

  /** The log gets past the name filter of the monitor and decodes. */
  predicate Reaches(g: Engine, m: Monitor, l: Log) {
    && (m.eventNames == {} || (g.peekEventName(l).Some? && g.peekEventName(l).value in m.eventNames))
    && g.decodeLog(l).Some?
  }

  predicate LogFinds(g: Engine, item: Item, m: Monitor, l: Log, name: string, v: Value)
    requires Reaches(g, m, l)
  {
    var (event, params) := g.decodeLog(l).value;
    || (name == "tx" && v == TxValue(g.txMap(item.tx, item.receipt)))
    || (name == "log" && v == LogValue(Some(DecodedLog(event, params, l))))
    || (name == "decoded_call" && m.caps.call && v == CallValue(g.decodeCall(item.tx)))
    || (name == "decoded_call" && !m.caps.call && v == CallValue(None))
  }

  /** Some log of the item reaches the monitor and answers its script's question. */
  predicate SomeLogFinds(g: Engine, item: Item, m: Monitor, name: string, v: Value) {
    exists l :: l in item.logs && Reaches(g, m, l) && LogFinds(g, item, m, l, name, v)
  }

  /**
   Evaluated on logs, a script finds the transaction under `tx`, under `log` the decoded
   log at hand, and under `decoded_call` the decoded call, if its monitor has the
   capability; a log that is filtered out or does not decode is not shown to it.
   */
  lemma LogScriptFinds(g: Engine, item: Item, m: Monitor, name: string, v: Value)
    requires Asks(g, name, v) && m.actions != []
    ensures var r := Evaluate(g, item, [m], []);
      r.Ok? && (r.value != [] <==> SomeLogFinds(g, item, m, name, v))
  {
    forall l ensures LogVerdict(g, item, m, l).Ok? {
      LogVerdictIs(g, item, m, l, name, v);
    }
    HitsWhen(g, item, m, name, v);
    LoneLogMonitor(g, item, m);
  }

  lemma LogVerdictIs(g: Engine, item: Item, m: Monitor, l: Log, name: string, v: Value)
    requires Asks(g, name, v)
    ensures LogVerdict(g, item, m, l) == Ok(Reaches(g, m, l) && LogFinds(g, item, m, l, name, v))
  {
    if Visible(g, m, l).Some? {
      var scope := LogScope(g, item, m, Visible(g, m, l).value);
      BoundOfThree(scope[0], scope[1], scope[2], name);
      assert scope == [scope[0], scope[1], scope[2]];
      assert g.run(m.script, scope).0 == Ok(Bound(scope, name) == Some(v));
    }
  }

  lemma HitsWhen(g: Engine, item: Item, m: Monitor, name: string, v: Value)
    requires Asks(g, name, v)
    ensures HitsSome(g, item, m, item.logs) <==> SomeLogFinds(g, item, m, name, v)
  {
    forall l ensures LogVerdict(g, item, m, l) == Ok(Reaches(g, m, l) && LogFinds(g, item, m, l, name, v)) {
      LogVerdictIs(g, item, m, l, name, v);
    }
  }

  lemma {:induction false} FindsWhenHit(g: Engine, item: Item, m: Monitor, logs: seq<Log>)
    requires m.actions != []
    ensures LogMatchesOf(g, item, m, logs) != [] <==> HitsSome(g, item, m, logs)
  {
    if logs != [] {
      FindsWhenHit(g, item, m, logs[..|logs| - 1]);
      assert forall l :: l in logs <==> l in logs[..|logs| - 1] || l == logs[|logs| - 1];
    }
  }

  lemma LoneLogMonitor(g: Engine, item: Item, m: Monitor)
    requires m.actions != [] && forall l :: l in item.logs ==> LogVerdict(g, item, m, l).Ok?
    ensures Evaluate(g, item, [m], []).Ok?
    ensures Evaluate(g, item, [m], []).value != [] <==> HitsSome(g, item, m, item.logs)
  {
    EvaluationIsItsParts(g, item, [m], []);
    FindsWhenHit(g, item, m, item.logs);
    assert [m][..0] == [];
    assert FirstPassOf(g, item, [m]) == [] + LogMatchesOf(g, item, m, item.logs);
  }

  // ----------------------------------------------------------- what matches say

  /** The match names the monitor, one of its actions, and the transaction with its block. */
  predicate NamesSource(item: Item, m: Monitor, x: MonitorMatch) {
    && x.monitorId == m.id && x.monitorName == m.name && x.actionName in m.actions
    && x.txHash == item.tx.hash
    && x.blockNumber == (if item.tx.blockNumber.Some? then item.tx.blockNumber.value else 0)
  }

  /** It tells of this log as it decodes, and of the transaction. */
  predicate TellsOfLog(g: Engine, item: Item, l: Log, x: MonitorMatch) {
    g.decodeLog(l).Some?
    && var (event, params) := g.decodeLog(l).value;
       x.data == LogMatch(l.address, if l.logIndex.Some? then l.logIndex.value else 0, event, g.logPayload(params),
                            g.txDetails(item.tx, item.receipt))
  }

  predicate FromLog(g: Engine, item: Item, m: Monitor, l: Log, x: MonitorMatch) {
    l in item.logs && LogVerdict(g, item, m, l) == Ok(true) && NamesSource(item, m, x) && TellsOfLog(g, item, l, x)
  }

  predicate FromTx(g: Engine, item: Item, m: Monitor, x: MonitorMatch) {
    TxVerdict(g, item, m) == Ok(true) && NamesSource(item, m, x) && x.data == TxMatch(g.txDetails(item.tx, item.receipt))
  }

  lemma PerActionSays(g: Engine, item: Item, m: Monitor, data: MatchData, x: MonitorMatch)
    requires x in PerAction(g, item, m, m.actions, data, None)
    ensures NamesSource(item, m, x) && x.data == data
  {
    var r := PerAction(g, item, m, m.actions, data, None);
    var i :| 0 <= i < |r| && r[i] == x;
    PerActionAt(g, item, m, m.actions, i, data, None);
  }

  lemma {:induction false} LogMatchesSay(g: Engine, item: Item, m: Monitor, logs: seq<Log>, x: MonitorMatch)
    requires x in LogMatchesOf(g, item, m, logs) && forall l :: l in logs ==> l in item.logs
    ensures exists l :: FromLog(g, item, m, l, x)
  {
    var front, l := logs[..|logs| - 1], logs[|logs| - 1];
    if x in LogMatchesOf(g, item, m, front) {
      LogMatchesSay(g, item, m, front, x);
    } else {
      PerActionSays(g, item, m, LogData(g, item, Visible(g, m, l).value), x);
      assert FromLog(g, item, m, l, x);
    }
  }

  lemma {:induction false} FirstPassSays(g: Engine, item: Item, ms: seq<Monitor>, x: MonitorMatch)
    requires x in FirstPassOf(g, item, ms)
    ensures exists m, l :: m in ms && FromLog(g, item, m, l, x)
  {
    var front, m := ms[..|ms| - 1], ms[|ms| - 1];
    if x in FirstPassOf(g, item, front) {
      FirstPassSays(g, item, front, x);
    } else {
      LogMatchesSay(g, item, m, item.logs, x);
      assert m in ms;
    }
  }

  lemma {:induction false} SecondPassSays(g: Engine, item: Item, skipped: set<int>, ms: seq<Monitor>, x: MonitorMatch)
    requires x in SecondPassOf(g, item, skipped, ms)
    ensures exists m :: m in ms && m.id !in skipped && FromTx(g, item, m, x)
  {
    var front, m := ms[..|ms| - 1], ms[|ms| - 1];
    if x in SecondPassOf(g, item, skipped, front) {
      SecondPassSays(g, item, skipped, front, x);
    } else {
      PerActionSays(g, item, m, TxData(g, item), x);
      assert m in ms && m.id !in skipped && FromTx(g, item, m, x);
    }
  }

  lemma {:induction false} BareSays(found: seq<MonitorMatch>, i: nat)
    requires i < |found|
    ensures Bare(found)[i] == found[i].(decodedCall := None)
  {
    if i < |found| - 1 {
      BareSays(found[..|found| - 1], i);
    }
  }

  /**
   Every match tells the truth: some monitor's script was true, on a log of the item or,
   if its monitor matched no log, on the transaction; and the match has exactly the
   fields of that monitor, that log as it decodes, and that transaction.
   */
  lemma MatchesTellTheTruth(g: Engine, item: Item, logAware: seq<Monitor>, txAware: seq<Monitor>, i: nat)
    requires Evaluate(g, item, logAware, txAware).Ok? && i < |Evaluate(g, item, logAware, txAware).value|
    ensures var x := Evaluate(g, item, logAware, txAware).value[i];
      || (exists m, l :: m in logAware && FromLog(g, item, m, l, x))
      || (exists m :: m in txAware && !MatchesALog(g, item, logAware, m.id) && FromTx(g, item, m, x))
  {
    EvaluationIsItsParts(g, item, logAware, txAware);
    var found := Evaluate(g, item, logAware, txAware).value;
    BareSays(found, i);
    var bare := Bare(found)[i];
    var skipped := MatchedIds(g, item, logAware);
    assert Bare(found)[i] in FirstPassOf(g, item, logAware) + SecondPassOf(g, item, skipped, txAware);
    if bare in FirstPassOf(g, item, logAware) {
      FirstPassSays(g, item, logAware, bare);
      var m, l :| m in logAware && FromLog(g, item, m, l, bare);
      assert FromLog(g, item, m, l, found[i]);
    } else {
      SecondPassSays(g, item, skipped, txAware, bare);
      var m :| m in txAware && m.id !in skipped && FromTx(g, item, m, bare);
      assert FromTx(g, item, m, found[i]);
    }
  }

  // ------------------------------------------------------------- and all of it

  lemma {:induction false} LogMatchesAll(g: Engine, item: Item, m: Monitor, logs: seq<Log>, l: Log, action: string)
    requires l in logs && LogVerdict(g, item, m, l) == Ok(true) && action in m.actions
    ensures exists x :: x in LogMatchesOf(g, item, m, logs) && x.actionName == action && TellsOfLog(g, item, l, x)
  {
    var front, last := logs[..|logs| - 1], logs[|logs| - 1];
    if last == l {
      var data := LogData(g, item, Visible(g, m, l).value);
      var j :| 0 <= j < |m.actions| && m.actions[j] == action;
      PerActionAt(g, item, m, m.actions, j, data, None);
      var x := PerAction(g, item, m, m.actions, data, None)[j];
      assert x in LogMatchesOf(g, item, m, logs) && TellsOfLog(g, item, l, x);
    } else {
      LogMatchesAll(g, item, m, front, l, action);
    }
  }

  lemma {:induction false} FirstPassAll(g: Engine, item: Item, ms: seq<Monitor>, m: Monitor, x: MonitorMatch)
    requires m in ms && x in LogMatchesOf(g, item, m, item.logs)
    ensures x in FirstPassOf(g, item, ms)
  {
    if ms[|ms| - 1] != m {
      FirstPassAll(g, item, ms[..|ms| - 1], m, x);
    }
  }

  /** Nothing is left out: a script that is true on a log yields a match for each action of its monitor. */
  lemma EveryTrueLogIsTold(
    g: Engine, item: Item, logAware: seq<Monitor>, txAware: seq<Monitor>, m: Monitor, l: Log, action: string)
    returns (i: nat)
    requires Evaluate(g, item, logAware, txAware).Ok?
    requires m in logAware && l in item.logs && LogVerdict(g, item, m, l) == Ok(true) && action in m.actions
    ensures i < |Evaluate(g, item, logAware, txAware).value|
    ensures var x := Evaluate(g, item, logAware, txAware).value[i];
      x.actionName == action && x.monitorId == m.id && TellsOfLog(g, item, l, x)
  {
    EvaluationIsItsParts(g, item, logAware, txAware);
    var found := Evaluate(g, item, logAware, txAware).value;
    LogMatchesAll(g, item, m, item.logs, l, action);
    var x :| x in LogMatchesOf(g, item, m, item.logs) && x.actionName == action && TellsOfLog(g, item, l, x);
    LogMatchesOwned(g, item, m, item.logs);
    FirstPassAll(g, item, logAware, m, x);
    assert x in Bare(found);
    i :| 0 <= i < |found| && Bare(found)[i] == x;
    BareSays(found, i);
  }
}
