/**
 Evaluation taken apart: but for the decoded call a match shows, the matches of an
 item are those of its monitors taken one by one, and one monitor can disturb the
 others only by failing.
 */
module EvaluationParts {
  import opened Prelude
  import opened Payloads
  import opened ChainData
  import opened EvaluationSpec
  import opened EvaluationLaws

  /** The matches without their decoded calls. */
  function Bare(found: seq<MonitorMatch>): (r: seq<MonitorMatch>)
    ensures |r| == |found|
  {
    if found == [] then [] else Bare(found[..|found| - 1]) + [found[|found| - 1].(decodedCall := None)]
  }

  lemma {:induction false} BareConcat(a: seq<MonitorMatch>, b: seq<MonitorMatch>)
    ensures Bare(a + b) == Bare(a) + Bare(b)
  {
    if b == [] {
      assert a + b == a;
    } else {
      assert (a + b)[..|a + b| - 1] == a + b[..|b| - 1];
      BareConcat(a, b[..|b| - 1]);
    }
  }

  lemma {:induction false} BarePerAction(
    g: Engine, item: Item, m: Monitor, actions: seq<string>, data: MatchData, call: Option<Json>)
    ensures Bare(PerAction(g, item, m, actions, data, call)) == PerAction(g, item, m, actions, data, None)
  {
    if actions != [] {
      var front, last := actions[..|actions| - 1], actions[|actions| - 1];
      BarePerAction(g, item, m, front, data, call);
      var one := [MatchFor(g, item, m, last, data, call)];
      BareConcat(PerAction(g, item, m, front, data, call), one);
      assert one[..0] == [] && Bare(one) == Bare([]) + [one[0].(decodedCall := None)];
    }
  }

  // ---------------------------------------------------- one monitor by itself

  /** What a monitor finds in the logs, whoever else is there. */
  function LogMatchesOf(g: Engine, item: Item, m: Monitor, logs: seq<Log>): seq<MonitorMatch> {
    if logs == [] then []
    else
      var l := logs[|logs| - 1];
      LogMatchesOf(g, item, m, logs[..|logs| - 1]) +
        if LogVerdict(g, item, m, l) == Ok(true)
        then PerAction(g, item, m, m.actions, LogData(g, item, Visible(g, m, l).value), None) else []
  }

  function TxMatchesOf(g: Engine, item: Item, m: Monitor): seq<MonitorMatch> {
    if TxVerdict(g, item, m) == Ok(true) then PerAction(g, item, m, m.actions, TxData(g, item), None) else []
  }

  predicate LogsClean(g: Engine, item: Item, m: Monitor, logs: seq<Log>) {
    forall l :: l in logs ==> LogVerdict(g, item, m, l).Ok?
  }

  lemma LogsCleanSnoc(g: Engine, item: Item, m: Monitor, logs: seq<Log>)
    requires logs != []
    ensures LogsClean(g, item, m, logs) <==>
      LogsClean(g, item, m, logs[..|logs| - 1]) && LogVerdict(g, item, m, logs[|logs| - 1]).Ok?
  {
    assert forall x :: x in logs <==> x in logs[..|logs| - 1] || x == logs[|logs| - 1];
  }

  lemma {:induction false} OverLogsIs(g: Engine, item: Item, m: Monitor, logs: seq<Log>, p: Progress)
    ensures MonitorOverLogs(g, item, m, logs, p).Ok? <==> LogsClean(g, item, m, logs)
    ensures MonitorOverLogs(g, item, m, logs, p).Ok? ==>
      Bare(MonitorOverLogs(g, item, m, logs, p).value.found) == Bare(p.found) + LogMatchesOf(g, item, m, logs)
  {
    if logs != [] {
      var front, l := logs[..|logs| - 1], logs[|logs| - 1];
      OverLogsIs(g, item, m, front, p);
      LogsCleanSnoc(g, item, m, logs);
      if MonitorOverLogs(g, item, m, front, p).Ok? {
        LogStepIs(g, item, m, l, MonitorOverLogs(g, item, m, front, p).value);
      }
    }
  }

  lemma LogStepIs(g: Engine, item: Item, m: Monitor, l: Log, p: Progress)
    ensures LogStep(g, item, m, l, p).Ok? <==> LogVerdict(g, item, m, l).Ok?
    ensures LogStep(g, item, m, l, p).Ok? ==>
      Bare(LogStep(g, item, m, l, p).value.found) == Bare(p.found) +
        if LogVerdict(g, item, m, l) == Ok(true)
        then PerAction(g, item, m, m.actions, LogData(g, item, Visible(g, m, l).value), None) else []
  {
    if LogVerdict(g, item, m, l) == Ok(true) {
      var q, data := LogStep(g, item, m, l, p).value, LogData(g, item, Visible(g, m, l).value);
      BareConcat(p.found, Expect(g, item, m, data, q.called));
      BarePerAction(g, item, m, m.actions, data, CallShown(g, item, q.called));
    }
  }

  lemma TxStepIs(g: Engine, item: Item, m: Monitor, p: Progress)
    requires m.id !in p.matched
    ensures TxStep(g, item, m, p).Ok? <==> TxVerdict(g, item, m).Ok?
    ensures TxStep(g, item, m, p).Ok? ==>
      Bare(TxStep(g, item, m, p).value.found) == Bare(p.found) + TxMatchesOf(g, item, m)
  {
    if TxVerdict(g, item, m) == Ok(true) {
      var called := p.called || m.caps.call;
      BareConcat(p.found, Expect(g, item, m, TxData(g, item), called));
      BarePerAction(g, item, m, m.actions, TxData(g, item), CallShown(g, item, called));
    }
  }

  // ------------------------------------------------------------ all together

  function FirstPassOf(g: Engine, item: Item, ms: seq<Monitor>): seq<MonitorMatch> {
    if ms == [] then []
    else FirstPassOf(g, item, ms[..|ms| - 1]) + LogMatchesOf(g, item, ms[|ms| - 1], item.logs)
  }

  /** The ids of the monitors that match a log. */
  function MatchedIds(g: Engine, item: Item, logAware: seq<Monitor>): set<int> {
    set m | m in logAware && HitsSome(g, item, m, item.logs) :: m.id
  }

  /** One monitor of the second pass, which skips those that matched a log. */
  function TxPartOf(g: Engine, item: Item, skipped: set<int>, m: Monitor): seq<MonitorMatch> {
    if m.id in skipped then [] else TxMatchesOf(g, item, m)
  }

  function SecondPassOf(g: Engine, item: Item, skipped: set<int>, ms: seq<Monitor>): seq<MonitorMatch> {
    if ms == [] then []
    else SecondPassOf(g, item, skipped, ms[..|ms| - 1]) + TxPartOf(g, item, skipped, ms[|ms| - 1])
  }

  predicate TxClean(g: Engine, item: Item, skipped: set<int>, m: Monitor) {
    m.id in skipped || TxVerdict(g, item, m).Ok?
  }

  predicate TxsClean(g: Engine, item: Item, skipped: set<int>, ms: seq<Monitor>) {
    forall m :: m in ms ==> TxClean(g, item, skipped, m)
  }

  /** No script fails on anything it is run on. */
  predicate AllClean(g: Engine, item: Item, logAware: seq<Monitor>, txAware: seq<Monitor>) {
    && (forall m :: m in logAware ==> LogsClean(g, item, m, item.logs))
    && TxsClean(g, item, MatchedIds(g, item, logAware), txAware)
  }

  lemma {:induction false} LogPassIs(g: Engine, item: Item, ms: seq<Monitor>)
    ensures LogPass(g, item, ms).Ok? <==> forall m :: m in ms ==> LogsClean(g, item, m, item.logs)
    ensures LogPass(g, item, ms).Ok? ==> Bare(LogPass(g, item, ms).value.found) == FirstPassOf(g, item, ms)
  {
    if ms != [] {
      var front, m := ms[..|ms| - 1], ms[|ms| - 1];
      LogPassIs(g, item, front);
      assert forall x :: x in ms <==> x in front || x == m;
      if LogPass(g, item, front).Ok? {
        OverLogsIs(g, item, m, item.logs, LogPass(g, item, front).value);
      }
    }
  }

  lemma TxsCleanSnoc(g: Engine, item: Item, skipped: set<int>, ms: seq<Monitor>)
    requires ms != []
    ensures TxsClean(g, item, skipped, ms) <==>
      TxsClean(g, item, skipped, ms[..|ms| - 1]) && TxClean(g, item, skipped, ms[|ms| - 1])
  {
    assert forall x :: x in ms <==> x in ms[..|ms| - 1] || x == ms[|ms| - 1];
  }

  lemma TxPartIs(g: Engine, item: Item, m: Monitor, p: Progress)
    ensures TxStep(g, item, m, p).Ok? <==> TxClean(g, item, p.matched, m)
    ensures TxStep(g, item, m, p).Ok? ==>
      Bare(TxStep(g, item, m, p).value.found) == Bare(p.found) + TxPartOf(g, item, p.matched, m)
  {
    if m.id !in p.matched {
      TxStepIs(g, item, m, p);
    }
  }

  lemma {:induction false} TxPassIs(g: Engine, item: Item, ms: seq<Monitor>, p: Progress)
    ensures TxPass(g, item, ms, p).Ok? <==> TxsClean(g, item, p.matched, ms)
    ensures TxPass(g, item, ms, p).Ok? ==>
      Bare(TxPass(g, item, ms, p).value.found) == Bare(p.found) + SecondPassOf(g, item, p.matched, ms)
  {
    if ms != [] {
      var front, m := ms[..|ms| - 1], ms[|ms| - 1];
      TxPassIs(g, item, front, p);
      TxsCleanSnoc(g, item, p.matched, ms);
      if TxPass(g, item, front, p).Ok? {
        TxPassKeepsMatched(g, item, front, p);
        TxPartIs(g, item, m, TxPass(g, item, front, p).value);
      }
    }
  }

  lemma {:induction false} NoLogsNoMatches(g: Engine, item: Item, ms: seq<Monitor>)
    requires item.logs == []
    ensures FirstPassOf(g, item, ms) == []
  {
    if ms != [] {
      NoLogsNoMatches(g, item, ms[..|ms| - 1]);
    }
  }

  /**
   Evaluation succeeds exactly when no script fails on what it is run on, and then it
   finds what the monitors find one by one: logs first, then the transaction for those
   whose id matched no log.
   */
  lemma EvaluationIsItsParts(g: Engine, item: Item, logAware: seq<Monitor>, txAware: seq<Monitor>)
    ensures Evaluate(g, item, logAware, txAware).Ok? <==> AllClean(g, item, logAware, txAware)
    ensures Evaluate(g, item, logAware, txAware).Ok? ==>
      Bare(Evaluate(g, item, logAware, txAware).value) ==
        FirstPassOf(g, item, logAware) + SecondPassOf(g, item, MatchedIds(g, item, logAware), txAware)
  {
    LogPassIs(g, item, logAware);
    if item.logs == [] {
      NoLogsNoMatches(g, item, logAware);
    }
    if AfterLogs(g, item, logAware).Ok? {
      var p := AfterLogs(g, item, logAware).value;
      MatchedAre(g, item, logAware);
      TxPassIs(g, item, txAware, p);
    }
  }

  lemma MatchedAre(g: Engine, item: Item, logAware: seq<Monitor>)
    requires AfterLogs(g, item, logAware).Ok?
    ensures AfterLogs(g, item, logAware).value.matched == MatchedIds(g, item, logAware)
  {
    if item.logs != [] {
      forall id ensures id in LogPass(g, item, logAware).value.matched <==> id in MatchedIds(g, item, logAware) {
        LogPassMatchedWhen(g, item, logAware, id);
      }
    }
  }

  // -------------------------------------------------------- one monitor more

  /** The monitors but those with this id. */
  function Drop(ms: seq<Monitor>, id: int): seq<Monitor> {
    if ms == [] then []
    else Drop(ms[..|ms| - 1], id) + if ms[|ms| - 1].id == id then [] else [ms[|ms| - 1]]
  }

  /** The matches but those of this monitor. */
  function Others(found: seq<MonitorMatch>, id: int): seq<MonitorMatch> {
    if found == [] then []
    else
      var last := found[|found| - 1];
      Others(found[..|found| - 1], id) + if last.monitorId == id then [] else [last]
  }

  lemma {:induction false} OthersConcat(a: seq<MonitorMatch>, b: seq<MonitorMatch>, id: int)
    ensures Others(a + b, id) == Others(a, id) + Others(b, id)
  {
    if b == [] {
      assert a + b == a;
    } else {
      assert (a + b)[..|a + b| - 1] == a + b[..|b| - 1];
      OthersConcat(a, b[..|b| - 1], id);
    }
  }

  lemma {:induction false} OthersOfOne(found: seq<MonitorMatch>, owner: int, id: int)
    requires forall i :: 0 <= i < |found| ==> found[i].monitorId == owner
    ensures Others(found, id) == if owner == id then [] else found
  {
    if found != [] {
      OthersOfOne(found[..|found| - 1], owner, id);
    }
  }

  lemma {:induction false} DropHolds(ms: seq<Monitor>, id: int, m: Monitor)
    ensures m in Drop(ms, id) <==> m in ms && m.id != id
  {
    if ms != [] {
      DropHolds(ms[..|ms| - 1], id, m);
      assert m in ms <==> m in ms[..|ms| - 1] || m == ms[|ms| - 1];
    }
  }

  lemma PerActionOwned(g: Engine, item: Item, m: Monitor, data: MatchData)
    ensures forall x :: x in PerAction(g, item, m, m.actions, data, None) ==> x.monitorId == m.id
  {
    var r := PerAction(g, item, m, m.actions, data, None);
    forall i | 0 <= i < |r| ensures r[i].monitorId == m.id {
      PerActionAt(g, item, m, m.actions, i, data, None);
    }
  }

  lemma {:induction false} LogMatchesOwned(g: Engine, item: Item, m: Monitor, logs: seq<Log>)
    ensures forall x :: x in LogMatchesOf(g, item, m, logs) ==> x.monitorId == m.id
  {
    if logs != [] {
      var l := logs[|logs| - 1];
      LogMatchesOwned(g, item, m, logs[..|logs| - 1]);
      if LogVerdict(g, item, m, l) == Ok(true) {
        PerActionOwned(g, item, m, LogData(g, item, Visible(g, m, l).value));
      }
    }
  }

  lemma TxMatchesOwned(g: Engine, item: Item, m: Monitor)
    ensures forall x :: x in TxMatchesOf(g, item, m) ==> x.monitorId == m.id
  {
    PerActionOwned(g, item, m, TxData(g, item));
  }

  lemma {:induction false} FirstPassWithout(g: Engine, item: Item, ms: seq<Monitor>, id: int)
    ensures FirstPassOf(g, item, Drop(ms, id)) == Others(FirstPassOf(g, item, ms), id)
  {
    if ms != [] {
      var front, m := ms[..|ms| - 1], ms[|ms| - 1];
      FirstPassWithout(g, item, front, id);
      LogMatchesOwned(g, item, m, item.logs);
      OthersConcat(FirstPassOf(g, item, front), LogMatchesOf(g, item, m, item.logs), id);
      OthersOfOne(LogMatchesOf(g, item, m, item.logs), m.id, id);
      assert m.id != id ==> Drop(ms, id)[..|Drop(front, id)|] == Drop(front, id);
      assert m.id == id ==> Drop(ms, id) == Drop(front, id);
    }
  }

  /** Whether another monitor matched a log does not depend on those left out. */
  lemma MatchedIdsWithout(g: Engine, item: Item, logAware: seq<Monitor>, id: int)
    ensures MatchedIds(g, item, Drop(logAware, id)) == MatchedIds(g, item, logAware) - {id}
  {
    forall m ensures m in Drop(logAware, id) <==> m in logAware && m.id != id {
      DropHolds(logAware, id, m);
    }
  }

  lemma TxPartWithout(g: Engine, item: Item, skipped: set<int>, m: Monitor, id: int)
    ensures Others(TxPartOf(g, item, skipped, m), id) ==
      if m.id == id then [] else TxPartOf(g, item, skipped - {id}, m)
  {
    TxMatchesOwned(g, item, m);
    OthersOfOne(TxPartOf(g, item, skipped, m), m.id, id);
  }

  lemma {:induction false} SecondPassWithout(g: Engine, item: Item, skipped: set<int>, ms: seq<Monitor>, id: int)
    ensures SecondPassOf(g, item, skipped - {id}, Drop(ms, id)) == Others(SecondPassOf(g, item, skipped, ms), id)
  {
    if ms != [] {
      var front, m := ms[..|ms| - 1], ms[|ms| - 1];
      SecondPassWithout(g, item, skipped, front, id);
      OthersConcat(SecondPassOf(g, item, skipped, front), TxPartOf(g, item, skipped, m), id);
      TxPartWithout(g, item, skipped, m, id);
      if m.id == id {
        assert Drop(ms, id) == Drop(front, id);
      } else {
        assert Drop(ms, id)[..|Drop(front, id)|] == Drop(front, id);
      }
    }
  }

  /** The monitors with this id fail on nothing they are run on. */
  predicate CleanFor(g: Engine, item: Item, logAware: seq<Monitor>, txAware: seq<Monitor>, id: int) {
    && (forall m :: m in logAware && m.id == id ==> LogsClean(g, item, m, item.logs))
    && (forall m :: m in txAware && m.id == id ==> TxClean(g, item, MatchedIds(g, item, logAware), m))
  }

  lemma CleanSplits(g: Engine, item: Item, logAware: seq<Monitor>, txAware: seq<Monitor>, id: int)
    ensures AllClean(g, item, logAware, txAware) <==>
      AllClean(g, item, Drop(logAware, id), Drop(txAware, id)) && CleanFor(g, item, logAware, txAware, id)
  {
    forall m ensures (m in Drop(logAware, id) <==> m in logAware && m.id != id)
                  && (m in Drop(txAware, id) <==> m in txAware && m.id != id) {
      DropHolds(logAware, id, m);
      DropHolds(txAware, id, m);
    }
    MatchedIdsWithout(g, item, logAware, id);
  }

  /**
   Non-interference: where evaluation succeeds without a monitor, it succeeds with it
   exactly when the monitor fails on nothing it is run on; and then every other
   monitor's matches are the same, in the same order, but for the decoded call.
   */
  lemma MonitorsDoNotInterfere(g: Engine, item: Item, logAware: seq<Monitor>, txAware: seq<Monitor>, id: int)
    requires Evaluate(g, item, Drop(logAware, id), Drop(txAware, id)).Ok?
    ensures Evaluate(g, item, logAware, txAware).Ok? <==> CleanFor(g, item, logAware, txAware, id)
    ensures Evaluate(g, item, logAware, txAware).Ok? ==>
      Others(Bare(Evaluate(g, item, logAware, txAware).value), id) ==
        Bare(Evaluate(g, item, Drop(logAware, id), Drop(txAware, id)).value)
  {
    EvaluationIsItsParts(g, item, logAware, txAware);
    EvaluationIsItsParts(g, item, Drop(logAware, id), Drop(txAware, id));
    CleanSplits(g, item, logAware, txAware, id);
    FirstPassWithout(g, item, logAware, id);
    MatchedIdsWithout(g, item, logAware, id);
    SecondPassWithout(g, item, MatchedIds(g, item, logAware), txAware, id);
    OthersConcat(FirstPassOf(g, item, logAware), SecondPassOf(g, item, MatchedIds(g, item, logAware), txAware), id);
  }

  /** And nothing a monitor does can mend an evaluation that fails without it. */
  lemma FailureSpreads(g: Engine, item: Item, logAware: seq<Monitor>, txAware: seq<Monitor>, id: int)
    requires Evaluate(g, item, Drop(logAware, id), Drop(txAware, id)).Err?
    ensures Evaluate(g, item, logAware, txAware).Err?
  {
    EvaluationIsItsParts(g, item, logAware, txAware);
    EvaluationIsItsParts(g, item, Drop(logAware, id), Drop(txAware, id));
    CleanSplits(g, item, logAware, txAware, id);
  }
}
