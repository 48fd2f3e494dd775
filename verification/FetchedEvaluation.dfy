/**
 What narrowing the fetched logs does to evaluation: monitors are evaluated on every
 log of a transaction, but only logs that interest the registry are ever fetched.
 */
module FetchedEvaluation {
  import opened Prelude
  import opened MatchIds
  import opened Payloads
  import opened ChainData
  import opened EvaluationSpec
  import opened InterestRegistries

  /** The logs one monitor asks for. */
  predicate Wants(ask: Ask, l: Log) {
    match ask
    case Nothing => false
    case Global(sigs) => Topic0(l).Some? && Topic0(l).value in sigs
    case Broad(a) => l.address == a
    case Precise(a, sigs) => l.address == a && Topic0(l).Some? && Topic0(l).value in sigs
  }

  /** A global request is served iff every address in precise mode lists all its signatures too. */
  predicate Served(abis: AbiService, ms: set<MonitorInterest>, ask: Ask) {
    ask.Global? ==>
      forall a :: a in Mentioned(abis, ms) && a !in BroadAt(abis, ms) ==> ask.sigs <= SigsAt(abis, ms, a)
  }

  ghost predicate Fetches(r: Registry, ask: Ask) {
    forall l :: Wants(ask, l) ==> IsLogInteresting(r, l)
  }

  lemma InterestIs(abis: AbiService, s: set<MonitorInterest>, l: Log)
    ensures IsLogInteresting(Meaning(abis, s), l) <==>
      if l.address in BroadAt(abis, s) then true
      else if l.address in Mentioned(abis, s) then Topic0(l).Some? && Topic0(l).value in SigsAt(abis, s, l.address)
      else Topic0(l).Some? && Topic0(l).value in GlobalSigs(abis, s)
  {
    assert l.address in BroadAt(abis, s) ==> l.address in Mentioned(abis, s);
  }

  lemma OwnLogsAreWanted(abis: AbiService, s: set<MonitorInterest>, m: MonitorInterest, l: Log)
    requires m in s && Served(abis, s, AskOf(abis, m)) && Wants(AskOf(abis, m), l)
    ensures IsLogInteresting(Meaning(abis, s), l)
  {
    InterestIs(abis, s, l);
    match AskOf(abis, m)
    case Broad(a) => assert a in BroadAt(abis, s);
    case Precise(a, sigs) => assert a in Mentioned(abis, s) && Topic0(l).value in SigsAt(abis, s, a);
    case Global(sigs) => assert Topic0(l).value in GlobalSigs(abis, s);
    case Nothing =>
  }

  /** The registry fetches all a monitor asks for exactly when its request is served. */
  lemma AskIsFetchedWhen(abis: AbiService, ms: seq<MonitorInterest>, m: MonitorInterest)
    requires m in ms
    ensures Fetches(InterestRegistries.Build(EMPTY, abis, ms), AskOf(abis, m)) <==> Served(abis, Elements(ms), AskOf(abis, m))
  {
    var r, s, ask := InterestRegistries.Build(EMPTY, abis, ms), Elements(ms), AskOf(abis, m);
    BuildGivesMeaning(abis, ms);
    if Served(abis, s, ask) {
      forall l | Wants(ask, l) ensures IsLogInteresting(r, l) {
        OwnLogsAreWanted(abis, s, m, l);
      }
    } else {
      var a :| a in Mentioned(abis, s) && a !in BroadAt(abis, s) && !(ask.sigs <= SigsAt(abis, s, a));
      var t :| t in ask.sigs && t !in SigsAt(abis, s, a);
      var l := Log(a, [t], "", None, None, None);
      InterestIs(abis, s, l);
      assert Wants(ask, l) && !IsLogInteresting(r, l);
    }
  }

  // ---------------------------------------------- what it means for matches

  /** The matches and the matched monitors, or the error; what a pass can tell the next of calldata is left out. */
  function Outcome(r: Result<Progress, EvalError>): Result<(seq<MonitorMatch>, set<int>), EvalError> {
    match r
    case Ok(p) => Ok((p.found, p.matched))
    case Err(e) => Err(e)
  }

  function OnLogs(g: Engine, item: Item, m: Monitor, logs: seq<Log>): Result<Progress, EvalError> {
    MonitorOverLogs(g, item, m, logs, START)
  }

  lemma {:induction false} InterestingSnoc(r: Registry, logs: seq<Log>, l: Log)
    ensures Interesting(r, logs + [l]) == Interesting(r, logs) + if IsLogInteresting(r, l) then [l] else []
  {
    if logs == [] {
      assert logs + [l] == [l] && [l][1..] == [];
    } else {
      assert (logs + [l])[1..] == logs[1..] + [l];
      InterestingSnoc(r, logs[1..], l);
    }
  }

  /** Equal but for what it says of calldata, which only the monitor's own capability can have set. */
  predicate Alike(m: Monitor, a: Result<Progress, EvalError>, b: Result<Progress, EvalError>) {
    && Outcome(a) == Outcome(b)
    && (a.Ok? && a.value.called ==> m.caps.call) && (b.Ok? && b.value.called ==> m.caps.call)
  }

  lemma StepsAlike(g: Engine, item: Item, m: Monitor, l: Log, p: Progress, q: Progress)
    requires Alike(m, Ok(p), Ok(q))
    ensures Alike(m, LogStep(g, item, m, l, p), LogStep(g, item, m, l, q))
    ensures LogVerdict(g, item, m, l) == Ok(false) ==> Alike(m, LogStep(g, item, m, l, p), Ok(q))
  {
  }

  /** Hiding logs on which a monitor is false changes none of its matches, and no error. */
  lemma {:induction false} HidingFalseLogs(g: Engine, item: Item, m: Monitor, r: Registry, logs: seq<Log>)
    requires forall l :: l in logs && !IsLogInteresting(r, l) ==> LogVerdict(g, item, m, l) == Ok(false)
    ensures Alike(m, OnLogs(g, item, m, logs), OnLogs(g, item, m, Interesting(r, logs)))
  {
    if logs != [] {
      var front, l := logs[..|logs| - 1], logs[|logs| - 1];
      HidingFalseLogs(g, item, m, r, front);
      InterestingSnoc(r, front, l);
      assert logs == front + [l];
      var kept := Interesting(r, front);
      assert (kept + [l])[..|kept|] == kept && kept + [] == kept;
      var a, b := OnLogs(g, item, m, front), OnLogs(g, item, m, kept);
      if a.Ok? {
        StepsAlike(g, item, m, l, a.value, b.value);
      }
    }
  }

  /** The monitor's script is false on every log the monitor does not ask for. */
  ghost predicate Scoped(g: Engine, item: Item, m: Monitor, ask: Ask) {
    forall l :: !Wants(ask, l) ==> LogVerdict(g, item, m, l) == Ok(false)
  }

  /** Whatever its script does with the logs it asks for, the monitor matches what it would match on all logs. */
  ghost predicate LosesNothing(r: Registry, m: Monitor, ask: Ask) {
    forall g: Engine, item: Item, logs: seq<Log> ::
      RespectsConstants(g) && Scoped(g, item, m, ask) ==>
        Outcome(OnLogs(g, item, m, Interesting(r, logs))) == Outcome(OnLogs(g, item, m, logs))
  }

  /** Decodes every log and is true on exactly those in `hits`. */
  function HitsOnly(hits: Log -> bool, event: Option<string>): Engine {
    Engine((k: MatchKey) => MatchId(k), (l: Log) => event, (l: Log) => Some(("", "")), (t: Transaction) => None,
           (t: Transaction, r: Option<Receipt>) => "", (t: Transaction, r: Option<Receipt>) => "",
           (c: DecodedCall) => "", (j: Json) => "",
           (s: string, scope: Scope) =>
             (Ok(|scope| > 2 && scope[2].value.LogValue? && scope[2].value.log.Some? && hits(scope[2].value.log.value.log)),
              scope))
  }

  lemma HitsOnlyIsTrueOn(hits: Log -> bool, event: Option<string>, item: Item, m: Monitor, l: Log)
    requires m.eventNames == {} || (event.Some? && event.value in m.eventNames)
    ensures LogVerdict(HitsOnly(hits, event), item, m, l) == Ok(hits(l))
    ensures Visible(HitsOnly(hits, event), m, l).Some?
  {
  }

  const ANY_TX := Transaction(seq(64, _ => 0), None, None, "")

  /**
   The registry is shared, so other monitors decide whether one gets its logs: it is
   sure to match all it should exactly when its request is served.
   */
  lemma FetchServesMonitorWhen(abis: AbiService, ms: seq<MonitorInterest>, asking: MonitorInterest, m: Monitor)
    requires asking in ms
    ensures LosesNothing(InterestRegistries.Build(EMPTY, abis, ms), m, AskOf(abis, asking)) <==>
      Served(abis, Elements(ms), AskOf(abis, asking))
  {
    var r, ask := InterestRegistries.Build(EMPTY, abis, ms), AskOf(abis, asking);
    AskIsFetchedWhen(abis, ms, asking);
    if Fetches(r, ask) {
      forall g: Engine, item: Item, logs: seq<Log> | RespectsConstants(g) && Scoped(g, item, m, ask)
        ensures Outcome(OnLogs(g, item, m, Interesting(r, logs))) == Outcome(OnLogs(g, item, m, logs))
      {
        HidingFalseLogs(g, item, m, r, logs);
      }
    } else {
      var l :| Wants(ask, l) && !IsLogInteresting(r, l);
      HiddenLogIsMissed(r, m, ask, l);
    }
  }

  lemma OneLogMatched(g: Engine, item: Item, m: Monitor, l: Log)
    requires LogVerdict(g, item, m, l) == Ok(true)
    ensures OnLogs(g, item, m, [l]).Ok? && OnLogs(g, item, m, [l]).value.matched == {m.id}
    ensures Outcome(OnLogs(g, item, m, [l])) != Outcome(OnLogs(g, item, m, []))
  {
    assert [l][..0] == [];
    assert OnLogs(g, item, m, []) == Ok(START);
    assert OnLogs(g, item, m, [l]) == LogStep(g, item, m, l, START);
  }

  /** An engine on which `m` is true exactly on `hits`. */
  lemma SomeEngineHits(hits: Log -> bool, item: Item, m: Monitor) returns (g: Engine)
    ensures RespectsConstants(g) && forall l :: LogVerdict(g, item, m, l) == Ok(hits(l))
  {
    var event := None;
    if m.eventNames != {} {
      var name :| name in m.eventNames;
      event := Some(name);
    }
    g := HitsOnly(hits, event);
    forall l ensures LogVerdict(g, item, m, l) == Ok(hits(l)) {
      HitsOnlyIsTrueOn(hits, event, item, m, l);
    }
  }

  lemma HiddenLogIsMissed(r: Registry, m: Monitor, ask: Ask, l: Log)
    requires Wants(ask, l) && !IsLogInteresting(r, l)
    ensures !LosesNothing(r, m, ask)
  {
    var item := Item(ANY_TX, [l], None);
    var g := SomeEngineHits((x: Log) => Wants(ask, x), item, m);
    OneLogMatched(g, item, m, l);
    InterestingSnoc(r, [], l);
    assert [] + [l] == [l] && Interesting(r, [l]) == [];
    assert RespectsConstants(g) && Scoped(g, item, m, ask);
  }

  // -------------------------------------------------- other monitors' requests

  /** Whatever the script does, the monitor matches the same on what the two registries fetch. */
  ghost predicate SameOutcomes(r: Registry, r': Registry, m: Monitor) {
    forall g: Engine, item: Item, logs: seq<Log> ::
      RespectsConstants(g) ==>
        Outcome(OnLogs(g, item, m, Interesting(r, logs))) == Outcome(OnLogs(g, item, m, Interesting(r', logs)))
  }

  /** They fetch the same logs. */
  ghost predicate SameInterest(r: Registry, r': Registry) {
    forall l :: IsLogInteresting(r, l) <==> IsLogInteresting(r', l)
  }

  lemma {:induction false} SameInterestSameLogs(r: Registry, r': Registry, logs: seq<Log>)
    requires SameInterest(r, r')
    ensures Interesting(r, logs) == Interesting(r', logs)
  {
    if logs != [] {
      SameInterestSameLogs(r, r', logs[1..]);
      assert IsLogInteresting(r, logs[0]) <==> IsLogInteresting(r', logs[0]);
    }
  }

  /** The engine compares no addresses, so every log that is fetched on top can make a difference. */
  lemma OutcomesShowInterest(r: Registry, r': Registry, m: Monitor)
    ensures SameOutcomes(r, r', m) <==> SameInterest(r, r')
  {
    if SameInterest(r, r') {
      forall g: Engine, item: Item, logs: seq<Log> | RespectsConstants(g)
        ensures Outcome(OnLogs(g, item, m, Interesting(r, logs))) == Outcome(OnLogs(g, item, m, Interesting(r', logs)))
      {
        SameInterestSameLogs(r, r', logs);
      }
    } else {
      var l :| IsLogInteresting(r, l) != IsLogInteresting(r', l);
      ExtraLogShows(r, r', m, l);
    }
  }

  lemma ExtraLogShows(r: Registry, r': Registry, m: Monitor, l: Log)
    requires IsLogInteresting(r, l) != IsLogInteresting(r', l)
    ensures !SameOutcomes(r, r', m)
  {
    var item := Item(ANY_TX, [l], None);
    var g := SomeEngineHits((x: Log) => true, item, m);
    OneLogMatched(g, item, m, l);
    InterestingSnoc(r, [], l);
    InterestingSnoc(r', [], l);
    assert [] + [l] == [l] && {Interesting(r, [l]), Interesting(r', [l])} == {[l], []};
  }

  /** The signatures a request wants at an address it does not want as a whole. */
  function WantedAt(ask: Ask, a: Address): set<Topic> {
    match ask
    case Global(sigs) => sigs
    case Precise(at, sigs) => if at == a then sigs else {}
    case _ => {}
  }

  /** No other monitor asks for more: no other broad address, no other signature anywhere. */
  predicate NothingBeyond(abis: AbiService, ms: set<MonitorInterest>, ask: Ask) {
    && GlobalSigs(abis, ms) <= (if ask.Global? then ask.sigs else {})
    && (forall a :: a in BroadAt(abis, ms) ==> ask == Broad(a))
    && (forall a :: a in Mentioned(abis, ms) && ask != Broad(a) ==> SigsAt(abis, ms, a) <= WantedAt(ask, a))
  }

  /** Nothing is fetched that the request does not want. */
  ghost predicate FetchesOnly(r: Registry, ask: Ask) {
    forall l :: IsLogInteresting(r, l) ==> Wants(ask, l)
  }

  lemma {:induction false} FreshAddress(used: set<Address>) returns (a: Address)
    ensures a !in used && forall x :: x in used ==> x < a
  {
    if x :| x in used {
      var b := FreshAddress(used - {x});
      a := if x < b then b else x + 1;
      assert forall y :: y in used ==> y == x || y in used - {x};
    } else {
      a := 0;
    }
  }

  lemma NothingBeyondFetchesOnly(abis: AbiService, s: set<MonitorInterest>, ask: Ask, l: Log)
    requires NothingBeyond(abis, s, ask) && IsLogInteresting(Meaning(abis, s), l)
    ensures Wants(ask, l)
  {
    InterestIs(abis, s, l);
  }

  lemma LogAt(a: Address, t: Topic) returns (l: Log)
    ensures l.address == a && Topic0(l) == Some(t)
  {
    l := Log(a, [t], "", None, None, None);
  }

  lemma FetchesOnlyWhen(abis: AbiService, s: set<MonitorInterest>, ask: Ask)
    ensures FetchesOnly(Meaning(abis, s), ask) <==> NothingBeyond(abis, s, ask)
  {
    var r := Meaning(abis, s);
    if NothingBeyond(abis, s, ask) {
      forall l | IsLogInteresting(r, l) ensures Wants(ask, l) {
        NothingBeyondFetchesOnly(abis, s, ask, l);
      }
    }
    if FetchesOnly(r, ask) {
      NoGlobalBeyond(abis, s, ask);
      forall a | a in BroadAt(abis, s) ensures ask == Broad(a) {
        NoBroadBeyond(abis, s, ask, a);
      }
      forall a | a in Mentioned(abis, s) && ask != Broad(a) ensures SigsAt(abis, s, a) <= WantedAt(ask, a) {
        NoSignatureBeyond(abis, s, ask, a);
      }
    }
  }

  lemma NoGlobalBeyond(abis: AbiService, s: set<MonitorInterest>, ask: Ask)
    requires FetchesOnly(Meaning(abis, s), ask)
    ensures GlobalSigs(abis, s) <= (if ask.Global? then ask.sigs else {})
  {
    forall t | t in GlobalSigs(abis, s) ensures ask.Global? && t in ask.sigs {
      MentionedHoldsBroad(abis, s);
      var a := FreshAddress(Mentioned(abis, s) + if ask.Broad? || ask.Precise? then {ask.at} else {});
      var l := LogAt(a, t);
      InterestIs(abis, s, l);
      assert Wants(ask, l);
    }
  }

  lemma MentionedHoldsBroad(abis: AbiService, s: set<MonitorInterest>)
    ensures BroadAt(abis, s) <= Mentioned(abis, s)
  {
  }

  lemma NoBroadBeyond(abis: AbiService, s: set<MonitorInterest>, ask: Ask, a: Address)
    requires FetchesOnly(Meaning(abis, s), ask) && a in BroadAt(abis, s)
    ensures ask == Broad(a)
  {
    var l := Log(a, [], "", None, None, None);
    InterestIs(abis, s, l);
    assert Wants(ask, l);
  }

  lemma NoSignatureBeyond(abis: AbiService, s: set<MonitorInterest>, ask: Ask, a: Address)
    requires FetchesOnly(Meaning(abis, s), ask) && a in Mentioned(abis, s) && ask != Broad(a)
    ensures SigsAt(abis, s, a) <= WantedAt(ask, a)
  {
    if a in BroadAt(abis, s) {
      NoBroadBeyond(abis, s, ask, a);
    }
    forall t | t in SigsAt(abis, s, a) ensures t in WantedAt(ask, a) {
      var l := LogAt(a, t);
      InterestIs(abis, s, l);
      assert Wants(ask, l);
    }
  }

  /** Alone, a monitor gets exactly the logs it asks for. */
  lemma AloneFetchesItsAsk(abis: AbiService, m: MonitorInterest, l: Log)
    ensures IsLogInteresting(InterestRegistries.Build(EMPTY, abis, [m]), l) <==> Wants(AskOf(abis, m), l)
  {
    var ask := AskOf(abis, m);
    BuildGivesMeaning(abis, [m]);
    assert Elements([m]) == {m};
    AloneMeans(abis, m);
    InterestIs(abis, {m}, l);
  }

  lemma AloneMeans(abis: AbiService, m: MonitorInterest)
    ensures var ask := AskOf(abis, m);
      && Mentioned(abis, {m}) == (if ask.Broad? || ask.Precise? then {ask.at} else {})
      && BroadAt(abis, {m}) == (if ask.Broad? then {ask.at} else {})
      && GlobalSigs(abis, {m}) == (if ask.Global? then ask.sigs else {})
      && forall a :: SigsAt(abis, {m}, a) == if ask.Precise? && ask.at == a then ask.sigs else {}
  {
  }

  /**
   Independence: whatever its script does, a monitor matches with the others around
   what it would match alone, exactly when its request is served and no other monitor
   has anything fetched that it does not ask for itself.
   */
  lemma MonitorIsIndependentWhen(abis: AbiService, ms: seq<MonitorInterest>, asking: MonitorInterest, m: Monitor)
    requires asking in ms
    ensures var s, ask := Elements(ms), AskOf(abis, asking);
      SameOutcomes(InterestRegistries.Build(EMPTY, abis, ms), InterestRegistries.Build(EMPTY, abis, [asking]), m) <==>
        Served(abis, s, ask) && NothingBeyond(abis, s, ask)
  {
    var s, ask := Elements(ms), AskOf(abis, asking);
    var r, alone := InterestRegistries.Build(EMPTY, abis, ms), InterestRegistries.Build(EMPTY, abis, [asking]);
    OutcomesShowInterest(r, alone, m);
    AskIsFetchedWhen(abis, ms, asking);
    BuildGivesMeaning(abis, ms);
    FetchesOnlyWhen(abis, s, ask);
    forall l ensures IsLogInteresting(alone, l) <==> Wants(ask, l) {
      AloneFetchesItsAsk(abis, asking, l);
    }
    assert SameInterest(r, alone) <==> Fetches(r, ask) && FetchesOnly(r, ask);
  }
}
