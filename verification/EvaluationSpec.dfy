/**
 What evaluating one item means, without any cache: every script runs in a fresh
 scope, every log and the calldata are decoded whenever they are needed.
 */
module EvaluationSpec {
  import opened Prelude
  import opened MatchIds
  import opened Payloads
  import opened ChainData

  datatype Capabilities = Capabilities(tx: bool, log: bool, call: bool)

  datatype Monitor = Monitor(
    id: int, name: string, actions: seq<string>, caps: Capabilities, script: string, eventNames: set<string>)

  type DecodedCall = string

  datatype DecodedLog = DecodedLog(name: string, params: Json, log: Log)

  // ---------------------------------------------------------- script scope

  datatype Value = TxValue(map_: Json) | CallValue(call: Option<DecodedCall>) | LogValue(log: Option<DecodedLog>)
                 | OtherValue(text: string)

  datatype Binding = Binding(name: string, value: Value, constant: bool)

  type Scope = seq<Binding>

  type EvalError = string

  /**
   Script evaluation, ABI decoding and JSON building: foreign code, arbitrary
   functions here. `formatId` is the id format, `MatchId` in the program.
   */
  datatype Engine = Engine(
    formatId: MatchKey -> string,
    peekEventName: Log -> Option<string>,
    decodeLog: Log -> Option<(string, Json)>,
    decodeCall: Transaction -> Option<DecodedCall>,
    txMap: (Transaction, Option<Receipt>) -> Json,
    txDetails: (Transaction, Option<Receipt>) -> Json,
    callJson: DecodedCall -> Json,
    logPayload: Json -> Json,
    run: (string, Scope) -> (Result<bool, EvalError>, Scope))

  /** A script may add bindings and assign variables, but it cannot remove bindings or change constants. */
  ghost predicate RespectsConstants(g: Engine) {
    forall script, scope: Scope ::
      var after := g.run(script, scope).1;
      |scope| <= |after| && forall i :: 0 <= i < |scope| && scope[i].constant ==> after[i] == scope[i]
  }

  function Decode(g: Engine, l: Log): Option<DecodedLog> {
    match g.decodeLog(l)
    case None => None
    case Some((name, params)) => Some(DecodedLog(name, params, l))
  }

  function CallFor(g: Engine, item: Item, m: Monitor): Option<DecodedCall> {
    if m.caps.call then g.decodeCall(item.tx) else None
  }

  function TxBinding(g: Engine, item: Item): Binding {
    Binding("tx", TxValue(g.txMap(item.tx, item.receipt)), true)
  }

  function LogScope(g: Engine, item: Item, m: Monitor, l: DecodedLog): Scope {
    [TxBinding(g, item), Binding("decoded_call", CallValue(CallFor(g, item, m)), true),
     Binding("log", LogValue(Some(l)), false)]
  }

  function TxScope(g: Engine, item: Item, m: Monitor): Scope {
    [TxBinding(g, item), Binding("log", LogValue(None), false),
     Binding("decoded_call", CallValue(CallFor(g, item, m)), false)]
  }

  // --------------------------------------------------------------- matches

  function CallJson(g: Engine, item: Item): Option<Json> {
    match g.decodeCall(item.tx)
    case None => None
    case Some(c) => Some(g.callJson(c))
  }

  function IndexOf(l: Log): nat {
    if l.logIndex.Some? then l.logIndex.value else 0
  }

  function BlockOf(item: Item): nat {
    if item.tx.blockNumber.Some? then item.tx.blockNumber.value else 0
  }

  function LogData(g: Engine, item: Item, l: DecodedLog): MatchData {
    LogMatch(l.log.address, IndexOf(l.log), l.name, g.logPayload(l.params), g.txDetails(item.tx, item.receipt))
  }

  function TxData(g: Engine, item: Item): MatchData {
    TxMatch(g.txDetails(item.tx, item.receipt))
  }

  function MatchFor(g: Engine, item: Item, m: Monitor, action: string, data: MatchData, call: Option<Json>): MonitorMatch {
    Build(g.formatId, m.id, m.name, action, BlockOf(item), item.tx.hash, data, call)
  }

  /** One match per action of the monitor. */
  function PerAction(g: Engine, item: Item, m: Monitor, actions: seq<string>, data: MatchData, call: Option<Json>): (r: seq<MonitorMatch>)
    ensures |r| == |actions|
  {
    if actions == [] then []
    else PerAction(g, item, m, actions[..|actions| - 1], data, call)
         + [MatchFor(g, item, m, actions[|actions| - 1], data, call)]
  }

  lemma {:induction false} PerActionAt(
    g: Engine, item: Item, m: Monitor, actions: seq<string>, i: nat, data: MatchData, call: Option<Json>)
    requires i < |actions|
    ensures PerAction(g, item, m, actions, data, call)[i] == MatchFor(g, item, m, actions[i], data, call)
  {
    if i < |actions| - 1 {
      PerActionAt(g, item, m, actions[..|actions| - 1], i, data, call);
    }
  }

  lemma PerActionSnoc(g: Engine, item: Item, m: Monitor, actions: seq<string>, i: nat, data: MatchData, call: Option<Json>)
    requires i < |actions|
    ensures PerAction(g, item, m, actions[..i + 1], data, call) ==
      PerAction(g, item, m, actions[..i], data, call)
      + [MatchFor(g, item, m, actions[i], data, call)]
  {
    assert actions[..i + 1][..i] == actions[..i];
  }

  /** The decoded call a match carries: present only once the calldata was needed for some monitor. */
  function CallShown(g: Engine, item: Item, called: bool): Option<Json> {
    if called then CallJson(g, item) else None
  }

  /** The matches of monitor `m`, given whether the calldata was needed so far, `m` included. */
  function Expect(g: Engine, item: Item, m: Monitor, data: MatchData, called: bool): (r: seq<MonitorMatch>)
    ensures |r| == |m.actions|
  {
    PerAction(g, item, m, m.actions, data, CallShown(g, item, called))
  }

  // ------------------------------------------------------------ log-aware pass

  /** Whether the pre-filter lets `l` through, and what it then decodes to. */
  function Visible(g: Engine, m: Monitor, l: Log): Option<DecodedLog> {
    if m.eventNames != {} && (g.peekEventName(l).None? || g.peekEventName(l).value !in m.eventNames) then None
    else Decode(g, l)
  }

  function LogVerdict(g: Engine, item: Item, m: Monitor, l: Log): Result<bool, EvalError> {
    match Visible(g, m, l)
    case None => Ok(false)
    case Some(d) => g.run(m.script, LogScope(g, item, m, d)).0
  }

  /**
   What was found, which monitors matched a log, and whether some monitor with the
   call capability was evaluated (which is all that later monitors can tell of it).
   */
  datatype Progress = Progress(found: seq<MonitorMatch>, matched: set<int>, called: bool)

  const START := Progress([], {}, false)

  function LogStep(g: Engine, item: Item, m: Monitor, l: Log, p: Progress): Result<Progress, EvalError> {
    var called := p.called || (m.caps.call && Visible(g, m, l).Some?);
    match LogVerdict(g, item, m, l)
    case Err(e) => Err(e)
    case Ok(false) => Ok(p.(called := called))
    case Ok(true) =>
      Ok(Progress(p.found + Expect(g, item, m, LogData(g, item, Visible(g, m, l).value), called),
                  p.matched + {m.id}, called))
  }

  function MonitorOverLogs(g: Engine, item: Item, m: Monitor, logs: seq<Log>, p: Progress): Result<Progress, EvalError> {
    if logs == [] then Ok(p)
    else
      match MonitorOverLogs(g, item, m, logs[..|logs| - 1], p)
      case Err(e) => Err(e)
      case Ok(q) => LogStep(g, item, m, logs[|logs| - 1], q)
  }

  lemma OverLogsSnoc(g: Engine, item: Item, m: Monitor, logs: seq<Log>, i: nat, p: Progress)
    requires i < |logs| && MonitorOverLogs(g, item, m, logs[..i], p).Ok?
    ensures MonitorOverLogs(g, item, m, logs[..i + 1], p) ==
      LogStep(g, item, m, logs[i], MonitorOverLogs(g, item, m, logs[..i], p).value)
  {
    assert logs[..i + 1][..i] == logs[..i];
  }

  function LogPass(g: Engine, item: Item, ms: seq<Monitor>): Result<Progress, EvalError> {
    if ms == [] then Ok(START)
    else
      match LogPass(g, item, ms[..|ms| - 1])
      case Err(e) => Err(e)
      case Ok(q) => MonitorOverLogs(g, item, ms[|ms| - 1], item.logs, q)
  }

  // ------------------------------------------------------------- tx-aware pass

  function TxVerdict(g: Engine, item: Item, m: Monitor): Result<bool, EvalError> {
    g.run(m.script, TxScope(g, item, m)).0
  }

  function TxStep(g: Engine, item: Item, m: Monitor, p: Progress): Result<Progress, EvalError> {
    if m.id in p.matched then Ok(p)
    else
      var called := p.called || m.caps.call;
      match TxVerdict(g, item, m)
      case Err(e) => Err(e)
      case Ok(false) => Ok(p.(called := called))
      case Ok(true) => Ok(p.(found := p.found + Expect(g, item, m, TxData(g, item), called), called := called))
  }

  function TxPass(g: Engine, item: Item, ms: seq<Monitor>, p: Progress): Result<Progress, EvalError> {
    if ms == [] then Ok(p)
    else
      match TxPass(g, item, ms[..|ms| - 1], p)
      case Err(e) => Err(e)
      case Ok(q) => TxStep(g, item, ms[|ms| - 1], q)
  }

  /** The second pass records no log matches. */
  lemma {:induction false} TxPassKeepsMatched(g: Engine, item: Item, ms: seq<Monitor>, p: Progress)
    requires TxPass(g, item, ms, p).Ok?
    ensures TxPass(g, item, ms, p).value.matched == p.matched
  {
    if ms != [] {
      TxPassKeepsMatched(g, item, ms[..|ms| - 1], p);
    }
  }

  /** Evaluation of one item: log-aware monitors first, then the rest that has not matched. */
  function Evaluate(g: Engine, item: Item, logAware: seq<Monitor>, txAware: seq<Monitor>)
    : Result<seq<MonitorMatch>, EvalError>
  {
    match if item.logs == [] then Ok(START) else LogPass(g, item, logAware)
    case Err(e) => Err(e)
    case Ok(p) =>
      match TxPass(g, item, txAware, p)
      case Err(e) => Err(e)
      case Ok(q) => Ok(q.found)
  }
}
