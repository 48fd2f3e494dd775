/** The filtering engine with its per-item caches and its reused scope, checked against `EvaluationSpec`. */
module Filtering {
  import opened Prelude
  import opened MatchIds
  import opened Payloads
  import opened ChainData
  import opened EvaluationSpec

  datatype CacheKey = CacheKey(txHash: Hash, logIndex: nat)

  function KeyOfLog(l: Log): Option<CacheKey> {
    if l.txHash.Some? && l.logIndex.Some? then Some(CacheKey(l.txHash.value, l.logIndex.value)) else None
  }

  /** A transaction hash and a log index name one log. */
  predicate KeysNameLogs(logs: seq<Log>) {
    forall i, j :: 0 <= i < |logs| && 0 <= j < |logs| && KeyOfLog(logs[i]).Some? && KeyOfLog(logs[i]) == KeyOfLog(logs[j])
      ==> logs[i] == logs[j]
  }

  /** Per-item state of one evaluation. `decodedKeys` and `callDecodes` record the decoding work done. */
  class EvaluationContext {
    const g: Engine
    const item: Item
    var txDetailsCache: Option<Json>
    var matches: seq<MonitorMatch>
    var matchedIds: set<int>
    var decodedCallCache: Option<Option<DecodedCall>>
    var decodedCallJsonCache: Option<Option<Json>>
    var decodedLogsCache: map<CacheKey, Option<DecodedLog>>
    var txMapCache: Option<Json>
    ghost var decodedKeys: seq<CacheKey>
    ghost var callDecodes: nat

    constructor (g: Engine, item: Item)
      ensures Valid() && this.g == g && this.item == item && Tracks(START)
    {
      this.g, this.item := g, item;
      txDetailsCache, matches, matchedIds, decodedCallCache := None, [], {}, None;
      decodedCallJsonCache, decodedLogsCache, txMapCache := None, map[], None;
      decodedKeys, callDecodes := [], 0;
    }

    /** Every cache holds what recomputing would give, and no key was decoded twice. */
    ghost predicate Valid()
      reads `txDetailsCache, `txMapCache, `decodedCallCache, `decodedCallJsonCache
      reads `decodedLogsCache, `decodedKeys, `callDecodes
    {
      && (txDetailsCache.Some? ==> txDetailsCache.value == g.txDetails(item.tx, item.receipt))
      && (txMapCache.Some? ==> txMapCache.value == g.txMap(item.tx, item.receipt))
      && (decodedCallCache.Some? ==> decodedCallCache.value == g.decodeCall(item.tx))
      && (decodedCallJsonCache.Some? ==> decodedCallCache.Some? && decodedCallJsonCache.value == CallJson(g, item))
      && (forall l :: l in item.logs && KeyOfLog(l).Some? && KeyOfLog(l).value in decodedLogsCache ==>
            decodedLogsCache[KeyOfLog(l).value] == Decode(g, l))
      && Distinct(decodedKeys) && (forall k :: k in decodedKeys <==> k in decodedLogsCache)
      && callDecodes == (if decodedCallCache.Some? then 1 else 0)
    }

    method GetOrDecodeLog(l: Log) returns (d: Option<DecodedLog>)
      requires Valid() && l in item.logs && KeysNameLogs(item.logs)
      modifies `decodedLogsCache, `decodedKeys
      ensures Valid() && d == Decode(g, l)
    {
      var key := KeyOfLog(l);
      if key.Some? && key.value in decodedLogsCache {
        return decodedLogsCache[key.value];
      }
      d := Decode(g, l);
      if key.Some? {
        decodedLogsCache := decodedLogsCache[key.value := d];
        decodedKeys := decodedKeys + [key.value];
      }
    }

    method GetTxMap() returns (m: Json)
      requires Valid()
      modifies `txMapCache
      ensures Valid() && m == g.txMap(item.tx, item.receipt)
    {
      if txMapCache.Some? {
        return txMapCache.value;
      }
      m := g.txMap(item.tx, item.receipt);
      txMapCache := Some(m);
    }

    method GetTxDetails() returns (d: Json)
      requires Valid()
      modifies `txDetailsCache
      ensures Valid() && d == g.txDetails(item.tx, item.receipt)
    {
      if txDetailsCache.Some? {
        return txDetailsCache.value;
      }
      d := g.txDetails(item.tx, item.receipt);
      txDetailsCache := Some(d);
    }

    /** The decoded call as JSON, but only if some monitor has had the calldata decoded already. */
    method GetDecodedCallJson() returns (j: Option<Json>)
      requires Valid()
      modifies `decodedCallJsonCache
      ensures Valid() && j == if decodedCallCache.Some? then CallJson(g, item) else None
    {
      if decodedCallJsonCache.None? && decodedCallCache.Some? {
        decodedCallJsonCache := Some(match decodedCallCache.value
                                     case None => None
                                     case Some(c) => Some(g.callJson(c)));
      }
      return if decodedCallJsonCache.Some? then decodedCallJsonCache.value else None;
    }

    /** What a monitor gets as `decoded_call`: decoded on first demand, nothing without the capability. */
    method CallResult(m: Monitor) returns (c: Option<DecodedCall>)
      requires Valid()
      modifies `decodedCallCache, `callDecodes
      ensures Valid() && c == CallFor(g, item, m)
      ensures decodedCallCache.Some? <==> old(decodedCallCache.Some?) || m.caps.call
    {
      if !m.caps.call {
        return None;
      }
      if decodedCallCache.None? {
        decodedCallCache := Some(g.decodeCall(item.tx));
        callDecodes := callDecodes + 1;
      }
      return decodedCallCache.value;
    }

    /** Appends one match per action. */
    method PushPerAction(m: Monitor, data: MatchData, call: Option<Json>)
      modifies `matches
      ensures matches == old(matches) + PerAction(g, item, m, m.actions, data, call)
    {
      ghost var pushed := [];
      for i := 0 to |m.actions|
        invariant pushed == PerAction(g, item, m, m.actions[..i], data, call)
        invariant matches == old(matches) + pushed
      {
        var next := MatchFor(g, item, m, m.actions[i], data, call);
        PerActionSnoc(g, item, m, m.actions, i, data, call);
        matches := matches + [next];
        pushed := pushed + [next];
      }
      assert m.actions[..|m.actions|] == m.actions;
    }

    /** The matches so far are those of `p`, and the calldata is in the cache iff `p` says it was needed. */
    ghost predicate Tracks(p: Progress)
      reads `matches, `matchedIds, `decodedCallCache
    {
      matches == p.found && matchedIds == p.matched && decodedCallCache.Some? == p.called
    }

    method CreateLogMatches(m: Monitor, d: DecodedLog, ghost p: Progress)
      requires Valid() && Tracks(p)
      modifies this
      ensures Valid()
      ensures Tracks(Progress(p.found + Expect(g, item, m, LogData(g, item, d), p.called), p.matched + {m.id}, p.called))
    {
      var details := GetTxDetails();
      var call := GetDecodedCallJson();
      PushPerAction(m, LogMatch(d.log.address, IndexOf(d.log), d.name, g.logPayload(d.params), details), call);
      matchedIds := matchedIds + {m.id};
    }

    method CreateTxMatches(m: Monitor, ghost p: Progress)
      requires Valid() && Tracks(p)
      modifies this
      ensures Valid() && Tracks(p.(found := p.found + Expect(g, item, m, TxData(g, item), p.called)))
    {
      var details := GetTxDetails();
      var call := GetDecodedCallJson();
      PushPerAction(m, TxMatch(details), call);
    }
  }

  class RhaiFilteringEngine {
    const g: Engine

    constructor (g: Engine)
      ensures this.g == g
    {
      this.g := g;
    }

    /** Runs a script; the caller rewinds the scope, which restores its constant prefix. */
    method EvalAndRewind(script: string, scope: Scope, baseLen: nat) returns (r: Result<bool, EvalError>, rewound: Scope)
      requires RespectsConstants(g) && baseLen <= |scope|
      requires forall i :: 0 <= i < baseLen ==> scope[i].constant
      ensures r == g.run(script, scope).0 && rewound == scope[..baseLen]
    {
      var (verdict, after) := g.run(script, scope);
      return verdict, after[..baseLen];
    }

    ghost function BaseScope(item: Item, m: Monitor): Scope {
      [TxBinding(g, item), Binding("decoded_call", CallValue(CallFor(g, item, m)), true)]
    }

    /** The scope of a monitor is either not set up yet or holds its two constants. */
    ghost predicate ScopeReady(context: EvaluationContext, m: Monitor, scope: Scope)
      reads context
    {
      scope == [] || (scope == BaseScope(context.item, m) && (m.caps.call ==> context.decodedCallCache.Some?))
    }

    /** One monitor and one log; `scope` stays empty until some log of the monitor has been decoded. */
    method EvaluateLog(context: EvaluationContext, m: Monitor, l: Log, scope: Scope, ghost p: Progress)
      returns (error: Option<EvalError>, next: Scope, ghost q: Progress)
      requires RespectsConstants(g) && context.g == g && context.Valid()
      requires KeysNameLogs(context.item.logs) && l in context.item.logs
      requires context.Tracks(p) && ScopeReady(context, m, scope)
      modifies context
      ensures context.Valid()
      ensures match error
        case Some(e) => LogStep(g, context.item, m, l, p) == Err(e)
        case None =>
          && LogStep(g, context.item, m, l, p) == Ok(q)
          && context.Tracks(q)
          && ScopeReady(context, m, next)
    {
      error, next, q := None, scope, p;
      if m.eventNames != {} {
        var event := g.peekEventName(l);
        if event.None? || event.value !in m.eventNames {
          return;
        }
      }
      var decoded := context.GetOrDecodeLog(l);
      if decoded.None? {
        return;
      }
      if next == [] {
        var txMap := context.GetTxMap();
        var call := context.CallResult(m);
        next := [Binding("tx", TxValue(txMap), true), Binding("decoded_call", CallValue(call), true)];
      }
      error, q := RunOnLog(context, m, decoded.value, next, p.(called := p.called || m.caps.call));
    }

    /** Push, evaluate, rewind. */
    method RunOnLog(context: EvaluationContext, m: Monitor, d: DecodedLog, scope: Scope, ghost p: Progress)
      returns (error: Option<EvalError>, ghost q: Progress)
      requires RespectsConstants(g) && context.g == g && context.Valid() && context.Tracks(p)
      requires scope == BaseScope(context.item, m) && (m.caps.call ==> p.called)
      modifies context
      ensures context.Valid() && (m.caps.call ==> context.decodedCallCache.Some?)
      ensures var verdict := g.run(m.script, LogScope(g, context.item, m, d)).0;
        match error
        case Some(e) => verdict == Err(e)
        case None =>
          && verdict.Ok? && context.Tracks(q)
          && q == if verdict.value
                  then Progress(p.found + Expect(g, context.item, m, LogData(g, context.item, d), p.called),
                                p.matched + {m.id}, p.called)
                  else p
    {
      error, q := None, p;
      assert scope + [Binding("log", LogValue(Some(d)), false)] == LogScope(g, context.item, m, d);
      var verdict, rewound := EvalAndRewind(m.script, scope + [Binding("log", LogValue(Some(d)), false)], 2);
      assert rewound == scope;
      if verdict.Err? {
        error := Some(verdict.error);
      } else if verdict.value {
        context.CreateLogMatches(m, d, p);
        q := Progress(p.found + Expect(g, context.item, m, LogData(g, context.item, d), p.called),
                      p.matched + {m.id}, p.called);
      }
    }

    /** The inner loop of the log-aware pass: one monitor over all logs, with one scope. */
    method EvaluateOverLogs(context: EvaluationContext, m: Monitor, ghost p: Progress)
      returns (error: Option<EvalError>, ghost q: Progress)
      requires RespectsConstants(g) && context.g == g && context.Valid() && KeysNameLogs(context.item.logs)
      requires context.Tracks(p)
      modifies context
      ensures context.Valid()
      ensures match error
        case Some(e) => MonitorOverLogs(g, context.item, m, context.item.logs, p) == Err(e)
        case None => MonitorOverLogs(g, context.item, m, context.item.logs, p) == Ok(q) && context.Tracks(q)
    {
      var scope: Scope := [];
      q := p;
      var logs := context.item.logs;
      for i := 0 to |logs|
        invariant context.Valid() && context.Tracks(q) && ScopeReady(context, m, scope)
        invariant MonitorOverLogs(g, context.item, m, logs[..i], p) == Ok(q)
      {
        OverLogsSnoc(g, context.item, m, logs, i, p);
        error, scope, q := EvaluateLog(context, m, logs[i], scope, q);
        if error.Some? {
          LogErrorSticks(g, context.item, m, logs, i + 1, p);
          return;
        }
      }
      assert logs[..|logs|] == logs;
      error := None;
    }

    method EvaluateLogAwareMonitors(context: EvaluationContext, monitors: seq<Monitor>)
      returns (error: Option<EvalError>, ghost q: Progress)
      requires RespectsConstants(g) && context.g == g && context.Valid() && KeysNameLogs(context.item.logs)
      requires context.Tracks(START)
      modifies context
      ensures context.Valid()
      ensures match error
        case Some(e) => LogPass(g, context.item, monitors) == Err(e)
        case None => LogPass(g, context.item, monitors) == Ok(q) && context.Tracks(q)
    {
      q := START;
      for i := 0 to |monitors|
        invariant context.Valid() && context.Tracks(q)
        invariant LogPass(g, context.item, monitors[..i]) == Ok(q)
      {
        assert monitors[..i + 1][..i] == monitors[..i];
        error, q := EvaluateOverLogs(context, monitors[i], q);
        if error.Some? {
          LogPassErrorSticks(g, context.item, monitors, i + 1);
          return;
        }
      }
      assert monitors[..|monitors|] == monitors;
      error := None;
    }

    /** One monitor of the tx-aware pass; monitors that matched a log are skipped. */
    method EvaluateTx(context: EvaluationContext, m: Monitor, scope: Scope, ghost p: Progress)
      returns (error: Option<EvalError>, next: Scope, ghost q: Progress)
      requires RespectsConstants(g) && context.g == g && context.Valid() && context.Tracks(p)
      requires scope == [TxBinding(g, context.item)]
      modifies context
      ensures context.Valid()
      ensures match error
        case Some(e) => TxStep(g, context.item, m, p) == Err(e)
        case None => TxStep(g, context.item, m, p) == Ok(q) && next == scope && context.Tracks(q)
    {
      error, next, q := None, scope, p;
      if m.id in context.matchedIds {
        return;
      }
      var call := context.CallResult(m);
      q := p.(called := p.called || m.caps.call);
      var full := scope + [Binding("log", LogValue(None), false)] + [Binding("decoded_call", CallValue(call), false)];
      assert full == TxScope(g, context.item, m);
      var verdict;
      verdict, next := EvalAndRewind(m.script, full, 1);
      if verdict.Err? {
        error := Some(verdict.error);
        return;
      }
      if verdict.value {
        context.CreateTxMatches(m, q);
        q := q.(found := q.found + Expect(g, context.item, m, TxData(g, context.item), q.called));
      }
    }

    method EvaluateTxAwareMonitors(context: EvaluationContext, monitors: seq<Monitor>, ghost p: Progress)
      returns (error: Option<EvalError>, ghost q: Progress)
      requires RespectsConstants(g) && context.g == g && context.Valid() && context.Tracks(p)
      modifies context
      ensures context.Valid()
      ensures match error
        case Some(e) => TxPass(g, context.item, monitors, p) == Err(e)
        case None => TxPass(g, context.item, monitors, p) == Ok(q) && context.Tracks(q)
    {
      q, error := p, None;
      if monitors == [] {
        return;
      }
      var txMap := context.GetTxMap();
      var scope := [Binding("tx", TxValue(txMap), true)];
      for i := 0 to |monitors|
        invariant context.Valid() && context.Tracks(q) && scope == [TxBinding(g, context.item)]
        invariant TxPass(g, context.item, monitors[..i], p) == Ok(q)
      {
        assert monitors[..i + 1][..i] == monitors[..i];
        error, scope, q := EvaluateTx(context, monitors[i], scope, q);
        if error.Some? {
          TxPassErrorSticks(g, context.item, monitors, i + 1, p);
          return;
        }
      }
      assert monitors[..|monitors|] == monitors;
      error := None;
    }

    /**
     The two cached passes return what the cache-free specification says, in the same
     order, or the same error; each keyed log and the calldata are decoded at most once.
     */
    method EvaluateItem(item: Item, logAware: seq<Monitor>, txAware: seq<Monitor>)
      returns (r: Result<seq<MonitorMatch>, EvalError>, ghost decodedKeys: seq<CacheKey>, ghost callDecodes: nat)
      requires RespectsConstants(g) && KeysNameLogs(item.logs)
      ensures r == Evaluate(g, item, logAware, txAware)
      ensures Distinct(decodedKeys) && callDecodes <= 1
    {
      var context := new EvaluationContext(g, item);
      var error: Option<EvalError> := None;
      ghost var p := START;
      if item.logs != [] {
        error, p := EvaluateLogAwareMonitors(context, logAware);
      }
      if error.None? {
        error, p := EvaluateTxAwareMonitors(context, txAware, p);
      }
      r := if error.Some? then Err(error.value) else Ok(context.matches);
      decodedKeys, callDecodes := context.decodedKeys, context.callDecodes;
    }
  }

  lemma {:induction false} LogErrorSticks(g: Engine, item: Item, m: Monitor, logs: seq<Log>, i: nat, p: Progress)
    requires i <= |logs| && MonitorOverLogs(g, item, m, logs[..i], p).Err?
    ensures MonitorOverLogs(g, item, m, logs, p) == MonitorOverLogs(g, item, m, logs[..i], p)
  {
    if i < |logs| {
      assert logs[..|logs| - 1][..i] == logs[..i];
      LogErrorSticks(g, item, m, logs[..|logs| - 1], i, p);
    } else {
      assert logs[..i] == logs;
    }
  }

  lemma {:induction false} LogPassErrorSticks(g: Engine, item: Item, ms: seq<Monitor>, i: nat)
    requires i <= |ms| && LogPass(g, item, ms[..i]).Err?
    ensures LogPass(g, item, ms) == LogPass(g, item, ms[..i])
  {
    if i < |ms| {
      assert ms[..|ms| - 1][..i] == ms[..i];
      LogPassErrorSticks(g, item, ms[..|ms| - 1], i);
    } else {
      assert ms[..i] == ms;
    }
  }

  lemma {:induction false} TxPassErrorSticks(g: Engine, item: Item, ms: seq<Monitor>, i: nat, p: Progress)
    requires i <= |ms| && TxPass(g, item, ms[..i], p).Err?
    ensures TxPass(g, item, ms, p) == TxPass(g, item, ms[..i], p)
  {
    if i < |ms| {
      assert ms[..|ms| - 1][..i] == ms[..i];
      TxPassErrorSticks(g, item, ms[..|ms| - 1], i, p);
    } else {
      assert ms[..i] == ms;
    }
  }
}
