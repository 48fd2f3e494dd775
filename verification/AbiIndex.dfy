/**
 The ABI service: per-address contracts first, then global ABIs through an index
 by event topic and function selector. The index must agree with scanning every
 global ABI ever added, and peeking at a name must agree with decoding.
 */
module AbiIndexes {
  import opened Prelude
  import opened Payloads
  import opened ChainData
  import opened EvaluationSpec

  type Selector = int

  datatype Event = Event(name: string, definition: string)

  datatype Contract = Contract(events: map<Topic, Event>, functions: map<Selector, string>)

  datatype AbiError =
    | NotRegistered | NoTopics | EventNotFound | ContractCreation | InputTooShort | FunctionNotFound
    | DecodingFailed(why: string)

  /** Decoding the parameters of one event definition is foreign code. */
  type ParamDecoder = (Event, Log) -> Result<Json, AbiError>

  /** Likewise for the arguments of one function definition. */
  type ArgDecoder = (string, seq<nat>) -> Result<Json, AbiError>

  function Find<K, V>(m: map<K, V>, k: K): Option<V> { if k in m then Some(m[k]) else None }

  function Bucket<K>(index: map<K, seq<Contract>>, k: K): seq<Contract> { if k in index then index[k] else [] }

  /** A linear scan: the contracts with event topic `t`, in insertion order. */
  function WithEvent(added: seq<Contract>, t: Topic): seq<Contract> {
    if added == [] then []
    else WithEvent(added[..|added| - 1], t) + if t in added[|added| - 1].events then [added[|added| - 1]] else []
  }

  function WithFunction(added: seq<Contract>, s: Selector): seq<Contract> {
    if added == [] then []
    else WithFunction(added[..|added| - 1], s) + if s in added[|added| - 1].functions then [added[|added| - 1]] else []
  }

  /** The event index is the linear scan of everything added. */
  ghost predicate IndexesEvents(index: map<Topic, seq<Contract>>, added: seq<Contract>) {
    forall t :: Bucket(index, t) == WithEvent(added, t)
  }

  ghost predicate IndexesFunctions(index: map<Selector, seq<Contract>>, added: seq<Contract>) {
    forall s :: Bucket(index, s) == WithFunction(added, s)
  }

  lemma EventScanSnoc(added: seq<Contract>, c: Contract, t: Topic)
    ensures WithEvent(added + [c], t) == WithEvent(added, t) + if t in c.events then [c] else []
  {
    assert (added + [c])[..|added|] == added;
  }

  lemma FunctionScanSnoc(added: seq<Contract>, c: Contract, s: Selector)
    ensures WithFunction(added + [c], s) == WithFunction(added, s) + if s in c.functions then [c] else []
  {
    assert (added + [c])[..|added|] == added;
  }

  lemma EventsIndexed(before: map<Topic, seq<Contract>>, after: map<Topic, seq<Contract>>, added: seq<Contract>, c: Contract)
    requires IndexesEvents(before, added)
    requires forall t :: Bucket(after, t) == Bucket(before, t) + if t in c.events.Keys then [c] else []
    ensures IndexesEvents(after, added + [c])
  {
    forall t ensures Bucket(after, t) == WithEvent(added + [c], t) {
      EventScanSnoc(added, c, t);
    }
  }

  lemma FunctionsIndexed(before: map<Selector, seq<Contract>>, after: map<Selector, seq<Contract>>, added: seq<Contract>,
                         c: Contract)
    requires IndexesFunctions(before, added)
    requires forall s :: Bucket(after, s) == Bucket(before, s) + if s in c.functions.Keys then [c] else []
    ensures IndexesFunctions(after, added + [c])
  {
    forall s ensures Bucket(after, s) == WithFunction(added + [c], s) {
      FunctionScanSnoc(added, c, s);
    }
  }

  class AbiService {
    var named: map<string, Contract>
    var byAddress: map<Address, Contract>
    var eventIndex: map<Topic, seq<Contract>>
    var functionIndex: map<Selector, seq<Contract>>
    ghost var added: seq<Contract>

    /** Both indexes are the linear scan of everything ever added. */
    ghost predicate Valid()
      reads this
    {
      IndexesEvents(eventIndex, added) && IndexesFunctions(functionIndex, added)
    }

    constructor ()
      ensures Valid() && named == map[] && byAddress == map[] && added == []
    {
      named, byAddress, eventIndex, functionIndex, added := map[], map[], map[], map[], [];
    }

    method RegisterAbi(name: string, abi: Contract)
      requires Valid()
      modifies this`named
      ensures Valid() && named == old(named)[name := abi]
    {
      named := named[name := abi];
    }

    method LinkAbi(address: Address, name: string) returns (r: Result<(), AbiError>)
      requires Valid()
      modifies this`byAddress
      ensures Valid()
      ensures name !in named ==> r == Err(NotRegistered) && byAddress == old(byAddress)
      ensures name in named ==> r == Ok(()) && byAddress == old(byAddress)[address := named[name]]
    {
      if name !in named {
        return Err(NotRegistered);
      }
      byAddress := byAddress[address := named[name]];
      return Ok(());
    }

    /** Adding a name twice indexes its contract twice; the scan sees it twice too. */
    method AddGlobalAbi(name: string) returns (r: Result<(), AbiError>)
      requires Valid()
      modifies this
      ensures Valid() && named == old(named) && byAddress == old(byAddress)
      ensures name !in named ==> r == Err(NotRegistered) && added == old(added)
      ensures name in named ==> r == Ok(()) && added == old(added) + [named[name]]
    {
      if name !in named {
        return Err(NotRegistered);
      }
      var c := named[name];
      eventIndex := IndexEvents(eventIndex, added, c);
      functionIndex := IndexFunctions(functionIndex, added, c);
      added := added + [c];
      return Ok(());
    }

    method PeekEventName(l: Log) returns (r: Option<string>)
      requires Valid()
      ensures r == PeekName(byAddress, added, l)
    {
      if l.topics == [] {
        return None;
      }
      var t := l.topics[0];
      if l.address in byAddress && t in byAddress[l.address].events {
        return Some(byAddress[l.address].events[t].name);
      }
      var bucket := Bucket(eventIndex, t);
      WithEventHave(added, t);
      return if bucket == [] then None else Some(bucket[0].events[t].name);
    }

    method DecodeLog(params: ParamDecoder, l: Log) returns (r: Result<(string, Json), AbiError>)
      requires Valid()
      ensures r == DecodeByScan(params, byAddress, added, l)
    {
      if l.topics == [] {
        return Err(NoTopics);
      }
      var t := l.topics[0];
      if l.address in byAddress && t in byAddress[l.address].events {
        return DecodeDirect(params, byAddress[l.address].events[t], l);
      }
      var bucket := Bucket(eventIndex, t);
      WithEventHave(added, t);
      r := TryInOrder(params, bucket, t, l);
    }

    /** `to` and `input` are those of the transaction. */
    method DecodeFunctionInput(args: ArgDecoder, to: Option<Address>, input: seq<nat>) returns (r: Result<Json, AbiError>)
      requires Valid()
      ensures r == DecodeCallByScan(args, byAddress, added, to, input)
    {
      if to.None? {
        return Err(ContractCreation);
      }
      if |input| < 4 {
        return Err(InputTooShort);
      }
      var s := Selector4(input);
      if to.value in byAddress && s in byAddress[to.value].functions {
        return args(byAddress[to.value].functions[s], input);
      }
      var bucket := Bucket(functionIndex, s);
      WithFunctionHave(added, s);
      if bucket == [] {
        return Err(FunctionNotFound);
      }
      return args(bucket[0].functions[s], input);
    }
  }

  /** Tries the contracts of a bucket in order, remembering the last failure. */
  method TryInOrder(params: ParamDecoder, bucket: seq<Contract>, t: Topic, l: Log) returns (r: Result<(string, Json), AbiError>)
    requires forall i :: 0 <= i < |bucket| ==> t in bucket[i].events
    ensures r == FirstSuccess(params, bucket, t, l, EventNotFound)
  {
    var lastError := EventNotFound;
    for i := 0 to |bucket|
      invariant FirstSuccess(params, bucket, t, l, EventNotFound) == FirstSuccess(params, bucket[i..], t, l, lastError)
    {
      assert bucket[i..][1..] == bucket[i + 1..];
      var attempt := DecodeDirect(params, bucket[i].events[t], l);
      if attempt.Ok? {
        return attempt;
      }
      lastError := attempt.error;
    }
    return Err(lastError);
  }

  function Selector4(input: seq<nat>): Selector
    requires |input| >= 4
  {
    ((input[0] * 256 + input[1]) * 256 + input[2]) * 256 + input[3]
  }

  method IndexEvents(index: map<Topic, seq<Contract>>, ghost added: seq<Contract>, c: Contract)
    returns (r: map<Topic, seq<Contract>>)
    requires IndexesEvents(index, added)
    ensures IndexesEvents(r, added + [c])
  {
    r := IndexUnder(index, c.events.Keys, c);
    EventsIndexed(index, r, added, c);
  }

  method IndexFunctions(index: map<Selector, seq<Contract>>, ghost added: seq<Contract>, c: Contract)
    returns (r: map<Selector, seq<Contract>>)
    requires IndexesFunctions(index, added)
    ensures IndexesFunctions(r, added + [c])
  {
    r := IndexUnder(index, c.functions.Keys, c);
    FunctionsIndexed(index, r, added, c);
  }

  /** Appends `c` to the bucket of every key, in whatever order the keys are visited. */
  method IndexUnder<K(==)>(index: map<K, seq<Contract>>, keys: set<K>, c: Contract) returns (r: map<K, seq<Contract>>)
    ensures forall k :: Bucket(r, k) == Bucket(index, k) + if k in keys then [c] else []
  {
    r := index;
    var rest := keys;
    while rest != {}
      invariant rest <= keys
      invariant forall k :: Bucket(r, k) == Bucket(index, k) + if k in keys && k !in rest then [c] else []
      decreases |rest|
    {
      var k :| k in rest;
      r := r[k := Bucket(r, k) + [c]];
      rest := rest - {k};
    }
  }

  lemma {:induction false} WithEventHave(added: seq<Contract>, t: Topic)
    ensures forall i :: 0 <= i < |WithEvent(added, t)| ==>
      WithEvent(added, t)[i] in added && t in WithEvent(added, t)[i].events
  {
    if added != [] {
      WithEventHave(added[..|added| - 1], t);
    }
  }

  lemma {:induction false} WithFunctionHave(added: seq<Contract>, s: Selector)
    ensures forall i :: 0 <= i < |WithFunction(added, s)| ==> s in WithFunction(added, s)[i].functions
  {
    if added != [] {
      WithFunctionHave(added[..|added| - 1], s);
    }
  }

  // ------------------------------------------------- decoding by linear scan

  /** A call is decoded by the contract's own ABI, else by the first global ABI that knows the selector. */
  function DecodeCallByScan(args: ArgDecoder, byAddress: map<Address, Contract>, added: seq<Contract>,
                            to: Option<Address>, input: seq<nat>): Result<Json, AbiError>
  {
    if to.None? then Err(ContractCreation)
    else if |input| < 4 then Err(InputTooShort)
    else
      var s := Selector4(input);
      if to.value in byAddress && s in byAddress[to.value].functions then args(byAddress[to.value].functions[s], input)
      else
        WithFunctionHave(added, s);
        var cs := WithFunction(added, s);
        if cs == [] then Err(FunctionNotFound) else args(cs[0].functions[s], input)
  }

  function DecodeDirect(params: ParamDecoder, e: Event, l: Log): Result<(string, Json), AbiError> {
    match params(e, l)
    case Ok(p) => Ok((e.name, p))
    case Err(x) => Err(x)
  }

  /** The first contract that decodes, else the last error. */
  function FirstSuccess(params: ParamDecoder, cs: seq<Contract>, t: Topic, l: Log, lastError: AbiError)
    : Result<(string, Json), AbiError>
    requires forall i :: 0 <= i < |cs| ==> t in cs[i].events
  {
    if cs == [] then Err(lastError)
    else
      var attempt := DecodeDirect(params, cs[0].events[t], l);
      if attempt.Ok? then attempt else FirstSuccess(params, cs[1..], t, l, attempt.error)
  }

  /** An address-specific definition decides alone, even when it fails. */
  function DecodeByScan(params: ParamDecoder, byAddress: map<Address, Contract>, added: seq<Contract>, l: Log)
    : Result<(string, Json), AbiError>
  {
    if l.topics == [] then Err(NoTopics)
    else
      var t := l.topics[0];
      if l.address in byAddress && t in byAddress[l.address].events
      then DecodeDirect(params, byAddress[l.address].events[t], l)
      else
        WithEventHave(added, t);
        FirstSuccess(params, WithEvent(added, t), t, l, EventNotFound)
  }

  function PeekName(byAddress: map<Address, Contract>, added: seq<Contract>, l: Log): Option<string> {
    if l.topics == [] then None
    else
      var t := l.topics[0];
      if l.address in byAddress && t in byAddress[l.address].events then Some(byAddress[l.address].events[t].name)
      else
        WithEventHave(added, t);
        var cs := WithEvent(added, t);
        if cs == [] then None else Some(cs[0].events[t].name)
  }

  // -------------------------------------------------- who decodes, told by index

  lemma SelectorIsFirstBytes(a: seq<nat>, b: seq<nat>)
    requires |a| >= 4 && |b| >= 4
    requires forall i :: 0 <= i < 4 ==> a[i] < 256 && b[i] < 256
    ensures Selector4(a) == Selector4(b) <==> a[..4] == b[..4]
  {
    assert a[..4] == [a[0], a[1], a[2], a[3]] && b[..4] == [b[0], b[1], b[2], b[3]];
  }

  lemma {:induction false} NoneWithFunction(added: seq<Contract>, s: Selector)
    ensures WithFunction(added, s) == [] <==> forall i :: 0 <= i < |added| ==> s !in added[i].functions
  {
    if added != [] {
      var front := added[..|added| - 1];
      NoneWithFunction(front, s);
      assert forall i :: 0 <= i < |front| ==> front[i] == added[i];
    }
  }

  predicate FirstOfFunction(added: seq<Contract>, s: Selector, i: nat) {
    i < |added| && s in added[i].functions && forall j :: 0 <= j < i ==> s !in added[j].functions
  }

  lemma {:induction false} FirstWithFunction(added: seq<Contract>, s: Selector, i: nat)
    requires FirstOfFunction(added, s, i)
    ensures WithFunction(added, s) != [] && WithFunction(added, s)[0] == added[i]
  {
    var front := added[..|added| - 1];
    if i == |front| {
      NoneWithFunction(front, s);
    } else {
      FirstWithFunction(front, s, i);
    }
  }

  predicate Knows(byAddress: map<Address, Contract>, to: Address, s: Selector) {
    to in byAddress && s in byAddress[to].functions
  }

  /**
   A call is decoded by the definition its contract has for the first four bytes, and if
   it has none by that of the earliest added ABI with one.
   */
  lemma CallIsDecodedBy(args: ArgDecoder, byAddress: map<Address, Contract>, added: seq<Contract>, to: Address, input: seq<nat>)
    requires |input| >= 4
    ensures var s, r := Selector4(input), DecodeCallByScan(args, byAddress, added, Some(to), input);
      && (Knows(byAddress, to, s) ==> r == args(byAddress[to].functions[s], input))
      && (!Knows(byAddress, to, s) ==>
            forall i: nat :: FirstOfFunction(added, s, i) ==> r == args(added[i].functions[s], input))
      && (!Knows(byAddress, to, s) && (forall i :: 0 <= i < |added| ==> s !in added[i].functions) ==>
            r == Err(FunctionNotFound))
  {
    var s := Selector4(input);
    NoneWithFunction(added, s);
    forall i: nat | FirstOfFunction(added, s, i)
      ensures WithFunction(added, s) != [] && WithFunction(added, s)[0] == added[i]
    {
      FirstWithFunction(added, s, i);
    }
  }

  lemma {:induction false} FirstSuccessSnoc(
    params: ParamDecoder, cs: seq<Contract>, c: Contract, t: Topic, l: Log, lastError: AbiError)
    requires t in c.events && forall i :: 0 <= i < |cs| ==> t in cs[i].events
    ensures FirstSuccess(params, cs + [c], t, l, lastError) ==
      if FirstSuccess(params, cs, t, l, lastError).Ok? then FirstSuccess(params, cs, t, l, lastError)
      else DecodeDirect(params, c.events[t], l)
  {
    if cs == [] {
      assert cs + [c] == [c] && [c][1..] == [];
    } else {
      assert (cs + [c])[1..] == cs[1..] + [c];
      var attempt := DecodeDirect(params, cs[0].events[t], l);
      if attempt.Err? {
        FirstSuccessSnoc(params, cs[1..], c, t, l, attempt.error);
      }
    }
  }

  /** Decoding by the global ABIs, one after the other. */
  function DecodeGlobally(params: ParamDecoder, added: seq<Contract>, t: Topic, l: Log): Result<(string, Json), AbiError> {
    WithEventHave(added, t);
    FirstSuccess(params, WithEvent(added, t), t, l, EventNotFound)
  }

  lemma GlobalSnoc(params: ParamDecoder, front: seq<Contract>, c: Contract, t: Topic, l: Log)
    ensures DecodeGlobally(params, front + [c], t, l) ==
      var before := DecodeGlobally(params, front, t, l);
      if before.Err? && t in c.events then DecodeDirect(params, c.events[t], l) else before
  {
    EventScanSnoc(front, c, t);
    WithEventHave(front, t);
    if t in c.events {
      FirstSuccessSnoc(params, WithEvent(front, t), c, t, l, EventNotFound);
    } else {
      assert WithEvent(front, t) + [] == WithEvent(front, t);
    }
  }

  predicate Fails(params: ParamDecoder, c: Contract, t: Topic, l: Log) {
    t in c.events ==> params(c.events[t], l).Err?
  }

  /** If all fail, the error is that of the latest added ABI that has the topic. */
  lemma {:induction false} GlobalFailureIs(params: ParamDecoder, added: seq<Contract>, t: Topic, l: Log)
    requires forall j :: 0 <= j < |added| ==> Fails(params, added[j], t, l)
    ensures DecodeGlobally(params, added, t, l).Err?
    ensures (forall j :: 0 <= j < |added| ==> t !in added[j].events) ==>
      DecodeGlobally(params, added, t, l) == Err(EventNotFound)
    ensures forall i :: 0 <= i < |added| && t in added[i].events && (forall j :: i < j < |added| ==> t !in added[j].events) ==>
      params(added[i].events[t], l).Err? && DecodeGlobally(params, added, t, l) == Err(params(added[i].events[t], l).error)
  {
    if added != [] {
      var front, c := added[..|added| - 1], added[|added| - 1];
      assert added == front + [c] && forall i :: 0 <= i < |front| ==> front[i] == added[i];
      GlobalFailureIs(params, front, t, l);
      GlobalSnoc(params, front, c, t, l);
      assert Fails(params, c, t, l);
    }
  }

  /** Otherwise the earliest added ABI that decodes decides. */
  lemma {:induction false} GlobalSuccessIs(params: ParamDecoder, added: seq<Contract>, t: Topic, l: Log, i: nat)
    requires i < |added| && t in added[i].events && params(added[i].events[t], l).Ok?
    requires forall j :: 0 <= j < i ==> Fails(params, added[j], t, l)
    ensures DecodeGlobally(params, added, t, l) == Ok((added[i].events[t].name, params(added[i].events[t], l).value))
  {
    var front, c := added[..|added| - 1], added[|added| - 1];
    assert added == front + [c] && forall k :: 0 <= k < |front| ==> front[k] == added[k];
    GlobalSnoc(params, front, c, t, l);
    if i == |front| {
      GlobalFailureIs(params, front, t, l);
    } else {
      GlobalSuccessIs(params, front, t, l, i);
    }
  }

  /**
   A log is decoded by the definition its address has for the first topic, which decides
   even when it fails; if it has none, by the earliest added ABI that succeeds.
   */
  lemma LogIsDecodedBy(params: ParamDecoder, byAddress: map<Address, Contract>, added: seq<Contract>, l: Log)
    requires l.topics != []
    ensures var t, r := l.topics[0], DecodeByScan(params, byAddress, added, l);
      if l.address in byAddress && t in byAddress[l.address].events then
        var e := byAddress[l.address].events[t];
        r == match params(e, l) case Ok(p) => Ok((e.name, p)) case Err(x) => Err(x)
      else
        && (forall i :: 0 <= i < |added| && t in added[i].events && params(added[i].events[t], l).Ok?
                        && (forall j :: 0 <= j < i ==> Fails(params, added[j], t, l)) ==>
              r == Ok((added[i].events[t].name, params(added[i].events[t], l).value)))
        && ((forall i :: 0 <= i < |added| ==> Fails(params, added[i], t, l)) ==> r.Err?)
  {
    var t := l.topics[0];
    if !(l.address in byAddress && t in byAddress[l.address].events) {
      forall i | 0 <= i < |added| && t in added[i].events && params(added[i].events[t], l).Ok?
                 && (forall j :: 0 <= j < i ==> Fails(params, added[j], t, l))
        ensures DecodeGlobally(params, added, t, l) == Ok((added[i].events[t].name, params(added[i].events[t], l).value))
      {
        GlobalSuccessIs(params, added, t, l, i);
      }
      if forall i :: 0 <= i < |added| ==> Fails(params, added[i], t, l) {
        GlobalFailureIs(params, added, t, l);
      }
    }
  }

  lemma {:induction false} NoneWithEvent(added: seq<Contract>, t: Topic)
    ensures WithEvent(added, t) == [] <==> forall i :: 0 <= i < |added| ==> t !in added[i].events
  {
    if added != [] {
      var front := added[..|added| - 1];
      NoneWithEvent(front, t);
      assert forall i :: 0 <= i < |front| ==> front[i] == added[i];
    }
  }

  predicate FirstOfEvent(added: seq<Contract>, t: Topic, i: nat) {
    i < |added| && t in added[i].events && forall j :: 0 <= j < i ==> t !in added[j].events
  }

  lemma {:induction false} FirstWithEvent(added: seq<Contract>, t: Topic, i: nat)
    requires FirstOfEvent(added, t, i)
    ensures WithEvent(added, t) != [] && WithEvent(added, t)[0] == added[i]
  {
    var front := added[..|added| - 1];
    if i == |front| {
      NoneWithEvent(front, t);
    } else {
      FirstWithEvent(front, t, i);
    }
  }

  /** The peeked name is that of the address, else that of the earliest added ABI with the topic, else none. */
  lemma NameIsPeekedFrom(byAddress: map<Address, Contract>, added: seq<Contract>, l: Log)
    requires l.topics != []
    ensures var t, r := l.topics[0], PeekName(byAddress, added, l);
      if l.address in byAddress && t in byAddress[l.address].events then r == Some(byAddress[l.address].events[t].name)
      else
        && (forall i: nat :: FirstOfEvent(added, t, i) ==> r == Some(added[i].events[t].name))
        && (r.None? <==> forall i :: 0 <= i < |added| ==> t !in added[i].events)
  {
    var t := l.topics[0];
    NoneWithEvent(added, t);
    forall i: nat | FirstOfEvent(added, t, i) ensures WithEvent(added, t) != [] && WithEvent(added, t)[0] == added[i] {
      FirstWithEvent(added, t, i);
    }
  }

  /** A topic is the hash of the event signature, so it fixes the event name. */
  predicate TopicsNameEvents(added: seq<Contract>) {
    forall i, j :: 0 <= i < |added| && 0 <= j < |added| ==>
      forall t :: t in added[i].events && t in added[j].events ==> added[i].events[t].name == added[j].events[t].name
  }

  lemma {:induction false} FirstSuccessNames(
    params: ParamDecoder, cs: seq<Contract>, t: Topic, l: Log, lastError: AbiError, name: string)
    requires forall i :: 0 <= i < |cs| ==> t in cs[i].events && cs[i].events[t].name == name
    ensures FirstSuccess(params, cs, t, l, lastError).Ok? ==> FirstSuccess(params, cs, t, l, lastError).value.0 == name
  {
    if cs != [] {
      var attempt := DecodeDirect(params, cs[0].events[t], l);
      if attempt.Err? {
        FirstSuccessNames(params, cs[1..], t, l, attempt.error, name);
      }
    }
  }

  /** A log that decodes has the name that peeking gives; a log without a name cannot be decoded. */
  lemma PeekAgreesWithDecode(params: ParamDecoder, byAddress: map<Address, Contract>, added: seq<Contract>, l: Log)
    requires TopicsNameEvents(added)
    ensures var d := DecodeByScan(params, byAddress, added, l);
      d.Ok? ==> PeekName(byAddress, added, l) == Some(d.value.0)
  {
    if l.topics != [] {
      var t := l.topics[0];
      if !(l.address in byAddress && t in byAddress[l.address].events) {
        WithEventHave(added, t);
        var cs := WithEvent(added, t);
        if cs != [] {
          forall i | 0 <= i < |cs| ensures t in cs[i].events && cs[i].events[t].name == cs[0].events[t].name {
            assert cs[i] in added && cs[0] in added;
          }
          FirstSuccessNames(params, cs, t, l, EventNotFound, cs[0].events[t].name);
        }
      }
    }
  }

  /**
   So the engine's cheap pre-filter is exact: with this ABI service, skipping a log by
   its peeked name hides it exactly when its decoded name is not one the monitor wants.
   */
  lemma PrefilterIsExact(g: Engine, params: ParamDecoder, byAddress: map<Address, Contract>, added: seq<Contract>,
                         m: Monitor, l: Log)
    requires TopicsNameEvents(added)
    requires g.peekEventName(l) == PeekName(byAddress, added, l)
    requires var d := DecodeByScan(params, byAddress, added, l);
      g.decodeLog(l) == if d.Ok? then Some(d.value) else None
    ensures Visible(g, m, l) ==
      if Decode(g, l).Some? && (m.eventNames == {} || Decode(g, l).value.name in m.eventNames) then Decode(g, l) else None
  {
    PeekAgreesWithDecode(params, byAddress, added, l);
  }
}
