/**
 The registry of interesting logs: built monitor by monitor, used to narrow what
 is fetched from the node.
 */
module InterestRegistries {
  import opened Prelude
  import opened ChainData

  /** Per address: `None` is broad mode (every log), `Some` the event signatures of interest. */
  datatype Registry = Registry(
    logInterests: map<Address, Option<set<Topic>>>, calldata: set<Address>, globals: set<Topic>)

  const EMPTY := Registry(map[], {}, {})

  // ------------------------------------------------------------------- lookup

  function Topic0(l: Log): Option<Topic> { if l.topics == [] then None else Some(l.topics[0]) }

  predicate IsGloballyMonitored(r: Registry, l: Log) {
    r.globals != {} && Topic0(l).Some? && Topic0(l).value in r.globals
  }

  /** A precise address decides alone: global signatures are not consulted for it. */
  predicate IsLogInteresting(r: Registry, l: Log) {
    if l.address in r.logInterests then
      match r.logInterests[l.address]
      case Some(sigs) => Topic0(l).Some? && Topic0(l).value in sigs
      case None => true
    else IsGloballyMonitored(r, l)
  }

  // --------------------------------------------------------- fetch shortcuts

  predicate HasBroad(r: Registry) { exists a :: a in r.logInterests && r.logInterests[a].None? }

  function PreciseTopics(r: Registry): (s: set<Topic>)
    requires !HasBroad(r)
    ensures forall a, t :: a in r.logInterests && t in r.logInterests[a].value ==> t in s
  {
    set a, t | a in r.logInterests && t in r.logInterests[a].value :: t
  }

  /** The topic0 filter for the node, or `None` if it could hide something. */
  function TopicFilter(r: Registry): Option<set<Topic>> {
    if HasBroad(r) then None
    else
      var topics := r.globals + PreciseTopics(r);
      if topics == {} then None else Some(topics)
  }

  predicate PassesFilter(f: Option<set<Topic>>, l: Log) {
    f.Some? ==> Topic0(l).Some? && Topic0(l).value in f.value
  }

  function Filtered(logs: seq<Log>, f: Option<set<Topic>>): seq<Log> {
    if logs == [] then []
    else (if PassesFilter(f, logs[0]) then [logs[0]] else []) + Filtered(logs[1..], f)
  }

  function Interesting(r: Registry, logs: seq<Log>): seq<Log> {
    if logs == [] then []
    else (if IsLogInteresting(r, logs[0]) then [logs[0]] else []) + Interesting(r, logs[1..])
  }

  predicate NobodyCares(r: Registry) { r.logInterests == map[] && r.globals == {} }

  /** What a range fetch returns: nothing at all if nobody cares, else filtered twice. */
  function FetchLogsForRange(r: Registry, logs: seq<Log>): seq<Log> {
    if NobodyCares(r) then [] else Interesting(r, Filtered(logs, TopicFilter(r)))
  }

  lemma InterestImpliesFilter(r: Registry, l: Log)
    requires IsLogInteresting(r, l)
    ensures PassesFilter(TopicFilter(r), l) && !NobodyCares(r)
  {
    if TopicFilter(r).Some? {
      var t := Topic0(l).value;
      assert l.address in r.logInterests ==> t in PreciseTopics(r);
    }
  }

  lemma {:induction false} FilterFirstIsHarmless(r: Registry, logs: seq<Log>)
    ensures Interesting(r, Filtered(logs, TopicFilter(r))) == Interesting(r, logs)
  {
    if logs != [] {
      var f, first, rest := TopicFilter(r), logs[0], logs[1..];
      FilterFirstIsHarmless(r, rest);
      if PassesFilter(f, first) {
        assert Filtered(logs, f) == [first] + Filtered(rest, f) && Filtered(logs, f)[1..] == Filtered(rest, f);
      } else {
        if IsLogInteresting(r, first) {
          InterestImpliesFilter(r, first);
        }
        assert Filtered(logs, f) == Filtered(rest, f);
      }
    }
  }

  lemma {:induction false} NobodyCaresFindsNothing(r: Registry, logs: seq<Log>)
    requires NobodyCares(r)
    ensures Interesting(r, logs) == []
  {
    if logs != [] {
      NobodyCaresFindsNothing(r, logs[1..]);
    }
  }

  /** Neither shortcut loses or reorders an interesting log. */
  lemma FetchShortcutsAreSound(r: Registry, logs: seq<Log>)
    ensures FetchLogsForRange(r, logs) == Interesting(r, logs)
  {
    FilterFirstIsHarmless(r, logs);
    if NobodyCares(r) {
      NobodyCaresFindsNothing(r, logs);
    }
  }

  /** What a block's bloom filter may answer. */
  datatype Bloom = Bloom(hasAddress: Address -> bool, hasTopic: Topic -> bool)

  /** No false negatives: the address and the topics of every log of the block are in the filter. */
  predicate Covers(b: Bloom, logs: seq<Log>) {
    forall l :: l in logs ==> b.hasAddress(l.address) && forall t :: t in l.topics ==> b.hasTopic(t)
  }

  predicate HitsAny(b: Bloom, topics: set<Topic>) { exists t :: t in topics && b.hasTopic(t) }

  predicate HitsAddress(b: Bloom, a: Address, mode: Option<set<Topic>>) {
    b.hasAddress(a) && (mode.Some? ==> HitsAny(b, mode.value))
  }

  predicate MightContainRelevantLogs(r: Registry, b: Bloom) {
    HitsAny(b, r.globals) || exists a :: a in r.logInterests && HitsAddress(b, a, r.logInterests[a])
  }

  lemma InterestImpliesBloomHit(r: Registry, b: Bloom, l: Log)
    requires IsLogInteresting(r, l) && b.hasAddress(l.address) && forall t :: t in l.topics ==> b.hasTopic(t)
    ensures MightContainRelevantLogs(r, b)
  {
    var a := l.address;
    if Topic0(l).Some? {
      var t := Topic0(l).value;
      assert t in l.topics;
      assert b.hasTopic(t);
    }
    assert a in r.logInterests ==> HitsAddress(b, a, r.logInterests[a]);
  }

  /** A bloom miss means that the block holds no interesting log, so skipping its log fetch is safe. */
  lemma {:induction false} BloomMissIsSafe(r: Registry, b: Bloom, logs: seq<Log>)
    requires Covers(b, logs) && !MightContainRelevantLogs(r, b)
    ensures Interesting(r, logs) == []
  {
    if logs != [] {
      var l := logs[0];
      assert l in logs;
      assert forall l' :: l' in logs[1..] ==> l' in logs;
      BloomMissIsSafe(r, b, logs[1..]);
      if IsLogInteresting(r, l) {
        InterestImpliesBloomHit(r, b, l);
        assert false;
      }
    }
  }

  // ----------------------------------------------------------------- building

  /** The address field of a monitor: absent, the word "all", an address, or something else. */
  datatype AddressField = NoAddress | All | At(address: Address) | Unparsable

  /** An ABI with an identity (two equal ABIs loaded twice are different) and its events. */
  datatype Abi = Abi(identity: nat, events: map<string, set<Topic>>)

  datatype AbiService = AbiService(linked: map<Address, Abi>, named: map<string, Abi>)

  datatype MonitorInterest = MonitorInterest(
    call: bool, log: bool, address: AddressField, abiName: Option<string>, eventNames: set<string>)

  function Signatures(eventNames: set<string>, abi: Abi): set<Topic> {
    if eventNames != {} then set name, t | name in eventNames && name in abi.events && t in abi.events[name] :: t
    else set name, t | name in abi.events && t in abi.events[name] :: t
  }

  /** What one monitor asks for, by itself. */
  datatype Ask = Nothing | Global(sigs: set<Topic>) | Broad(at: Address) | Precise(at: Address, sigs: set<Topic>)

  function AskOf(abis: AbiService, m: MonitorInterest): Ask {
    if !m.log then Nothing
    else
      match m.address
      case NoAddress => Nothing
      case Unparsable => Nothing
      case All =>
        if m.abiName.Some? && m.abiName.value in abis.named
        then Global(Signatures(m.eventNames, abis.named[m.abiName.value])) else Nothing
      case At(a) =>
        if m.abiName.None? || a !in abis.linked then Broad(a)
        else if m.abiName.value in abis.named && abis.named[m.abiName.value].identity != abis.linked[a].identity
        then Broad(a)
        else Precise(a, Signatures(m.eventNames, abis.linked[a]))
  }

  class InterestRegistryBuilder {
    var logInterests: map<Address, Option<set<Topic>>>
    var calldata: set<Address>
    var globals: set<Topic>

    ghost function Now(): Registry
      reads this
    {
      Registry(logInterests, calldata, globals)
    }

    constructor ()
      ensures Now() == EMPTY
    {
      logInterests, calldata, globals := map[], {}, {};
    }

    method AddLogInterest(m: MonitorInterest, abis: AbiService)
      modifies this
      ensures Now() == Joined(old(Now()), AskOf(abis, m))
    {
      if !m.log {
        return;
      }
      match m.address {
        case All =>
          if m.abiName.Some? && m.abiName.value in abis.named {
            globals := globals + Signatures(m.eventNames, abis.named[m.abiName.value]);
          }
        case At(a) =>
          if a in logInterests && logInterests[a].None? {
            assert logInterests[a := None] == logInterests;
            return;
          }
          if m.abiName.None? || a !in abis.linked {
            logInterests := logInterests[a := None];
            return;
          }
          if m.abiName.value in abis.named && abis.named[m.abiName.value].identity != abis.linked[a].identity {
            logInterests := logInterests[a := None];
            return;
          }
          var known := if a in logInterests then logInterests[a].value else {};
          logInterests := logInterests[a := Some(known + Signatures(m.eventNames, abis.linked[a]))];
        case _ =>
      }
    }

    method Add(m: MonitorInterest, abis: AbiService)
      modifies this
      ensures Now() == Step(old(Now()), abis, m)
    {
      if m.call && m.address.At? {
        calldata := calldata + {m.address.address};
      }
      AddLogInterest(m, abis);
    }

    method AddAll(ms: seq<MonitorInterest>, abis: AbiService)
      modifies this
      ensures Now() == Build(old(Now()), abis, ms)
    {
      for i := 0 to |ms|
        invariant Now() == Build(old(Now()), abis, ms[..i])
      {
        assert ms[..i + 1][..i] == ms[..i];
        Add(ms[i], abis);
      }
      assert ms[..|ms|] == ms;
    }
  }

  function Joined(r: Registry, ask: Ask): Registry {
    match ask
    case Nothing => r
    case Global(sigs) => r.(globals := r.globals + sigs)
    case Broad(a) => r.(logInterests := r.logInterests[a := None])
    case Precise(a, sigs) =>
      if a in r.logInterests && r.logInterests[a].None? then r
      else r.(logInterests := r.logInterests[a := Some((if a in r.logInterests then r.logInterests[a].value else {}) + sigs)])
  }

  function Step(r: Registry, abis: AbiService, m: MonitorInterest): Registry {
    Joined(if m.call && m.address.At? then r.(calldata := r.calldata + {m.address.address}) else r, AskOf(abis, m))
  }

  function Build(r: Registry, abis: AbiService, ms: seq<MonitorInterest>): Registry {
    if ms == [] then r else Step(Build(r, abis, ms[..|ms| - 1]), abis, ms[|ms| - 1])
  }

  // ------------------------------------------- the registry without an order

  function Mentioned(abis: AbiService, s: set<MonitorInterest>): set<Address> {
    set m | m in s && (AskOf(abis, m).Broad? || AskOf(abis, m).Precise?) :: AskOf(abis, m).at
  }

  function BroadAt(abis: AbiService, s: set<MonitorInterest>): set<Address> {
    set m | m in s && AskOf(abis, m).Broad? :: AskOf(abis, m).at
  }

  function SigsAt(abis: AbiService, s: set<MonitorInterest>, a: Address): set<Topic> {
    set m, t | m in s && AskOf(abis, m).Precise? && AskOf(abis, m).at == a && t in AskOf(abis, m).sigs :: t
  }

  function GlobalSigs(abis: AbiService, s: set<MonitorInterest>): set<Topic> {
    set m, t | m in s && AskOf(abis, m).Global? && t in AskOf(abis, m).sigs :: t
  }

  function Callees(s: set<MonitorInterest>): set<Address> {
    set m | m in s && m.call && m.address.At? :: m.address.address
  }

  function ModeAt(abis: AbiService, s: set<MonitorInterest>, a: Address): Option<set<Topic>> {
    if a in BroadAt(abis, s) then None else Some(SigsAt(abis, s, a))
  }

  /**
   The registry a set of monitors means: an address is broad iff some monitor asks
   for everything there, otherwise it has the union of what its monitors ask for.
   */
  function Meaning(abis: AbiService, s: set<MonitorInterest>): Registry {
    Registry(
      map a | a in Mentioned(abis, s) :: ModeAt(abis, s, a),
      Callees(s), GlobalSigs(abis, s))
  }

  lemma MentionedAdds(abis: AbiService, s: set<MonitorInterest>, m: MonitorInterest)
    ensures Mentioned(abis, s + {m}) ==
      Mentioned(abis, s) + if AskOf(abis, m).Broad? || AskOf(abis, m).Precise? then {AskOf(abis, m).at} else {}
    ensures BroadAt(abis, s + {m}) == BroadAt(abis, s) + if AskOf(abis, m).Broad? then {AskOf(abis, m).at} else {}
    ensures BroadAt(abis, s) <= Mentioned(abis, s)
  {
  }

  lemma SigsAdds(abis: AbiService, s: set<MonitorInterest>, m: MonitorInterest, a: Address)
    ensures SigsAt(abis, s + {m}, a) ==
      SigsAt(abis, s, a) + if AskOf(abis, m).Precise? && AskOf(abis, m).at == a then AskOf(abis, m).sigs else {}
    ensures a !in Mentioned(abis, s) ==> SigsAt(abis, s, a) == {}
  {
  }

  lemma GlobalsAdd(abis: AbiService, s: set<MonitorInterest>, m: MonitorInterest)
    ensures GlobalSigs(abis, s + {m}) == GlobalSigs(abis, s) + if AskOf(abis, m).Global? then AskOf(abis, m).sigs else {}
    ensures Callees(s + {m}) == Callees(s) + if m.call && m.address.At? then {m.address.address} else {}
  {
  }

  lemma ModeAdds(abis: AbiService, s: set<MonitorInterest>, m: MonitorInterest, a: Address)
    ensures var ask := AskOf(abis, m);
      ModeAt(abis, s + {m}, a) ==
        if ask == Broad(a) then None
        else if ask.Precise? && ask.at == a && a !in BroadAt(abis, s) then Some(SigsAt(abis, s, a) + ask.sigs)
        else ModeAt(abis, s, a)
  {
    MentionedAdds(abis, s, m);
    SigsAdds(abis, s, m, a);
    assert SigsAt(abis, s, a) + {} == SigsAt(abis, s, a);
  }

  lemma MeaningAdds(abis: AbiService, s: set<MonitorInterest>, m: MonitorInterest)
    ensures Step(Meaning(abis, s), abis, m) == Meaning(abis, s + {m})
  {
    var ask, before := AskOf(abis, m), Meaning(abis, s).logInterests;
    MentionedAdds(abis, s, m);
    GlobalsAdd(abis, s, m);
    assert GlobalSigs(abis, s) + {} == GlobalSigs(abis, s) && Callees(s) + {} == Callees(s);
    var p, q := Joined(Meaning(abis, s), ask).logInterests, Meaning(abis, s + {m}).logInterests;
    assert p.Keys == q.Keys == Mentioned(abis, s + {m});
    forall a | a in p.Keys ensures p[a] == q[a] {
      JoinedMode(abis, s, m, a);
    }
    assert p == q;
  }

  lemma JoinedMode(abis: AbiService, s: set<MonitorInterest>, m: MonitorInterest, a: Address)
    requires a in Joined(Meaning(abis, s), AskOf(abis, m)).logInterests
    ensures Joined(Meaning(abis, s), AskOf(abis, m)).logInterests[a] == ModeAt(abis, s + {m}, a)
  {
    ModeAdds(abis, s, m, a);
    SigsAdds(abis, s, m, a);
    MentionedAdds(abis, s, m);
    assert AskOf(abis, m).Precise? ==> {} + AskOf(abis, m).sigs == AskOf(abis, m).sigs;
  }

  function Elements(ms: seq<MonitorInterest>): set<MonitorInterest> { set m | m in ms }

  /** Adding monitors one after the other builds exactly what they mean as a set. */
  lemma {:induction false} BuildGivesMeaning(abis: AbiService, ms: seq<MonitorInterest>)
    ensures Build(EMPTY, abis, ms) == Meaning(abis, Elements(ms))
  {
    if ms == [] {
      assert Elements([]) == {};
      assert Meaning(abis, {}) == EMPTY;
    } else {
      var front, last := ms[..|ms| - 1], ms[|ms| - 1];
      BuildGivesMeaning(abis, front);
      MeaningAdds(abis, Elements(front), last);
      assert ms == front + [last];
      assert Elements(ms) == Elements(front) + {last};
    }
  }

  /** So any reordering, and any repetition, of the monitors builds the same registry. */
  lemma RegistryIgnoresOrder(abis: AbiService, xs: seq<MonitorInterest>, ys: seq<MonitorInterest>)
    requires multiset(xs) == multiset(ys) || Elements(xs) == Elements(ys)
    ensures Build(EMPTY, abis, xs) == Build(EMPTY, abis, ys)
  {
    BuildGivesMeaning(abis, xs);
    BuildGivesMeaning(abis, ys);
    assert forall m :: m in xs <==> m in multiset(xs);
    assert forall m :: m in ys <==> m in multiset(ys);
    assert Elements(xs) == Elements(ys);
  }
}
