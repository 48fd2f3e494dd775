/** The registry told from the monitors' own fields: which logs and calls are fetched for whom. */
module RegistryRules {
  import opened Prelude
  import opened ChainData
  import opened InterestRegistries
  import FetchedEvaluation

  /** `t` is a selector of an event that is wanted of this ABI; no names mean every event. */
  predicate Selects(names: set<string>, abi: Abi, t: Topic) {
    exists name :: name in abi.events && t in abi.events[name] && (names == {} || name in names)
  }

  predicate WatchesLogsOf(m: MonitorInterest, a: Address) { m.log && m.address == At(a) }

  /** It names no ABI, or the address has none linked, or another one than it names. */
  predicate WantsEverything(abis: AbiService, m: MonitorInterest, a: Address) {
    && WatchesLogsOf(m, a)
    && match m.abiName
       case None => true
       case Some(name) =>
         a !in abis.linked || (name in abis.named && abis.named[name].identity != abis.linked[a].identity)
  }

  predicate WantsTopic(abis: AbiService, m: MonitorInterest, a: Address, t: Topic) {
    WatchesLogsOf(m, a) && !WantsEverything(abis, m, a) && Selects(m.eventNames, abis.linked[a], t)
  }

  predicate WantsAnywhere(abis: AbiService, m: MonitorInterest, t: Topic) {
    && m.log && m.address.All? && m.abiName.Some? && m.abiName.value in abis.named
    && Selects(m.eventNames, abis.named[m.abiName.value], t)
  }

  lemma SignaturesAre(names: set<string>, abi: Abi, t: Topic)
    ensures t in Signatures(names, abi) <==> Selects(names, abi, t)
  {
  }

  lemma AskTells(abis: AbiService, m: MonitorInterest, a: Address, t: Topic)
    ensures AskOf(abis, m) == Broad(a) <==> WantsEverything(abis, m, a)
    ensures (AskOf(abis, m).Broad? || AskOf(abis, m).Precise?) && AskOf(abis, m).at == a <==> WatchesLogsOf(m, a)
    ensures AskOf(abis, m).Precise? && AskOf(abis, m).at == a && t in AskOf(abis, m).sigs <==> WantsTopic(abis, m, a, t)
    ensures AskOf(abis, m).Global? && t in AskOf(abis, m).sigs <==> WantsAnywhere(abis, m, t)
  {
    if a in abis.linked {
      SignaturesAre(m.eventNames, abis.linked[a], t);
    }
    if m.abiName.Some? && m.abiName.value in abis.named {
      SignaturesAre(m.eventNames, abis.named[m.abiName.value], t);
    }
  }

  lemma MeaningTells(abis: AbiService, s: set<MonitorInterest>, a: Address, t: Topic)
    ensures a in BroadAt(abis, s) <==> exists m :: m in s && WantsEverything(abis, m, a)
    ensures a in Mentioned(abis, s) <==> exists m :: m in s && WatchesLogsOf(m, a)
    ensures t in SigsAt(abis, s, a) <==> exists m :: m in s && WantsTopic(abis, m, a, t)
    ensures t in GlobalSigs(abis, s) <==> exists m :: m in s && WantsAnywhere(abis, m, t)
  {
    forall m
      ensures AskOf(abis, m) == Broad(a) <==> WantsEverything(abis, m, a)
      ensures (AskOf(abis, m).Broad? || AskOf(abis, m).Precise?) && AskOf(abis, m).at == a <==> WatchesLogsOf(m, a)
      ensures AskOf(abis, m).Precise? && AskOf(abis, m).at == a && t in AskOf(abis, m).sigs <==> WantsTopic(abis, m, a, t)
      ensures AskOf(abis, m).Global? && t in AskOf(abis, m).sigs <==> WantsAnywhere(abis, m, t)
    {
      AskTells(abis, m, a, t);
    }
  }

  /**
   A log is interesting exactly when some monitor of its address wants everything there
   or wants its first topic, or when no monitor watches its address and some monitor of
   all addresses wants its first topic.
   */
  lemma LogIsInterestingWhen(abis: AbiService, ms: seq<MonitorInterest>, l: Log)
    ensures IsLogInteresting(Build(EMPTY, abis, ms), l) <==>
      || (exists m :: m in ms && WantsEverything(abis, m, l.address))
      || (l.topics != [] && exists m :: m in ms && WantsTopic(abis, m, l.address, l.topics[0]))
      || (l.topics != [] && (forall m :: m in ms ==> !WatchesLogsOf(m, l.address))
          && exists m :: m in ms && WantsAnywhere(abis, m, l.topics[0]))
  {
    var s, t := Elements(ms), if l.topics == [] then 0 else l.topics[0];
    BuildGivesMeaning(abis, ms);
    FetchedEvaluation.InterestIs(abis, s, l);
    MeaningTells(abis, s, l.address, t);
    assert forall m :: m in ms <==> m in s;
  }

  /** Calls are watched for exactly the addresses of call monitors. */
  lemma CallsAreWatchedWhen(abis: AbiService, ms: seq<MonitorInterest>, a: Address)
    ensures a in Build(EMPTY, abis, ms).calldata <==> exists m :: m in ms && m.call && m.address == At(a)
  {
    BuildGivesMeaning(abis, ms);
  }

  // -------------------------------------------------- the shortcuts are tight too

  /** The topic filter holds exactly what some address or everybody wants, and is left out only if it would hide something. */
  lemma TopicFilterIs(r: Registry, t: Topic)
    ensures TopicFilter(r).None? <==>
      || (exists a :: a in r.logInterests && r.logInterests[a].None?)
      || (r.globals == {} && forall a :: a in r.logInterests ==> r.logInterests[a] == Some({}))
    ensures TopicFilter(r).Some? ==>
      (t in TopicFilter(r).value <==>
         t in r.globals || exists a :: a in r.logInterests && r.logInterests[a].Some? && t in r.logInterests[a].value)
  {
    if !HasBroad(r) {
      assert forall a :: a in r.logInterests ==> r.logInterests[a].Some?;
      var all := r.globals + PreciseTopics(r);
      assert forall a, x :: a in r.logInterests && x in r.logInterests[a].value ==> x in all;
      if all == {} {
        forall a | a in r.logInterests ensures r.logInterests[a] == Some({}) {
          assert r.logInterests[a].value == {};
        }
      } else if r.globals == {} {
        var x :| x in PreciseTopics(r);
      }
    }
  }

  /** A block is looked into exactly when its bloom filter has a global topic, or an address with a topic wanted there. */
  lemma BloomHitIs(r: Registry, b: Bloom)
    ensures MightContainRelevantLogs(r, b) <==>
      || (exists t :: t in r.globals && b.hasTopic(t))
      || (exists a :: a in r.logInterests && b.hasAddress(a) && r.logInterests[a].None?)
      || (exists a, t :: a in r.logInterests && b.hasAddress(a) && r.logInterests[a].Some?
                         && t in r.logInterests[a].value && b.hasTopic(t))
  {
    if MightContainRelevantLogs(r, b) && !HitsAny(b, r.globals) {
      var a :| a in r.logInterests && HitsAddress(b, a, r.logInterests[a]);
      if r.logInterests[a].Some? {
        var t :| t in r.logInterests[a].value && b.hasTopic(t);
      }
    }
    if a, t :| a in r.logInterests && b.hasAddress(a) && r.logInterests[a].Some?
               && t in r.logInterests[a].value && b.hasTopic(t) {
      assert HitsAny(b, r.logInterests[a].value) && HitsAddress(b, a, r.logInterests[a]);
    }
    if a :| a in r.logInterests && b.hasAddress(a) && r.logInterests[a].None? {
      assert HitsAddress(b, a, r.logInterests[a]);
    }
  }
}
