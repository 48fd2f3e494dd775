/** What pruning spares: monitors of calls to an address never lose a match to it. */
module WatchedCalls {
  import opened Prelude
  import opened Payloads
  import opened ChainData
  import opened EvaluationSpec
  import opened BlockCorrelation
  import InterestRegistries
  import ScriptViews

  /** The matches of one monitor. */
  function Of(found: seq<MonitorMatch>, id: int): seq<MonitorMatch> {
    if found == [] then []
    else
      var last := found[|found| - 1];
      Of(found[..|found| - 1], id) + if last.monitorId == id then [last] else []
  }

  lemma {:induction false} OfConcat(a: seq<MonitorMatch>, b: seq<MonitorMatch>, id: int)
    ensures Of(a + b, id) == Of(a, id) + Of(b, id)
  {
    if b == [] {
      assert a + b == a;
    } else {
      assert (a + b)[..|a + b| - 1] == a + b[..|b| - 1];
      OfConcat(a, b[..|b| - 1], id);
    }
  }

  lemma {:induction false} OfOthers(found: seq<MonitorMatch>, id: int)
    requires forall i :: 0 <= i < |found| ==> found[i].monitorId != id
    ensures Of(found, id) == []
  {
    if found != [] {
      OfOthers(found[..|found| - 1], id);
    }
  }

  /** Its script is false on every transaction that is not sent to `a`. */
  ghost predicate FalseElsewhere(g: Engine, m: Monitor, a: Address) {
    forall item: Item :: item.tx.to != Some(a) ==> TxVerdict(g, item, m) == Ok(false)
  }

  /** On a transaction without logs that goes elsewhere, such monitors match nothing. */
  lemma ElsewhereMatchesNothing(
    g: Engine, item: Item, logAware: seq<Monitor>, txAware: seq<Monitor>, id: int, a: Address)
    requires item.logs == [] && item.tx.to != Some(a)
    requires forall m :: m in txAware && m.id == id ==> FalseElsewhere(g, m, a)
    ensures Of(ItemMatches(g, item, logAware, txAware), id) == []
  {
    var found := ItemMatches(g, item, logAware, txAware);
    forall i | 0 <= i < |found| ensures found[i].monitorId != id {
      ScriptViews.MatchesTellTheTruth(g, item, logAware, txAware, i);
      if m :| m in txAware && ScriptViews.FromTx(g, item, m, found[i]) {
        assert m.id == id ==> FalseElsewhere(g, m, a);
      }
    }
    OfOthers(found, id);
  }

  lemma {:induction false} PruningSparesWatchers(
    g: Engine, calldata: set<Address>, items: seq<Item>, logAware: seq<Monitor>, txAware: seq<Monitor>, id: int, a: Address)
    requires a in calldata && forall m :: m in txAware && m.id == id ==> FalseElsewhere(g, m, a)
    ensures Of(BlockMatches(g, Kept(calldata, items), logAware, txAware), id) ==
      Of(BlockMatches(g, items, logAware, txAware), id)
  {
    if items != [] {
      var first, rest := items[0], items[1..];
      var kept := Kept(calldata, rest);
      PruningSparesWatchers(g, calldata, rest, logAware, txAware, id, a);
      var here := ItemMatches(g, first, logAware, txAware);
      OfConcat(here, BlockMatches(g, rest, logAware, txAware), id);
      OfConcat(here, BlockMatches(g, kept, logAware, txAware), id);
      if Matchable(calldata, first.tx, first.logs) {
        assert Kept(calldata, items) == [first] + kept && Kept(calldata, items)[1..] == kept;
      } else {
        assert Kept(calldata, items) == kept;
        ElsewhereMatchesNothing(g, first, logAware, txAware, id, a);
      }
    }
  }

  /** The registry watches exactly the addresses of call monitors. */
  lemma CalldataIs(abis: InterestRegistries.AbiService, asking: seq<InterestRegistries.MonitorInterest>, a: Address)
    ensures a in InterestRegistries.Build(InterestRegistries.EMPTY, abis, asking).calldata <==>
      exists m :: m in asking && m.call && m.address == InterestRegistries.At(a)
  {
    InterestRegistries.BuildGivesMeaning(abis, asking);
  }

  /**
   A call monitor of an address, whose script is false on transactions sent elsewhere,
   matches in every block what it would match if nothing were ever pruned.
   */
  lemma CallMonitorsLoseNothing(
    g: Engine, abis: InterestRegistries.AbiService, asking: seq<InterestRegistries.MonitorInterest>,
    own: InterestRegistries.MonitorInterest, a: Address, ms: seq<Monitor>, id: int, block: BlockData)
    requires own in asking && own.call && own.address == InterestRegistries.At(a)
    requires forall m :: m in ms && m.id == id ==> FalseElsewhere(g, m, a)
    requires block.txs.Some? && HashesNameTxs(block.txs.value)
    ensures var calldata := InterestRegistries.Build(InterestRegistries.EMPTY, abis, asking).calldata;
      Of(PipelineMatches(g, ms, calldata, block), id) == Of(FullMatches(g, ms, block), id)
  {
    var calldata := InterestRegistries.Build(InterestRegistries.EMPTY, abis, asking).calldata;
    CalldataIs(abis, asking, a);
    PruningFilters(calldata, block.txs.value, block.logs, block.receipts);
    var txAware := Select(ms, true);
    forall m | m in txAware && m.id == id ensures FalseElsewhere(g, m, a) {
      SelectHolds(ms, true, m);
    }
    PruningSparesWatchers(g, calldata, FastItems(block.txs.value, block.logs, block.receipts), Select(ms, false), txAware, id, a);
  }
}
