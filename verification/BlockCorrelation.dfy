/**
 Correlating a block: transactions meet their logs and receipts, and transactions
 nobody can match are pruned unless a pure transaction monitor exists.
 */
module BlockCorrelation {
  import opened Prelude
  import opened MatchIds
  import opened Payloads
  import opened ChainData
  import opened EvaluationSpec
  import BlockFetching

  /** `txs` is `None` when the node sent transaction hashes only. */
  datatype BlockData = BlockData(
    number: nat, txs: Option<seq<Transaction>>, logs: map<Hash, seq<Log>>, receipts: map<Hash, Receipt>)

  function LogsOf(logs: map<Hash, seq<Log>>, h: Hash): seq<Log> { if h in logs then logs[h] else [] }

  function ReceiptOf(receipts: map<Hash, Receipt>, h: Hash): Option<Receipt> {
    if h in receipts then Some(receipts[h]) else None
  }

  /** It has logs, or it calls a contract whose calldata somebody watches. */
  predicate Matchable(calldata: set<Address>, tx: Transaction, logs: seq<Log>) {
    logs != [] || (tx.to.Some? && tx.to.value in calldata)
  }

  /** All transactions; logs and receipts are handed to the first transaction with their hash. */
  function FastItems(txs: seq<Transaction>, logs: map<Hash, seq<Log>>, receipts: map<Hash, Receipt>): (items: seq<Item>)
    ensures |items| == |txs|
  {
    if txs == [] then []
    else
      var h := txs[0].hash;
      [Item(txs[0], LogsOf(logs, h), ReceiptOf(receipts, h))] + FastItems(txs[1..], logs - {h}, receipts - {h})
  }

  /** Only matchable transactions; a pruned one leaves its receipt where it is. */
  function PrunedItems(calldata: set<Address>, txs: seq<Transaction>, logs: map<Hash, seq<Log>>, receipts: map<Hash, Receipt>)
    : seq<Item>
  {
    if txs == [] then []
    else
      var h := txs[0].hash;
      if Matchable(calldata, txs[0], LogsOf(logs, h)) then
        [Item(txs[0], LogsOf(logs, h), ReceiptOf(receipts, h))]
        + PrunedItems(calldata, txs[1..], logs - {h}, receipts - {h})
      else PrunedItems(calldata, txs[1..], logs - {h}, receipts)
  }

  /** The `i`-th transaction with everything that belongs to it. */
  function ItemAt(block: BlockData, i: nat): Item
    requires block.txs.Some? && i < |block.txs.value|
  {
    var tx := block.txs.value[i];
    Item(tx, if tx.hash in block.logs then block.logs[tx.hash] else [],
         if tx.hash in block.receipts then Some(block.receipts[tx.hash]) else None)
  }

  /** It has logs under its hash, or it calls a contract whose calldata somebody watches. */
  predicate WorthKeeping(block: BlockData, calldata: set<Address>, i: nat)
    requires block.txs.Some? && i < |block.txs.value|
  {
    var tx := block.txs.value[i];
    || (tx.hash in block.logs && block.logs[tx.hash] != [])
    || (tx.to.Some? && tx.to.value in calldata)
  }

  function AllItems(block: BlockData): (items: seq<Item>)
    requires block.txs.Some?
    ensures |items| == |block.txs.value| && forall i :: 0 <= i < |items| ==> items[i] == ItemAt(block, i)
  {
    seq(|block.txs.value|, i requires 0 <= i < |block.txs.value| => ItemAt(block, i))
  }

  lemma ItemsByIndex(block: BlockData, calldata: set<Address>)
    requires block.txs.Some? && HashesDiffer(block.txs.value)
    ensures FastItems(block.txs.value, block.logs, block.receipts) == AllItems(block)
    ensures PrunedItems(calldata, block.txs.value, block.logs, block.receipts) == Kept(calldata, AllItems(block))
  {
    var txs := block.txs.value;
    forall i | 0 <= i < |txs| ensures FastItems(txs, block.logs, block.receipts)[i] == ItemAt(block, i) {
      FastItemsAre(txs, block.logs, block.receipts, i);
    }
    assert FastItems(txs, block.logs, block.receipts) == AllItems(block);
    PruningFilters(calldata, txs, block.logs, block.receipts);
  }

  /** Takes the logs and the receipt of every transaction. */
  method FastPath(block: BlockData) returns (items: seq<Item>)
    requires block.txs.Some?
    ensures items == FastItems(block.txs.value, block.logs, block.receipts)
  {
    var txs, logs, receipts := block.txs.value, block.logs, block.receipts;
    items := [];
    for i := 0 to |txs|
      invariant FastItems(txs, block.logs, block.receipts) == items + FastItems(txs[i..], logs, receipts)
    {
      var h := txs[i].hash;
      items := items + [Item(txs[i], LogsOf(logs, h), ReceiptOf(receipts, h))];
      logs, receipts := logs - {h}, receipts - {h};
    }
  }

  lemma PrunedOneMore(calldata: set<Address>, txs: seq<Transaction>, i: nat, logs: map<Hash, seq<Log>>,
                      receipts: map<Hash, Receipt>, items: seq<Item>)
    requires i < |txs|
    ensures var h := txs[i].hash;
      var its := LogsOf(logs, h);
      items + PrunedItems(calldata, txs[i..], logs, receipts) ==
        if Matchable(calldata, txs[i], its)
        then (items + [Item(txs[i], its, ReceiptOf(receipts, h))])
             + PrunedItems(calldata, txs[i + 1..], logs - {h}, receipts - {h})
        else items + PrunedItems(calldata, txs[i + 1..], logs - {h}, receipts)
  {
    assert txs[i..][1..] == txs[i + 1..];
  }

  /** Takes the logs of every transaction, and keeps only those that somebody could match. */
  method OptimizedPath(block: BlockData, calldata: set<Address>) returns (items: seq<Item>)
    requires block.txs.Some?
    ensures items == PrunedItems(calldata, block.txs.value, block.logs, block.receipts)
  {
    var txs, logs, receipts := block.txs.value, block.logs, block.receipts;
    items := [];
    for i := 0 to |txs|
      invariant PrunedItems(calldata, txs, block.logs, block.receipts)
             == items + PrunedItems(calldata, txs[i..], logs, receipts)
    {
      PrunedOneMore(calldata, txs, i, logs, receipts, items);
      var h := txs[i].hash;
      var its := LogsOf(logs, h);
      logs := logs - {h};
      if Matchable(calldata, txs[i], its) {
        items := items + [Item(txs[i], its, ReceiptOf(receipts, h))];
        receipts := receipts - {h};
      }
    }
  }

  /** If hashes differ, each item has exactly the logs and the receipt under its transaction's hash. */
  method ProcessBlock(block: BlockData, hasTxOnly: bool, calldata: set<Address>) returns (items: seq<Item>)
    ensures block.txs.None? ==> items == []
    ensures block.txs.Some? ==>
      items == if hasTxOnly then FastItems(block.txs.value, block.logs, block.receipts)
               else PrunedItems(calldata, block.txs.value, block.logs, block.receipts)
    ensures block.txs.Some? && HashesDiffer(block.txs.value) ==>
      items == if hasTxOnly then AllItems(block) else Kept(calldata, AllItems(block))
    ensures block.txs.Some? && HashesDiffer(block.txs.value) ==>
      forall i :: 0 <= i < |block.txs.value| ==>
        (ItemAt(block, i) in items <==> hasTxOnly || WorthKeeping(block, calldata, i))
  {
    if block.txs.None? {
      items := [];
    } else if hasTxOnly {
      items := FastPath(block);
    } else {
      items := OptimizedPath(block, calldata);
    }
    if block.txs.Some? && HashesDiffer(block.txs.value) {
      ItemsByIndex(block, calldata);
      forall i | 0 <= i < |block.txs.value|
        ensures ItemAt(block, i) in items <==> hasTxOnly || WorthKeeping(block, calldata, i)
      {
        ItemIsKeptWhen(block, calldata, i);
      }
    }
  }

  /** On the optimized path a transaction has an item exactly when it is worth keeping. */
  lemma ItemIsKeptWhen(block: BlockData, calldata: set<Address>, i: nat)
    requires block.txs.Some? && i < |block.txs.value|
    ensures ItemAt(block, i) in AllItems(block)
    ensures ItemAt(block, i) in Kept(calldata, AllItems(block)) <==> WorthKeeping(block, calldata, i)
  {
    assert AllItems(block)[i] == ItemAt(block, i);
    KeptHolds(calldata, AllItems(block), ItemAt(block, i));
  }

  lemma {:induction false} KeptHolds(calldata: set<Address>, items: seq<Item>, item: Item)
    ensures item in Kept(calldata, items) <==> item in items && Matchable(calldata, item.tx, item.logs)
  {
    if items != [] {
      KeptHolds(calldata, items[1..], item);
      assert item in items <==> item == items[0] || item in items[1..];
    }
  }

  predicate HashesDiffer(txs: seq<Transaction>) {
    forall i, j :: 0 <= i < j < |txs| ==> txs[i].hash != txs[j].hash
  }

  /** Each transaction of a block, in order, with exactly the logs and the receipt under its hash. */
  lemma {:induction false} FastItemsAre(txs: seq<Transaction>, logs: map<Hash, seq<Log>>, receipts: map<Hash, Receipt>, i: nat)
    requires HashesDiffer(txs) && i < |txs|
    ensures FastItems(txs, logs, receipts)[i] == Item(txs[i], LogsOf(logs, txs[i].hash), ReceiptOf(receipts, txs[i].hash))
  {
    var h, rest := txs[0].hash, txs[1..];
    if i > 0 {
      FastItemsAre(rest, logs - {h}, receipts - {h}, i - 1);
      assert rest[i - 1] == txs[i] && txs[i].hash != h;
      assert FastItems(txs, logs, receipts)[i] == FastItems(rest, logs - {h}, receipts - {h})[i - 1];
    }
  }

  /**
   From the node to the item: for every chunk size and completion order, each
   transaction of a fetched block is evaluated with exactly the logs the node holds
   for it, in the node's order.
   */
  lemma ItemsHoldTheirLogs(chain: BlockFetching.Chain, from: nat, fetched: seq<BlockFetching.Fetch>, n: nat,
                           txs: seq<Transaction>, receipts: map<Hash, Receipt>, i: nat)
    requires BlockFetching.AssembledFrom(chain, from, fetched) && n < |fetched|
    requires HashesDiffer(txs) && i < |txs|
    ensures FastItems(txs, fetched[n].logs, receipts)[i].logs ==
      BlockFetching.Those(chain(from + n), (l: Log) => l.txHash == Some(txs[i].hash))
  {
    BlockFetching.WithKeyIsThose(chain(from + n), BlockFetching.TxKeyOf, txs[i].hash, (l: Log) => l.txHash == Some(txs[i].hash));
    FastItemsAre(txs, fetched[n].logs, receipts, i);
    assert BlockFetching.Groups(fetched[n].logs, chain(from + n), BlockFetching.TxKeyOf);
  }

  function Kept(calldata: set<Address>, items: seq<Item>): seq<Item> {
    if items == [] then []
    else (if Matchable(calldata, items[0].tx, items[0].logs) then [items[0]] else []) + Kept(calldata, items[1..])
  }

  /** Equal hashes mean equal transactions. */
  predicate HashesNameTxs(txs: seq<Transaction>) {
    forall i, j :: 0 <= i < |txs| && 0 <= j < |txs| && txs[i].hash == txs[j].hash ==> txs[i] == txs[j]
  }

  /** Two receipt maps that differ at most for transactions that can no longer be kept. */
  predicate SameWhereItMatters(
    calldata: set<Address>, txs: seq<Transaction>, logs: map<Hash, seq<Log>>,
    full: map<Hash, Receipt>, pruned: map<Hash, Receipt>)
  {
    forall i :: 0 <= i < |txs| ==>
      ReceiptOf(full, txs[i].hash) == ReceiptOf(pruned, txs[i].hash)
      || !Matchable(calldata, txs[i], LogsOf(logs, txs[i].hash))
  }

  lemma {:induction false} PruningFilters'(
    calldata: set<Address>, txs: seq<Transaction>, logs: map<Hash, seq<Log>>,
    full: map<Hash, Receipt>, pruned: map<Hash, Receipt>)
    requires HashesNameTxs(txs) && SameWhereItMatters(calldata, txs, logs, full, pruned)
    ensures PrunedItems(calldata, txs, logs, pruned) == Kept(calldata, FastItems(txs, logs, full))
  {
    if txs != [] {
      var h, rest := txs[0].hash, txs[1..];
      var item := Item(txs[0], LogsOf(logs, h), ReceiptOf(full, h));
      var keep := Matchable(calldata, txs[0], LogsOf(logs, h));
      var pruned' := if keep then pruned - {h} else pruned;
      assert txs == [txs[0]] + rest;
      forall i | 0 <= i < |rest|
        ensures ReceiptOf(full - {h}, rest[i].hash) == ReceiptOf(pruned', rest[i].hash)
             || !Matchable(calldata, rest[i], LogsOf(logs - {h}, rest[i].hash))
      {
        assert txs[i + 1] == rest[i];
        if rest[i].hash == h {
          assert txs[i + 1] == txs[0];
        }
      }
      PruningFilters'(calldata, rest, logs - {h}, full - {h}, pruned');
      assert FastItems(txs, logs, full)[1..] == FastItems(rest, logs - {h}, full - {h});
    }
  }

  /** The optimized path outputs exactly the fast path's items that are matchable, in order. */
  lemma PruningFilters(calldata: set<Address>, txs: seq<Transaction>, logs: map<Hash, seq<Log>>, receipts: map<Hash, Receipt>)
    requires HashesNameTxs(txs)
    ensures PrunedItems(calldata, txs, logs, receipts) == Kept(calldata, FastItems(txs, logs, receipts))
  {
    PruningFilters'(calldata, txs, logs, receipts, receipts);
  }

  // --------------------------------------------------- meaning of pruning

  /** A failed item contributes nothing; the failure is only logged. */
  function ItemMatches(g: Engine, item: Item, logAware: seq<Monitor>, txAware: seq<Monitor>): seq<MonitorMatch> {
    match Evaluate(g, item, logAware, txAware)
    case Ok(found) => found
    case Err(_) => []
  }

  function BlockMatches(g: Engine, items: seq<Item>, logAware: seq<Monitor>, txAware: seq<Monitor>): seq<MonitorMatch> {
    if items == [] then []
    else ItemMatches(g, items[0], logAware, txAware) + BlockMatches(g, items[1..], logAware, txAware)
  }

  /** Every tx-aware script is false on it or its monitor has no actions, or some script fails. */
  predicate SilentOn(g: Engine, item: Item, txAware: seq<Monitor>) {
    || (exists i :: 0 <= i < |txAware| && TxVerdict(g, item, txAware[i]).Err?)
    || (forall i :: 0 <= i < |txAware| ==> TxVerdict(g, item, txAware[i]) == Ok(false) || txAware[i].actions == [])
  }

  /** The scripts are silent on every pruned item. */
  predicate PrunedAreSilent(g: Engine, calldata: set<Address>, items: seq<Item>, txAware: seq<Monitor>)
  {
    forall i :: 0 <= i < |items| && !Matchable(calldata, items[i].tx, items[i].logs) ==> SilentOn(g, items[i], txAware)
  }

  lemma SilentSplits(g: Engine, calldata: set<Address>, items: seq<Item>, txAware: seq<Monitor>)
    requires items != []
    ensures PrunedAreSilent(g, calldata, items, txAware) <==>
      (Matchable(calldata, items[0].tx, items[0].logs) || SilentOn(g, items[0], txAware))
      && PrunedAreSilent(g, calldata, items[1..], txAware)
  {
    var rest := items[1..];
    assert forall i :: 0 <= i < |rest| ==> rest[i] == items[i + 1];
    assert forall i :: 0 < i < |items| ==> items[i] == rest[i - 1];
  }

  lemma SamePrefix(here: seq<MonitorMatch>, a: seq<MonitorMatch>, b: seq<MonitorMatch>)
    ensures here + a == here + b <==> a == b
    ensures |a| <= |b| ==> (a == here + b <==> here == [] && a == b)
  {
    if here + a == here + b {
      assert (here + a)[|here|..] == a && (here + b)[|here|..] == b;
    }
    if here == [] {
      assert here + b == b;
    }
  }

  /** Without logs only the tx-aware pass runs, over all its monitors; one failing script fails the item. */
  lemma {:induction false} LoglessItemMatches(g: Engine, item: Item, txAware: seq<Monitor>)
    ensures TxPass(g, item, txAware, START).Err? <==>
      exists i :: 0 <= i < |txAware| && TxVerdict(g, item, txAware[i]).Err?
    ensures TxPass(g, item, txAware, START).Ok? ==>
      (TxPass(g, item, txAware, START).value.found == [] <==>
        forall i :: 0 <= i < |txAware| ==> TxVerdict(g, item, txAware[i]) == Ok(false) || txAware[i].actions == [])
  {
    if txAware != [] {
      var front, m := txAware[..|txAware| - 1], txAware[|txAware| - 1];
      LoglessItemMatches(g, item, front);
      assert forall i :: 0 <= i < |front| ==> front[i] == txAware[i];
      if TxPass(g, item, front, START).Err? {
        var i :| 0 <= i < |front| && TxVerdict(g, item, front[i]).Err?;
        assert TxVerdict(g, item, txAware[i]).Err?;
      } else {
        TxPassKeepsMatched(g, item, front, START);
        assert txAware[|front|] == m;
      }
    }
  }

  /** So a pruned item matches nothing iff some tx-aware script fails on it or every acting one is false. */
  lemma {:induction false} PrunedItemMatchesNothingWhen(
    g: Engine, calldata: set<Address>, item: Item, logAware: seq<Monitor>, txAware: seq<Monitor>)
    requires !Matchable(calldata, item.tx, item.logs)
    ensures ItemMatches(g, item, logAware, txAware) == [] <==> SilentOn(g, item, txAware)
  {
    LoglessItemMatches(g, item, txAware);
  }

  /**
   Evaluating the pruned block gives the same matches exactly when the scripts are
   silent on every pruned item.
   */
  lemma {:induction false} PruningKeepsMatchesExactlyWhen(
    g: Engine, calldata: set<Address>, items: seq<Item>, logAware: seq<Monitor>, txAware: seq<Monitor>)
    ensures |BlockMatches(g, Kept(calldata, items), logAware, txAware)| <= |BlockMatches(g, items, logAware, txAware)|
    ensures BlockMatches(g, Kept(calldata, items), logAware, txAware) == BlockMatches(g, items, logAware, txAware)
      <==> PrunedAreSilent(g, calldata, items, txAware)
  {
    if items != [] {
      var rest, first := items[1..], items[0];
      PruningKeepsMatchesExactlyWhen(g, calldata, rest, logAware, txAware);
      SilentSplits(g, calldata, items, txAware);
      var here := ItemMatches(g, first, logAware, txAware);
      var keptItems := Kept(calldata, rest);
      SamePrefix(here, BlockMatches(g, keptItems, logAware, txAware), BlockMatches(g, rest, logAware, txAware));
      if Matchable(calldata, first.tx, first.logs) {
        assert Kept(calldata, items) == [first] + keptItems && Kept(calldata, items)[1..] == keptItems;
      } else {
        PrunedItemMatchesNothingWhen(g, calldata, first, logAware, txAware);
        assert Kept(calldata, items) == keptItems;
      }
    }
  }

  // ------------------------------------------------- organizing the monitors

  predicate IsTxAware(m: Monitor) { m.caps.tx || m.caps.call || !m.caps.log }

  function Select(ms: seq<Monitor>, txAware: bool): seq<Monitor> {
    if ms == [] then []
    else (if (if txAware then IsTxAware(ms[0]) else ms[0].caps.log) then [ms[0]] else []) + Select(ms[1..], txAware)
  }

  function Resolve(byId: map<int, Monitor>, ids: seq<int>): seq<Monitor> {
    if ids == [] then []
    else
      var id := ids[|ids| - 1];
      Resolve(byId, ids[..|ids| - 1]) + if id in byId then [byId[id]] else []
  }

  predicate IdsDiffer(ms: seq<Monitor>) { forall i, j :: 0 <= i < j < |ms| ==> ms[i].id != ms[j].id }

  /** The lists and the map give back the monitors `ms`, by their capabilities. */
  ghost predicate Organized(ms: seq<Monitor>, byId: map<int, Monitor>, txAware: seq<int>, logAware: seq<int>) {
    && byId.Keys == (set m | m in ms :: m.id)
    && (forall id :: id in txAware || id in logAware ==> id in byId)
    && (IdsDiffer(ms) ==> Resolve(byId, txAware) == Select(ms, true) && Resolve(byId, logAware) == Select(ms, false))
  }

  lemma OrganizedOneMore(ms: seq<Monitor>, m: Monitor, byId: map<int, Monitor>, txAware: seq<int>, logAware: seq<int>)
    requires Organized(ms, byId, txAware, logAware)
    ensures Organized(ms + [m], byId[m.id := m],
      txAware + (if m.caps.tx || m.caps.call || !m.caps.log then [m.id] else []),
      logAware + (if m.caps.log then [m.id] else []))
  {
    assert forall x :: x in ms + [m] <==> x in ms || x == m;
    if IdsDiffer(ms + [m]) {
      LastIdIsNew(ms, m);
      SelectSnoc(ms, m);
      ResolvesOneMore(byId, txAware, m, m.caps.tx || m.caps.call || !m.caps.log);
      ResolvesOneMore(byId, logAware, m, m.caps.log);
    }
  }

  lemma ResolvesOneMore(byId: map<int, Monitor>, ids: seq<int>, m: Monitor, on: bool)
    requires m.id !in ids
    ensures Resolve(byId[m.id := m], ids + if on then [m.id] else []) == Resolve(byId, ids) + if on then [m] else []
  {
    LaterIdsAside(byId, ids, m);
    ResolveSnoc(byId[m.id := m], ids, m);
    assert ids + [] == ids;
  }

  lemma LastIdIsNew(ms: seq<Monitor>, m: Monitor)
    requires IdsDiffer(ms + [m])
    ensures IdsDiffer(ms) && m.id !in (set x | x in ms :: x.id)
  {
    forall i, j | 0 <= i < j < |ms| ensures ms[i].id != ms[j].id {
      assert (ms + [m])[i].id != (ms + [m])[j].id;
    }
    forall i | 0 <= i < |ms| ensures ms[i].id != m.id {
      assert (ms + [m])[i].id != (ms + [m])[|ms|].id;
    }
  }

  method HasTransactionOnly(ms: seq<Monitor>) returns (found: bool)
    ensures found <==> exists m :: m in ms && m.caps == Capabilities(true, false, false)
  {
    found := false;
    for i := 0 to |ms|
      invariant found <==> exists m :: m in ms[..i] && m.caps == Capabilities(true, false, false)
    {
      assert ms[..i + 1] == ms[..i] + [ms[i]];
      if ms[i].caps == Capabilities(true, false, false) {
        found := true;
      }
    }
    assert ms[..|ms|] == ms;
  }

  /** One monitor into the lists it belongs to; one without capabilities counts as tx-aware. */
  method Place(m: Monitor, txAware: seq<int>, logAware: seq<int>) returns (tx: seq<int>, log: seq<int>)
    ensures tx == txAware + if m.caps.tx || m.caps.call || !m.caps.log then [m.id] else []
    ensures log == logAware + if m.caps.log then [m.id] else []
  {
    tx, log := txAware, logAware;
    var isTxAware, isLogAware := m.caps.tx || m.caps.call, m.caps.log;
    if isTxAware {
      tx := tx + [m.id];
    }
    if isLogAware {
      log := log + [m.id];
    }
    if !isTxAware && !isLogAware {
      tx := tx + [m.id];
    }
  }

  /**
   Sorts the monitors into id lists and a map, from which evaluation looks them up
   again, and notes whether a pure transaction monitor is among them.
   */
  method OrganizeAssets(ms: seq<Monitor>)
    returns (byId: map<int, Monitor>, txAware: seq<int>, logAware: seq<int>, hasTxOnly: bool)
    ensures hasTxOnly <==> exists m :: m in ms && m.caps == Capabilities(true, false, false)
    ensures IdsDiffer(ms) ==> Resolve(byId, txAware) == Select(ms, true) && Resolve(byId, logAware) == Select(ms, false)
  {
    hasTxOnly := HasTransactionOnly(ms);
    byId, txAware, logAware := map[], [], [];
    for i := 0 to |ms|
      invariant Organized(ms[..i], byId, txAware, logAware)
    {
      var m := ms[i];
      assert ms[..i + 1] == ms[..i] + [m];
      OrganizedOneMore(ms[..i], m, byId, txAware, logAware);
      txAware, logAware := Place(m, txAware, logAware);
      byId := byId[m.id := m];
    }
    assert ms[..|ms|] == ms;
  }

  lemma ResolveSnoc(byId: map<int, Monitor>, ids: seq<int>, m: Monitor)
    requires m.id in byId && byId[m.id] == m
    ensures Resolve(byId, ids + [m.id]) == Resolve(byId, ids) + [m]
  {
    assert (ids + [m.id])[..|ids|] == ids;
  }

  /** A monitor with a new id leaves the lookups of the others alone. */
  lemma {:induction false} LaterIdsAside(byId: map<int, Monitor>, ids: seq<int>, m: Monitor)
    requires m.id !in ids
    ensures Resolve(byId[m.id := m], ids) == Resolve(byId, ids)
  {
    if ids != [] {
      LaterIdsAside(byId, ids[..|ids| - 1], m);
    }
  }

  lemma {:induction false} SelectSnoc(ms: seq<Monitor>, m: Monitor)
    ensures Select(ms + [m], true) == Select(ms, true) + if m.caps.tx || m.caps.call || !m.caps.log then [m] else []
    ensures Select(ms + [m], false) == Select(ms, false) + if m.caps.log then [m] else []
  {
    if ms == [] {
      assert ms + [m] == [m] && [m][1..] == [];
    } else {
      assert (ms + [m])[1..] == ms[1..] + [m];
      SelectSnoc(ms[1..], m);
    }
  }

  /** What the pipeline finds in a block with full transactions, pruning only without pure tx monitors. */
  function PipelineMatches(g: Engine, ms: seq<Monitor>, calldata: set<Address>, block: BlockData): seq<MonitorMatch>
    requires block.txs.Some?
  {
    var items := if exists m :: m in ms && m.caps == Capabilities(true, false, false) then FastItems(block.txs.value, block.logs, block.receipts)
                 else PrunedItems(calldata, block.txs.value, block.logs, block.receipts);
    BlockMatches(g, items, Select(ms, false), Select(ms, true))
  }

  /** What it would find if nothing were ever pruned. */
  function FullMatches(g: Engine, ms: seq<Monitor>, block: BlockData): seq<MonitorMatch>
    requires block.txs.Some?
  {
    BlockMatches(g, FastItems(block.txs.value, block.logs, block.receipts), Select(ms, false), Select(ms, true))
  }

  /**
   On a given block, pruning is invisible exactly when a pure transaction monitor
   exists or the scripts are silent on every transaction it removes.
   */
  lemma PipelineIsExactWhen(g: Engine, ms: seq<Monitor>, calldata: set<Address>, block: BlockData)
    requires block.txs.Some? && HashesNameTxs(block.txs.value)
    ensures var items := FastItems(block.txs.value, block.logs, block.receipts);
      PipelineMatches(g, ms, calldata, block) == FullMatches(g, ms, block) <==>
        (exists m :: m in ms && m.caps == Capabilities(true, false, false))
        || PrunedAreSilent(g, calldata, items, Select(ms, true))
  {
    PruningFilters(calldata, block.txs.value, block.logs, block.receipts);
    PruningKeepsMatchesExactlyWhen(g, calldata, FastItems(block.txs.value, block.logs, block.receipts),
                                   Select(ms, false), Select(ms, true));
  }

  const TX_MATCHES := Engine(
    (k: MatchKey) => MatchId(k), (l: Log) => None, (l: Log) => None, (t: Transaction) => None,
    (t: Transaction, r: Option<Receipt>) => "", (t: Transaction, r: Option<Receipt>) => "",
    (c: DecodedCall) => "", (j: Json) => "", (s: string, scope: Scope) => (Ok(true), scope))

  /** Pruning is invisible whatever the scripts do and whatever the block holds. */
  ghost predicate AlwaysExact(ms: seq<Monitor>, calldata: set<Address>) {
    forall g: Engine, block: BlockData ::
      RespectsConstants(g) && block.txs.Some? && HashesNameTxs(block.txs.value) ==>
        PipelineMatches(g, ms, calldata, block) == FullMatches(g, ms, block)
  }

  lemma {:induction false} SelectHolds(ms: seq<Monitor>, txAware: bool, m: Monitor)
    ensures m in Select(ms, txAware) <==>
      m in ms && if txAware then m.caps.tx || m.caps.call || !m.caps.log else m.caps.log
  {
    if ms != [] {
      SelectHolds(ms[1..], txAware, m);
      assert m in ms <==> m == ms[0] || m in ms[1..];
    }
  }

  lemma IdleIsSilent(g: Engine, calldata: set<Address>, items: seq<Item>, ms: seq<Monitor>)
    requires forall m :: m in ms && (m.caps.tx || m.caps.call || !m.caps.log) ==> m.actions == []
    ensures PrunedAreSilent(g, calldata, items, Select(ms, true))
  {
    var txAware := Select(ms, true);
    forall i | 0 <= i < |txAware| ensures txAware[i].actions == [] {
      SelectHolds(ms, true, txAware[i]);
    }
  }

  lemma ActingIsHeard(item: Item, ms: seq<Monitor>, m: Monitor)
    requires m in ms && IsTxAware(m) && m.actions != []
    ensures !SilentOn(TX_MATCHES, item, Select(ms, true))
  {
    var txAware := Select(ms, true);
    SelectHolds(ms, true, m);
    var i :| 0 <= i < |txAware| && txAware[i] == m;
    assert forall k :: 0 <= k < |txAware| ==> TxVerdict(TX_MATCHES, item, txAware[k]) == Ok(true);
    assert TxVerdict(TX_MATCHES, item, txAware[i]) == Ok(true);
  }

  /** A transaction that creates a contract and logs nothing: no calldata address can keep it. */
  const SILENT_CREATION := Transaction(seq(64, _ => 0), None, None, "")

  /**
   Which configurations are safe: pruning is always invisible exactly when a pure
   transaction monitor exists or no tx-aware monitor has an action to take.
   */
  lemma PruningIsSafeWhen(ms: seq<Monitor>, calldata: set<Address>)
    ensures AlwaysExact(ms, calldata) <==>
      (exists m :: m in ms && m.caps == Capabilities(true, false, false)) || (forall m :: m in ms && (m.caps.tx || m.caps.call || !m.caps.log) ==> m.actions == [])
  {
    var block := BlockData(0, Some([SILENT_CREATION]), map[], map[]);
    if forall m :: m in ms && (m.caps.tx || m.caps.call || !m.caps.log) ==> m.actions == [] {
      forall g: Engine, b: BlockData | RespectsConstants(g) && b.txs.Some? && HashesNameTxs(b.txs.value)
        ensures PipelineMatches(g, ms, calldata, b) == FullMatches(g, ms, b)
      {
        PipelineIsExactWhen(g, ms, calldata, b);
        IdleIsSilent(g, calldata, FastItems(b.txs.value, b.logs, b.receipts), ms);
      }
    } else if !exists m :: m in ms && m.caps == Capabilities(true, false, false) {
      var m :| m in ms && IsTxAware(m) && m.actions != [];
      var items := FastItems(block.txs.value, block.logs, block.receipts);
      assert items[0] == Item(SILENT_CREATION, [], None);
      ActingIsHeard(items[0], ms, m);
      PipelineIsExactWhen(TX_MATCHES, ms, calldata, block);
      assert !PrunedAreSilent(TX_MATCHES, calldata, items, Select(ms, true));
      assert RespectsConstants(TX_MATCHES) && HashesNameTxs(block.txs.value);
    }
  }

  const HYBRID := Monitor(1, "", [""], Capabilities(true, true, false), "", {})

  /**
   The documented fallback of a hybrid monitor to a transaction match does not
   survive pruning: alone, it misses every transaction without logs.
   */
  lemma HybridFallbackIsPruned(tx: Transaction)
    ensures var block := BlockData(0, Some([tx]), map[], map[]);
      |FullMatches(TX_MATCHES, [HYBRID], block)| == 1 && PipelineMatches(TX_MATCHES, [HYBRID], {}, block) == []
  {
    var block := BlockData(0, Some([tx]), map[], map[]);
    var item := Item(tx, [], None);
    assert FastItems([tx], map[], map[]) == [item] by {
      assert [tx][1..] == [];
    }
    assert Select([HYBRID], true) == [HYBRID] && [HYBRID][..0] == [];
    assert TxPass(TX_MATCHES, item, [], START) == Ok(START);
    var r := TxPass(TX_MATCHES, item, [HYBRID], START);
    assert r.Ok? && |r.value.found| == 1;
    assert BlockMatches(TX_MATCHES, [item], Select([HYBRID], false), [HYBRID]) == r.value.found + [] by {
      assert [item][1..] == [];
    }
    assert PrunedItems({}, [tx], map[], map[]) == [] by {
      assert [tx][1..] == [];
    }
    assert FullMatches(TX_MATCHES, [HYBRID], block) == r.value.found;
  }
}
