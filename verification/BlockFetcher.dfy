/**
 Fetching a range of blocks: the log request is split into sub-ranges that finish
 in any order, and the logs are regrouped by block and by transaction.
 */
module BlockFetching {
  import opened Prelude
  import opened MatchIds
  import opened ChainData

  /** The logs the node holds for each block, in node order; every log carries its block number. */
  type Chain = nat -> seq<Log>

  ghost predicate Stamped(chain: Chain) {
    forall n: nat, i: nat :: i < |chain(n)| ==> chain(n)[i].blockNumber == Some(n)
  }

  /** One `eth_getLogs` call. */
  function RangeLogs(chain: Chain, from: nat, to: nat): seq<Log>
    decreases 1 + to - from
  {
    if from > to then [] else chain(from) + RangeLogs(chain, from + 1, to)
  }

  // ---------------------------------------------------------------- splitting

  function SubRanges(from: nat, to: nat, chunk: nat): seq<(nat, nat)>
    requires chunk > 0
    decreases 1 + to - from
  {
    if from > to then []
    else [(from, if from + chunk - 1 <= to then from + chunk - 1 else to)] + SubRanges(from + chunk, to, chunk)
  }

  predicate Inside(r: (nat, nat), n: nat) { r.0 <= n <= r.1 }

  /** Which sub-range block `n` belongs to. */
  function Where(from: nat, chunk: nat, n: nat): nat
    requires chunk > 0
    decreases n + 1 - from
  {
    if n < from + chunk then 0 else 1 + Where(from + chunk, chunk, n)
  }

  /** The sub-ranges are nonempty, at most `chunk` long, and partition the range. */
  lemma {:induction false} SubRangesPartition(from: nat, to: nat, chunk: nat, n: nat)
    requires chunk > 0
    ensures var rs := SubRanges(from, to, chunk);
      && (forall i :: 0 <= i < |rs| ==> rs[i].0 <= rs[i].1 < rs[i].0 + chunk)
      && (from <= n <= to ==> Where(from, chunk, n) < |rs|)
      && (forall i :: 0 <= i < |rs| ==> (Inside(rs[i], n) <==> from <= n <= to && i == Where(from, chunk, n)))
    decreases 1 + to - from
  {
    if from <= to {
      SubRangesPartition(from + chunk, to, chunk, n);
      var rs, rest := SubRanges(from, to, chunk), SubRanges(from + chunk, to, chunk);
      forall i | 0 <= i < |rs|
        ensures rs[i].0 <= rs[i].1 < rs[i].0 + chunk
        ensures Inside(rs[i], n) <==> from <= n <= to && i == Where(from, chunk, n)
      {
        if i > 0 {
          assert rs[i] == rest[i - 1];
        }
      }
    }
  }

  /** The answers of all sub-range requests, one after the other as they arrive. */
  function Arrived(chain: Chain, rs: seq<(nat, nat)>, order: seq<nat>): seq<Log>
    requires forall k :: 0 <= k < |order| ==> order[k] < |rs|
  {
    if order == [] then []
    else
      var last := rs[order[|order| - 1]];
      Arrived(chain, rs, order[..|order| - 1]) + RangeLogs(chain, last.0, last.1)
  }

  /** Every request answers once. */
  predicate Completes(order: seq<nat>, count: nat) {
    Distinct(order) && (forall k :: 0 <= k < |order| ==> order[k] < count) && (forall i :: 0 <= i < count ==> i in order)
  }

  /** A chunk size of 0 asks for the whole range in one call. */
  function Unsplit(from: nat, to: nat, chunk: nat): bool {
    chunk == 0 || (if from <= to then to - from else 0) < chunk
  }

  function Fetched(chain: Chain, from: nat, to: nat, chunk: nat, order: seq<nat>): seq<Log>
    requires Unsplit(from, to, chunk) || Completes(order, |SubRanges(from, to, chunk)|)
  {
    if Unsplit(from, to, chunk) then RangeLogs(chain, from, to)
    else Arrived(chain, SubRanges(from, to, chunk), order)
  }

  // ----------------------------------------------------------------- grouping

  /** The logs with a given key, in order. */
  function WithKey<K(==)>(logs: seq<Log>, key: Log -> Option<K>, k: K): seq<Log> {
    if logs == [] then []
    else WithKey(logs[..|logs| - 1], key, k) + if key(logs[|logs| - 1]) == Some(k) then [logs[|logs| - 1]] else []
  }

  /** What grouping into a map of vectors must give. */
  ghost predicate Groups<K(!new)>(m: map<K, seq<Log>>, logs: seq<Log>, key: Log -> Option<K>) {
    forall k :: (k in m <==> WithKey(logs, key, k) != []) && (k in m ==> m[k] == WithKey(logs, key, k))
  }

  method GroupBy<K(==, !new)>(logs: seq<Log>, key: Log -> Option<K>) returns (m: map<K, seq<Log>>)
    ensures Groups(m, logs, key)
  {
    m := map[];
    for i := 0 to |logs|
      invariant Groups(m, logs[..i], key)
    {
      assert logs[..i + 1][..i] == logs[..i];
      var k := key(logs[i]);
      if k.Some? {
        m := m[k.value := (if k.value in m then m[k.value] else []) + [logs[i]]];
      }
    }
    assert logs[..|logs|] == logs;
  }

  lemma {:induction false} WithKeyConcat<K>(a: seq<Log>, b: seq<Log>, key: Log -> Option<K>, k: K)
    ensures WithKey(a + b, key, k) == WithKey(a, key, k) + WithKey(b, key, k)
  {
    if b == [] {
      assert a + b == a;
    } else {
      assert (a + b)[..|a + b| - 1] == a + b[..|b| - 1];
      WithKeyConcat(a, b[..|b| - 1], key, k);
    }
  }

  /** The logs that satisfy `p`, in order. */
  function Those(logs: seq<Log>, p: Log -> bool): seq<Log> {
    if logs == [] then []
    else Those(logs[..|logs| - 1], p) + if p(logs[|logs| - 1]) then [logs[|logs| - 1]] else []
  }

  lemma {:induction false} WithKeyIsThose<K>(logs: seq<Log>, key: Log -> Option<K>, k: K, p: Log -> bool)
    requires forall l :: p(l) <==> key(l) == Some(k)
    ensures WithKey(logs, key, k) == Those(logs, p)
  {
    if logs != [] {
      WithKeyIsThose(logs[..|logs| - 1], key, k, p);
    }
  }

  function BlockKey(l: Log): Option<nat> { l.blockNumber }

  function TxKeyOf(l: Log): Option<Hash> { l.txHash }

  lemma {:induction false} AllOrNothing(logs: seq<Log>, n: nat, n': nat)
    requires forall i :: 0 <= i < |logs| ==> logs[i].blockNumber == Some(n')
    ensures WithKey(logs, BlockKey, n) == if n == n' then logs else []
  {
    if logs != [] {
      AllOrNothing(logs[..|logs| - 1], n, n');
    }
  }

  lemma OneMoreBlock(here: seq<Log>, rest: seq<Log>, from: nat, n: nat)
    requires forall i :: 0 <= i < |here| ==> here[i].blockNumber == Some(from)
    ensures WithKey(here + rest, BlockKey, n) == (if n == from then here else []) + WithKey(rest, BlockKey, n)
  {
    WithKeyConcat(here, rest, BlockKey, n);
    AllOrNothing(here, n, from);
  }

  lemma {:induction false} RangeHoldsBlock(chain: Chain, from: nat, to: nat, n: nat)
    requires Stamped(chain)
    ensures WithKey(RangeLogs(chain, from, to), BlockKey, n) == if from <= n <= to then chain(n) else []
    decreases 1 + to - from
  {
    if from <= to {
      var here, rest := chain(from), RangeLogs(chain, from + 1, to);
      assert forall i :: 0 <= i < |here| ==> here[i].blockNumber == Some(from);
      OneMoreBlock(here, rest, from, n);
      RangeHoldsBlock(chain, from + 1, to, n);
    }
  }

  lemma {:induction false} ArrivedHoldsBlock(chain: Chain, rs: seq<(nat, nat)>, order: seq<nat>, n: nat, home: nat)
    requires Stamped(chain) && Distinct(order) && forall k :: 0 <= k < |order| ==> order[k] < |rs|
    requires forall i :: 0 <= i < |rs| && Inside(rs[i], n) ==> i == home
    ensures WithKey(Arrived(chain, rs, order), BlockKey, n) ==
      if home in order && home < |rs| && Inside(rs[home], n) then chain(n) else []
  {
    if order != [] {
      var front, last := order[..|order| - 1], order[|order| - 1];
      ArrivedHoldsBlock(chain, rs, front, n, home);
      RangeHoldsBlock(chain, rs[last].0, rs[last].1, n);
      WithKeyConcat(Arrived(chain, rs, front), RangeLogs(chain, rs[last].0, rs[last].1), BlockKey, n);
      assert home in order <==> home in front || home == last;
      assert last !in front;
    }
  }

  /**
   Whatever the chunk size and the completion order, each block of the range gets
   exactly its logs, in node order, and no other block gets any.
   */
  lemma EveryBlockGetsItsLogs(chain: Chain, from: nat, to: nat, chunk: nat, order: seq<nat>, n: nat)
    requires Stamped(chain)
    requires Unsplit(from, to, chunk) || Completes(order, |SubRanges(from, to, chunk)|)
    ensures WithKey(Fetched(chain, from, to, chunk, order), BlockKey, n) ==
      if from <= n <= to then chain(n) else []
  {
    if Unsplit(from, to, chunk) {
      RangeHoldsBlock(chain, from, to, n);
    } else {
      var rs := SubRanges(from, to, chunk);
      SubRangesPartition(from, to, chunk, n);
      ArrivedHoldsBlock(chain, rs, order, n, Where(from, chunk, n));
    }
  }

  /** One block with its logs grouped by transaction. */
  datatype Fetch = Fetch(number: nat, logs: map<Hash, seq<Log>>)

  /**
   Blocks arrive in order; the range's logs arrive in any order. Each block is put
   together with exactly its own logs, those of one transaction in node order.
   */
  method FetchBlocksConcurrent(chain: Chain, from: nat, to: nat, chunk: nat, order: seq<nat>) returns (r: seq<Fetch>)
    requires Stamped(chain)
    requires Unsplit(from, to, chunk) || Completes(order, |SubRanges(from, to, chunk)|)
    ensures |r| == if from <= to then to + 1 - from else 0
    ensures AssembledFrom(chain, from, r)
  {
    var rangeLogs := Fetched(chain, from, to, chunk, order);
    var logsByBlock := GroupBy(rangeLogs, BlockKey);
    ghost var grouped := logsByBlock;
    r := [];
    var blocks := Range(from, to + 1);
    for i := 0 to |blocks|
      invariant |r| == i && AssembledFrom(chain, from, r)
      invariant forall n :: from + i <= n ==> LogsAt(logsByBlock, n) == LogsAt(grouped, n)
    {
      var n := blocks[i];
      GroupHoldsBlock(chain, from, to, chunk, order, grouped, n);
      var f := Assemble(chain, n, LogsAt(logsByBlock, n));
      logsByBlock := logsByBlock - {n};
      AssembledOneMore(chain, from, r, f);
      r := r + [f];
    }
  }

  /** One block and its logs, grouped by transaction. */
  method Assemble(chain: Chain, n: nat, logs: seq<Log>) returns (f: Fetch)
    requires logs == chain(n)
    ensures f.number == n && Groups(f.logs, chain(n), TxKeyOf)
  {
    var byTx := GroupBy(logs, TxKeyOf);
    f := Fetch(n, byTx);
  }

  lemma AssembledOneMore(chain: Chain, from: nat, r: seq<Fetch>, f: Fetch)
    requires AssembledFrom(chain, from, r)
    requires f.number == from + |r| && Groups(f.logs, chain(f.number), TxKeyOf)
    ensures AssembledFrom(chain, from, r + [f])
  {
  }

  function LogsAt(m: map<nat, seq<Log>>, n: nat): seq<Log> { if n in m then m[n] else [] }

  /** Consecutive blocks from `from`, each with its logs grouped by transaction. */
  ghost predicate AssembledFrom(chain: Chain, from: nat, r: seq<Fetch>) {
    forall i :: 0 <= i < |r| ==> r[i].number == from + i && Groups(r[i].logs, chain(from + i), TxKeyOf)
  }

  lemma GroupHoldsBlock(chain: Chain, from: nat, to: nat, chunk: nat, order: seq<nat>, grouped: map<nat, seq<Log>>, n: nat)
    requires Stamped(chain) && from <= n <= to
    requires Unsplit(from, to, chunk) || Completes(order, |SubRanges(from, to, chunk)|)
    requires Groups(grouped, Fetched(chain, from, to, chunk, order), BlockKey)
    ensures LogsAt(grouped, n) == chain(n)
  {
    EveryBlockGetsItsLogs(chain, from, to, chunk, order, n);
  }
}
