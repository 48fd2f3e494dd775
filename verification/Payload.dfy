/** Monitor matches, the payloads made of them, and the idempotency key of a payload. */
module Payloads {
  import opened Prelude
  import opened MatchIds

  /** JSON values are carried around but never looked into here. */
  type Json = string

  datatype MatchData =
    | LogMatch(address: int, logIndex: nat, name: string, params: Json, tx: Json)
    | TxMatch(details: Json)

  datatype MonitorMatch = MonitorMatch(
    id: string, monitorId: int, monitorName: string, actionName: string, blockNumber: nat,
    txHash: Hash, data: MatchData, decodedCall: Option<Json>)

  function KeyOf(m: MonitorMatch): MatchKey {
    if m.data.LogMatch? then LogKey(m.monitorId, m.actionName, m.txHash, m.data.logIndex)
    else TxKey(m.monitorId, m.actionName, m.txHash)
  }

  /** The only way the program makes a match: the id is computed from the other fields. */
  function Build(format: MatchKey -> string, monitorId: int, monitorName: string, actionName: string,
                 blockNumber: nat, txHash: Hash, data: MatchData, decodedCall: Option<Json>): MonitorMatch
  {
    var m := MonitorMatch("", monitorId, monitorName, actionName, blockNumber, txHash, data, decodedCall);
    m.(id := format(KeyOf(m)))
  }

  /** The match carries the id its fields determine. */
  predicate Built(m: MonitorMatch) { m.id == MatchId(KeyOf(m)) }

  /** Equal ids mean the same monitor, action and transaction, and both no log or the same log index. */
  lemma SameIdSameEvent(a: MonitorMatch, b: MonitorMatch)
    requires Built(a) && Built(b)
    ensures a.id == b.id <==>
      && a.monitorId == b.monitorId && a.actionName == b.actionName && a.txHash == b.txHash
      && (a.data.TxMatch? <==> b.data.TxMatch?) && (a.data.LogMatch? ==> a.data.logIndex == b.data.logIndex)
  {
    IdInjective(KeyOf(a), KeyOf(b));
  }

  datatype Payload =
    | Single(m: MonitorMatch)
    | Aggregated(action: string, matches: seq<MonitorMatch>, template: string)

  function ActionOf(p: Payload): string {
    match p
    case Single(m) => m.actionName
    case Aggregated(a, _, _) => a
  }

  // ------------------------------------------------------- canonical id order

  /** Lexicographic order, as strings compare. */
  predicate Leq(a: string, b: string) {
    a == [] || (b != [] && (a[0] < b[0] || (a[0] == b[0] && Leq(a[1..], b[1..]))))
  }

  lemma {:induction false} LeqTotal(a: string, b: string)
    ensures Leq(a, b) || Leq(b, a)
    ensures Leq(a, b) && Leq(b, a) ==> a == b
  {
    if a != [] && b != [] && a[0] == b[0] {
      LeqTotal(a[1..], b[1..]);
      assert a == [a[0]] + a[1..] && b == [b[0]] + b[1..];
    }
  }

  lemma {:induction false} LeqTransitive(a: string, b: string, c: string)
    requires Leq(a, b) && Leq(b, c)
    ensures Leq(a, c)
  {
    if a != [] && a[0] == b[0] == c[0] {
      LeqTransitive(a[1..], b[1..], c[1..]);
    }
  }

  predicate Ordered(s: seq<string>) {
    forall i, j :: 0 <= i < j < |s| ==> Leq(s[i], s[j])
  }

  function Insert(x: string, s: seq<string>): (r: seq<string>)
    ensures multiset(r) == multiset{x} + multiset(s)
  {
    if s == [] then [x]
    else if Leq(x, s[0]) then [x] + s
    else
      var r := [s[0]] + Insert(x, s[1..]);
      assert s == [s[0]] + s[1..];
      r
  }

  function Sorted(s: seq<string>): (r: seq<string>)
    ensures multiset(r) == multiset(s)
  {
    if s == [] then []
    else
      assert s == [s[0]] + s[1..];
      Insert(s[0], Sorted(s[1..]))
  }

  lemma {:induction false} InsertKeepsOrder(x: string, s: seq<string>)
    requires Ordered(s)
    ensures Ordered(Insert(x, s))
  {
    if s != [] {
      LeqTotal(x, s[0]);
      if Leq(x, s[0]) {
        forall j | 0 <= j < |s| ensures Leq(x, s[j]) {
          if j > 0 { LeqTransitive(x, s[0], s[j]); }
        }
      } else {
        InsertKeepsOrder(x, s[1..]);
        var rest := Insert(x, s[1..]);
        forall j | 0 <= j < |rest| ensures Leq(s[0], rest[j]) {
          assert rest[j] in multiset(rest);
        }
      }
    }
  }

  lemma {:induction false} SortedIsOrdered(s: seq<string>)
    ensures Ordered(Sorted(s))
  {
    if s != [] {
      SortedIsOrdered(s[1..]);
      InsertKeepsOrder(s[0], Sorted(s[1..]));
    }
  }

  /** An ordered sequence is determined by its elements, so any sorting routine gives `Sorted`. */
  lemma {:induction false} OrderedIsUnique(a: seq<string>, b: seq<string>)
    requires Ordered(a) && Ordered(b) && multiset(a) == multiset(b)
    ensures a == b
  {
    if a == [] {
      assert |multiset(b)| == 0;
    } else {
      assert |multiset(a)| == |a| && |multiset(b)| == |b|;
      HeadIsLeast(a, b);
      assert a == [a[0]] + a[1..] && b == [b[0]] + b[1..];
      assert multiset(a[1..]) == multiset(a) - multiset{a[0]};
      assert multiset(b[1..]) == multiset(b) - multiset{b[0]};
      OrderedIsUnique(a[1..], b[1..]);
    }
  }

  lemma HeadIsLeast(a: seq<string>, b: seq<string>)
    requires Ordered(a) && Ordered(b) && multiset(a) == multiset(b) && a != [] && b != []
    ensures a[0] == b[0]
  {
    assert a[0] in multiset(b) && b[0] in multiset(a);
    var i :| 0 <= i < |b| && b[i] == a[0];
    var j :| 0 <= j < |a| && a[j] == b[0];
    LeqTotal(a[0], b[0]);
  }

  // --------------------------------------------------------- idempotency key

  /** A streaming hasher whose inside is unknown: start state, feed one string, read 64 bits. */
  datatype Hasher<!H> = Hasher(start: H, feed: (H, string) -> H, finish: H -> nat)

  function FeedAll<H>(hs: Hasher<H>, ids: seq<string>): H {
    if ids == [] then hs.start else hs.feed(FeedAll(hs, ids[..|ids| - 1]), ids[|ids| - 1])
  }

  function Ids(ms: seq<MonitorMatch>): (r: seq<string>)
    ensures |r| == |ms| && forall i :: 0 <= i < |ms| ==> r[i] == ms[i].id
  {
    seq(|ms|, i requires 0 <= i < |ms| => ms[i].id)
  }

  function Digest<H>(hs: Hasher<H>, ms: seq<MonitorMatch>): nat {
    hs.finish(FeedAll(hs, Sorted(Ids(ms))))
  }

  function IdempotencyKey<H>(hs: Hasher<H>, p: Payload): string {
    match p
    case Single(m) => m.id
    case Aggregated(_, ms, _) => "agg-" + Numeral(Digest(hs, ms), 16)
  }

  /** `states` are what the hasher goes through when it is fed `ids`, one after the other. */
  ghost predicate Feeds<H>(hs: Hasher<H>, ids: seq<string>, states: seq<H>) {
    && |states| == |ids| + 1 && states[0] == hs.start
    && forall i :: 0 <= i < |ids| ==> states[i + 1] == hs.feed(states[i], ids[i])
  }

  lemma {:induction false} FeedAllIsLast<H>(hs: Hasher<H>, ids: seq<string>, states: seq<H>)
    requires Feeds(hs, ids, states)
    ensures FeedAll(hs, ids) == states[|ids|]
  {
    if ids != [] {
      FeedAllIsLast(hs, ids[..|ids| - 1], states[..|ids|]);
    }
  }

  lemma {:induction false} FeedStates<H>(hs: Hasher<H>, ids: seq<string>) returns (states: seq<H>)
    ensures Feeds(hs, ids, states)
  {
    if ids == [] {
      states := [hs.start];
    } else {
      var before := FeedStates(hs, ids[..|ids| - 1]);
      states := before + [hs.feed(before[|ids| - 1], ids[|ids| - 1])];
    }
  }

  /** The hashing loop of the program, over the ids in sorted order. */
  method ComputeKey<H(!new)>(hs: Hasher<H>, p: Payload) returns (key: string)
    ensures key == IdempotencyKey(hs, p)
    ensures p.Single? ==> key == p.m.id
    ensures p.Aggregated? ==>
      forall ids: seq<string>, states: seq<H> ::
        Ordered(ids) && multiset(ids) == multiset(Ids(p.matches)) && Feeds(hs, ids, states) ==>
          key == "agg-" + Numeral(hs.finish(states[|ids|]), 16)
  {
    match p {
      case Single(m) => key := m.id;
      case Aggregated(_, ms, _) =>
        var ids := Sorted(Ids(ms));
        var state := hs.start;
        for i := 0 to |ids|
          invariant state == FeedAll(hs, ids[..i])
        {
          assert ids[..i + 1][..i] == ids[..i];
          state := hs.feed(state, ids[i]);
        }
        assert ids[..|ids|] == ids;
        key := "agg-" + Numeral(hs.finish(state), 16);
        forall sorted: seq<string>, states: seq<H>
          | Ordered(sorted) && multiset(sorted) == multiset(Ids(ms)) && Feeds(hs, sorted, states)
          ensures key == "agg-" + Numeral(hs.finish(states[|sorted|]), 16)
        {
          KeyIsTheHash(hs, p, sorted, states);
        }
    }
  }

  /** The key is the hash, in hexadecimal, of the ids fed in sorted order. */
  lemma KeyIsTheHash<H>(hs: Hasher<H>, p: Payload, ids: seq<string>, states: seq<H>)
    requires p.Aggregated? && Ordered(ids) && multiset(ids) == multiset(Ids(p.matches)) && Feeds(hs, ids, states)
    ensures IdempotencyKey(hs, p) == "agg-" + Numeral(hs.finish(states[|ids|]), 16)
  {
    SortedIsOrdered(Ids(p.matches));
    OrderedIsUnique(ids, Sorted(Ids(p.matches)));
    FeedAllIsLast(hs, ids, states);
  }

  /** Two different sorted lists leave the hasher in states with the same digest. */
  ghost predicate Collides<H(!new)>(hs: Hasher<H>) {
    exists a: seq<string>, b: seq<string>, s: seq<H>, t: seq<H> ::
      Ordered(a) && Ordered(b) && a != b && Feeds(hs, a, s) && Feeds(hs, b, t)
      && hs.finish(s[|a|]) == hs.finish(t[|b|])
  }

  /** A hasher that forgets nothing: not the program's 64-bit one, but the best there could be. */
  ghost predicate Perfect<H(!new)>(hs: Hasher<H>) {
    && (forall h, x, h', x' :: hs.feed(h, x) == hs.feed(h', x') ==> h == h' && x == x')
    && (forall h, x :: hs.feed(h, x) != hs.start)
    && (forall h, h' :: hs.finish(h) == hs.finish(h') ==> h == h')
  }

  lemma LastFed<H>(hs: Hasher<H>, ids: seq<string>, states: seq<H>)
    requires Feeds(hs, ids, states)
    ensures ids == [] ==> states[0] == hs.start
    ensures ids != [] ==> states[|ids|] == hs.feed(states[|ids| - 1], ids[|ids| - 1])
  {
    if ids != [] {
      var i := |ids| - 1;
      assert states[i + 1] == hs.feed(states[i], ids[i]);
    }
  }

  lemma {:induction false} PerfectFeedsDiffer<H(!new)>(
    hs: Hasher<H>, a: seq<string>, b: seq<string>, s: seq<H>, t: seq<H>)
    requires Perfect(hs) && Feeds(hs, a, s) && Feeds(hs, b, t) && s[|a|] == t[|b|]
    ensures a == b
  {
    LastFed(hs, a, s);
    LastFed(hs, b, t);
    if a != [] && b != [] {
      var i, j := |a| - 1, |b| - 1;
      PerfectFeedsDiffer(hs, a[..i], b[..j], s[..i + 1], t[..j + 1]);
      assert a == a[..i] + [a[i]] && b == b[..j] + [b[j]];
    }
  }

  lemma PerfectNeverCollides<H(!new)>(hs: Hasher<H>)
    ensures Perfect(hs) ==> !Collides(hs)
  {
    if Perfect(hs) && Collides(hs) {
      var a: seq<string>, b: seq<string>, s: seq<H>, t: seq<H> :|
        Ordered(a) && Ordered(b) && a != b && Feeds(hs, a, s) && Feeds(hs, b, t)
        && hs.finish(s[|a|]) == hs.finish(t[|b|]);
      PerfectFeedsDiffer(hs, a, b, s, t);
      assert false;
    }
  }

  /**
   Two aggregated payloads share a key if their ids agree as multisets, in any order;
   and only then, unless the hasher collides, which a perfect one never does.
   */
  lemma AggregateKeyIsCanonical<H(!new)>(hs: Hasher<H>, a: Payload, b: Payload)
    requires a.Aggregated? && b.Aggregated?
    ensures multiset(Ids(a.matches)) == multiset(Ids(b.matches)) ==> IdempotencyKey(hs, a) == IdempotencyKey(hs, b)
    ensures IdempotencyKey(hs, a) == IdempotencyKey(hs, b) ==>
      multiset(Ids(a.matches)) == multiset(Ids(b.matches)) || Collides(hs)
    ensures Perfect(hs) ==>
      (IdempotencyKey(hs, a) == IdempotencyKey(hs, b) <==> multiset(Ids(a.matches)) == multiset(Ids(b.matches)))
  {
    var x, y := Sorted(Ids(a.matches)), Sorted(Ids(b.matches));
    SortedIsOrdered(Ids(a.matches));
    SortedIsOrdered(Ids(b.matches));
    if multiset(x) == multiset(y) {
      OrderedIsUnique(x, y);
    } else {
      DifferentIdsDifferOrCollide(hs, a, b, x, y);
    }
    PerfectNeverCollides(hs);
  }

  lemma DifferentIdsDifferOrCollide<H(!new)>(hs: Hasher<H>, a: Payload, b: Payload, x: seq<string>, y: seq<string>)
    requires a.Aggregated? && Ordered(x) && multiset(x) == multiset(Ids(a.matches))
    requires b.Aggregated? && Ordered(y) && multiset(y) == multiset(Ids(b.matches)) && x != y
    ensures IdempotencyKey(hs, a) != IdempotencyKey(hs, b) || Collides(hs)
  {
    var s := FeedStates(hs, x);
    var t := FeedStates(hs, y);
    KeyIsTheHash(hs, a, x, s);
    KeyIsTheHash(hs, b, y, t);
    NumeralRoundTrip(hs.finish(s[|x|]), 16);
    NumeralRoundTrip(hs.finish(t[|y|]), 16);
    assert IdempotencyKey(hs, a)[4..] == Numeral(hs.finish(s[|x|]), 16);
    assert IdempotencyKey(hs, b)[4..] == Numeral(hs.finish(t[|y|]), 16);
  }

  /** A single payload and an aggregated one never share a key, so neither can suppress the other. */
  lemma SingleAndAggregateKeysDiffer<H>(hs: Hasher<H>, a: Payload, b: Payload)
    requires a.Single? && Built(a.m) && b.Aggregated?
    ensures IdempotencyKey(hs, a) != IdempotencyKey(hs, b)
  {
    AggregateKeyIsNoMatchId(KeyOf(a.m), Numeral(Digest(hs, b.matches), 16));
  }
}
