/**
 The text id of a monitor match. Its uniqueness is what every later duplicate
 check relies on; here it is proved by giving a decoder.
 */
module MatchIds {
  import opened Prelude

  // -------------------------------------------------------------- numerals

  type Digit = d: int | 0 <= d < 16
  type Base = b: int | b == 10 || b == 16 witness 10

  function DigitChar(d: Digit): (c: char)
    ensures '0' <= c <= '9' || 'a' <= c <= 'f'
    ensures DigitValue(c) == d
  {
    if d < 10 then ('0' as int + d) as char else ('a' as int + d - 10) as char
  }

  function DigitValue(c: char): int {
    if '0' <= c <= '9' then c as int - '0' as int else c as int - 'a' as int + 10
  }

  /** The shortest numeral of `n`, lower-case for hexadecimal. */
  function Numeral(n: nat, base: Base): (s: string)
    ensures s != [] && forall c :: c in s ==> '0' <= c <= '9' || 'a' <= c <= 'f'
    ensures base == 10 ==> forall c :: c in s ==> '0' <= c <= '9'
  {
    if n < base then [DigitChar(n)] else Numeral(n / base, base) + [DigitChar(n % base)]
  }

  function NumeralValue(s: string, base: Base): int {
    if s == [] then 0 else base * NumeralValue(s[..|s| - 1], base) + DigitValue(s[|s| - 1])
  }

  lemma ValueSnoc(s: string, c: char, base: Base)
    ensures NumeralValue(s + [c], base) == base * NumeralValue(s, base) + DigitValue(c)
  {
    assert (s + [c])[..|s|] == s;
  }

  lemma {:induction false} NumeralRoundTrip(n: nat, base: Base)
    ensures NumeralValue(Numeral(n, base), base) == n
  {
    if n < base {
      ValueSnoc([], DigitChar(n), base);
      assert [] + [DigitChar(n)] == Numeral(n, base);
    } else {
      ValueSnoc(Numeral(n / base, base), DigitChar(n % base), base);
      NumeralRoundTrip(n / base, base);
    }
  }

  /** A transaction hash as its 64 hexadecimal digits. */
  type Hash = h: seq<Digit> | |h| == 64 witness seq(64, _ => 0)

  function HexDigits(h: seq<Digit>): (s: string)
    ensures |s| == |h| && forall c :: c in s ==> '0' <= c <= '9' || 'a' <= c <= 'f'
    ensures forall i :: 0 <= i < |h| ==> DigitValue(s[i]) == h[i]
  {
    if h == [] then [] else [DigitChar(h[0])] + HexDigits(h[1..])
  }

  function HashText(h: Hash): (s: string)
    ensures |s| == 66 && s[1] == 'x' && '-' !in s
  {
    "0x" + HexDigits(h)
  }

  function SignedNumeral(n: int): string {
    if n < 0 then "-" + Numeral(-n, 10) else Numeral(n, 10)
  }

  // --------------------------------------------------------------- the id

  /** What identifies a match: monitor, action, transaction and, for a log match, the log. */
  datatype MatchKey =
    | TxKey(monitor: int, action: string, hash: Hash)
    | LogKey(monitor: int, action: string, hash: Hash, logIndex: nat)

  function MatchId(k: MatchKey): string {
    SignedNumeral(k.monitor) + "-" + IdTail(k)
  }

  /** Everything behind the monitor id and its dash. */
  function IdTail(k: MatchKey): string {
    match k
    case TxKey(_, a, h) => a + "-" + HashText(h)
    case LogKey(_, a, h, i) => a + "-" + HashText(h) + "-" + Numeral(i, 10)
  }

  // ------------------------------------------------------------ the decoder

  function FirstDash(s: string): (i: nat)
    ensures i <= |s|
  {
    if s == [] || s[0] == '-' then 0 else 1 + FirstDash(s[1..])
  }

  function LastDash(s: string): (i: nat)
    ensures i <= |s|
  {
    if s == [] then 0 else if s[|s| - 1] == '-' then |s| - 1 else LastDash(s[..|s| - 1])
  }

  function DecodeHash(s: string): seq<int> {
    seq(|s|, i requires 0 <= i < |s| => DigitValue(s[i]))
  }

  /** Raw decoded fields; the hash is not yet known to be one. */
  datatype Decoded = Decoded(monitor: int, action: string, hash: seq<int>, logIndex: Option<int>)

  /** Splits `s` at its last dash. */
  function SplitLast(s: string): (string, string) {
    var i := LastDash(s);
    (s[..i], if i < |s| then s[i + 1..] else [])
  }

  function DecodeTail(s: string): (string, seq<int>, Option<int>) {
    var (front, last) := SplitLast(s);
    if |last| > 1 && last[1] == 'x' then (front, DecodeHash(last[2..]), None)
    else
      var (action, hash) := SplitLast(front);
      (action, DecodeHash(if |hash| > 2 then hash[2..] else []), Some(NumeralValue(last, 10)))
  }

  function DecodeUnsigned(s: string): Decoded {
    var i := FirstDash(s);
    var (action, hash, logIndex) := DecodeTail(if i < |s| then s[i + 1..] else []);
    Decoded(NumeralValue(s[..i], 10), action, hash, logIndex)
  }

  function DecodeId(s: string): Decoded {
    if s != [] && s[0] == '-' then
      var d := DecodeUnsigned(s[1..]);
      d.(monitor := -d.monitor)
    else DecodeUnsigned(s)
  }

  function Fields(k: MatchKey): Decoded {
    match k
    case TxKey(m, a, h) => Decoded(m, a, h, None)
    case LogKey(m, a, h, i) => Decoded(m, a, h, Some(i))
  }

  lemma {:induction false} FirstDashAt(a: string, b: string)
    requires '-' !in a
    ensures FirstDash(a + "-" + b) == |a|
  {
    if a != [] {
      assert (a + "-" + b)[1..] == a[1..] + "-" + b;
      FirstDashAt(a[1..], b);
    }
  }

  lemma {:induction false} SplitLastAt(a: string, b: string)
    requires '-' !in b
    ensures SplitLast(a + "-" + b) == (a, b)
  {
    LastDashAt(a, b);
    var s := a + "-" + b;
    assert s[..|a|] == a && s[|a| + 1..] == b;
  }

  lemma {:induction false} LastDashAt(a: string, b: string)
    requires '-' !in b
    ensures LastDash(a + "-" + b) == |a|
  {
    if b != [] {
      var s := a + "-" + b;
      assert s[|s| - 1] == b[|b| - 1] && s[..|s| - 1] == a + "-" + b[..|b| - 1];
      LastDashAt(a, b[..|b| - 1]);
    }
  }

  lemma HashRoundTrip(h: Hash)
    ensures DecodeHash(HashText(h)[2..]) == h
  {
    assert HashText(h)[2..] == HexDigits(h);
  }

  lemma TailRoundTrip(k: MatchKey)
    ensures var f := Fields(k); DecodeTail(IdTail(k)) == (f.action, f.hash, f.logIndex)
  {
    HashRoundTrip(k.hash);
    var text := HashText(k.hash);
    SplitLastAt(k.action, text);
    if k.LogKey? {
      var number := Numeral(k.logIndex, 10);
      NumeralRoundTrip(k.logIndex, 10);
      SplitLastAt(k.action + "-" + text, number);
      assert |number| > 1 ==> number[1] in number;
    }
  }

  lemma UnsignedRoundTrip(n: nat, k: MatchKey)
    ensures DecodeUnsigned(Numeral(n, 10) + "-" + IdTail(k)) == Fields(k).(monitor := n)
  {
    var number, tail := Numeral(n, 10), IdTail(k);
    NumeralRoundTrip(n, 10);
    TailRoundTrip(k);
    FirstDashAt(number, tail);
    var s := number + "-" + tail;
    assert s[..|number|] == number && s[|number| + 1..] == tail;
  }

  lemma DecodeSign(u: string)
    requires u != [] && u[0] != '-'
    ensures DecodeId(u) == DecodeUnsigned(u)
    ensures DecodeId("-" + u) == DecodeUnsigned(u).(monitor := -DecodeUnsigned(u).monitor)
  {
    assert ("-" + u)[1..] == u;
  }

  lemma IdShape(k: MatchKey)
    ensures var u := Numeral(if k.monitor < 0 then -k.monitor else k.monitor, 10) + "-" + IdTail(k);
      MatchId(k) == (if k.monitor < 0 then "-" + u else u) && u != [] && '0' <= u[0] <= '9'
  {
    var number := Numeral(if k.monitor < 0 then -k.monitor else k.monitor, 10);
    assert number[0] in number;
    assert "-" + number + "-" + IdTail(k) == "-" + (number + "-" + IdTail(k));
  }

  /** The decoder recovers every field, whatever dashes the action name holds. */
  lemma IdRoundTrip(k: MatchKey)
    ensures DecodeId(MatchId(k)) == Fields(k)
  {
    var n := if k.monitor < 0 then -k.monitor else k.monitor;
    IdShape(k);
    UnsignedRoundTrip(n, k);
    DecodeSign(Numeral(n, 10) + "-" + IdTail(k));
  }

  /** Two matches share an id exactly when they agree on everything that identifies them. */
  lemma IdInjective(a: MatchKey, b: MatchKey)
    ensures MatchId(a) == MatchId(b) <==> a == b
  {
    IdRoundTrip(a);
    IdRoundTrip(b);
  }

  /** The `agg-` keys of aggregated payloads can never collide with a match id. */
  lemma AggregateKeyIsNoMatchId(k: MatchKey, digest: string)
    ensures MatchId(k) != "agg-" + digest
  {
    IdShape(k);
    assert MatchId(k)[0] != 'a' == ("agg-" + digest)[0];
  }
}
