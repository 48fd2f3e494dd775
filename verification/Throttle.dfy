/** The fixed-window throttle and what it guarantees about any sliding window. */
module Throttling {
  import opened Prelude

  /** At most `maxCount` notifications per `window`; times are whole ticks. */
  datatype Policy = Policy(maxCount: nat, window: nat)

  datatype ThrottleState = ThrottleState(count: nat, windowStart: int)

  /** The state the limit test sees: created on first use, reset once the window has expired. */
  function Refreshed(p: Policy, st: Option<ThrottleState>, now: int): ThrottleState {
    var s := if st.Some? then st.value else ThrottleState(0, now);
    if now > s.windowStart + p.window then ThrottleState(0, now) else s
  }

  function Allows(p: Policy, st: Option<ThrottleState>, now: int): bool {
    Refreshed(p, st, now).count < p.maxCount
  }

  function Step(p: Policy, st: Option<ThrottleState>, now: int): ThrottleState {
    var s := Refreshed(p, st, now);
    if s.count < p.maxCount then s.(count := s.count + 1) else s
  }

  function Run(p: Policy, st: Option<ThrottleState>, ts: seq<int>): Option<ThrottleState>
    decreases |ts|
  {
    if ts == [] then st else Run(p, Some(Step(p, st, ts[0])), ts[1..])
  }

  /** Dispatch attempts among the calls at times `ts` that fall in the closed interval `[a, b]`. */
  function Attempts(p: Policy, st: Option<ThrottleState>, ts: seq<int>, a: int, b: int): nat
    decreases |ts|
  {
    if ts == [] then 0
    else (if a <= ts[0] <= b && Allows(p, st, ts[0]) then 1 else 0)
         + Attempts(p, Some(Step(p, st, ts[0])), ts[1..], a, b)
  }

  predicate NonDecreasing(ts: seq<int>) {
    forall i, j :: 0 <= i < j < |ts| ==> ts[i] <= ts[j]
  }

  /** Unused part of the current window. */
  function Left(p: Policy, s: ThrottleState): nat {
    if s.count < p.maxCount then p.maxCount - s.count else 0
  }

  lemma {:induction false} NothingAfter(p: Policy, st: Option<ThrottleState>, ts: seq<int>, a: int, b: int)
    requires forall i :: 0 <= i < |ts| ==> ts[i] > b
    ensures Attempts(p, st, ts, a, b) == 0
    decreases |ts|
  {
    if ts != [] {
      NothingAfter(p, Some(Step(p, st, ts[0])), ts[1..], a, b);
    }
  }

  /** A window that reaches to within `k` further windows of `b` leaves room for `k` refills. */
  lemma {:induction false} RefillBound(p: Policy, s: ThrottleState, ts: seq<int>, a: int, b: int, k: nat)
    requires NonDecreasing(ts) && b <= s.windowStart + (k + 1) * p.window
    ensures Attempts(p, Some(s), ts, a, b) <= Left(p, s) + k * p.maxCount
    decreases |ts|
  {
    if ts != [] {
      var t, next := ts[0], Step(p, Some(s), ts[0]);
      if t > b {
        NothingAfter(p, Some(s), ts, a, b);
      } else if t > s.windowStart + p.window {
        assert k == 0 ==> (k + 1) * p.window == p.window;
        assert (k + 1) * p.window == k * p.window + p.window;
        RefillBound(p, next, ts[1..], a, b, k - 1);
        assert k * p.maxCount == (k - 1) * p.maxCount + p.maxCount;
      } else {
        RefillBound(p, next, ts[1..], a, b, k);
      }
    }
  }

  /**
   The sliding-window bound: for any earlier state, even one restored from the
   database, and nondecreasing clock readings, a closed interval of `k` windows
   holds at most `(k + 1) * maxCount` dispatch attempts.
   */
  lemma {:induction false} SlidingWindowBound(p: Policy, st: Option<ThrottleState>, ts: seq<int>, a: int, k: nat)
    requires NonDecreasing(ts)
    ensures Attempts(p, st, ts, a, a + k * p.window) <= (k + 1) * p.maxCount
    decreases |ts|
  {
    var b := a + k * p.window;
    assert (k + 1) * p.maxCount == k * p.maxCount + p.maxCount;
    if ts != [] {
      var t := ts[0];
      if t < a {
        SlidingWindowBound(p, Some(Step(p, st, t)), ts[1..], a, k);
      } else if t > b {
        NothingAfter(p, st, ts, a, b);
      } else {
        var s := Refreshed(p, st, t);
        SameFromRefreshed(p, st, ts, a, b);
        assert (k + 1) * p.window == k * p.window + p.window;
        RefillBound(p, s, ts, a, b, k);
      }
    }
  }

  lemma SameFromRefreshed(p: Policy, st: Option<ThrottleState>, ts: seq<int>, a: int, b: int)
    requires ts != []
    ensures Attempts(p, st, ts, a, b) == Attempts(p, Some(Refreshed(p, st, ts[0])), ts, a, b)
    ensures Refreshed(p, st, ts[0]).windowStart + p.window >= ts[0]
  {
  }

  lemma {:induction false} RunSnoc(p: Policy, st: Option<ThrottleState>, ts: seq<int>, t: int, a: int, b: int)
    ensures Run(p, st, ts + [t]) == Some(Step(p, Run(p, st, ts), t))
    ensures Attempts(p, st, ts + [t], a, b) ==
      Attempts(p, st, ts, a, b) + if a <= t <= b && Allows(p, Run(p, st, ts), t) then 1 else 0
    decreases |ts|
  {
    if ts == [] {
      assert ts + [t] == [t] && [t][1..] == [];
    } else {
      assert (ts + [t])[1..] == ts[1..] + [t];
      RunSnoc(p, Some(Step(p, st, ts[0])), ts[1..], t, a, b);
    }
  }

  lemma {:induction false} NothingOutside(p: Policy, st: Option<ThrottleState>, ts: seq<int>, a: int, b: int)
    requires forall i :: 0 <= i < |ts| ==> ts[i] < a
    ensures Attempts(p, st, ts, a, b) == 0
    decreases |ts|
  {
    if ts != [] {
      NothingOutside(p, Some(Step(p, st, ts[0])), ts[1..], a, b);
    }
  }

  /** What the stored state says after the calls at `ts`, seen at `now`. */
  predicate CountsWindow(p: Policy, ts: seq<int>, now: int)
    requires ts != []
  {
    Run(p, None, ts).Some?
    && var s := Run(p, None, ts).value;
       && s.windowStart <= ts[|ts| - 1] <= s.windowStart + p.window
       && s.count == Attempts(p, None, ts, s.windowStart, now) <= p.maxCount
  }

  lemma NewWindowCounts(p: Policy, front: seq<int>, t: int, now: int)
    requires t <= now && forall i :: 0 <= i < |front| ==> front[i] < t
    requires Run(p, None, front).Some? ==> t > Run(p, None, front).value.windowStart + p.window
    ensures CountsWindow(p, front + [t], now)
  {
    RunSnoc(p, None, front, t, t, now);
    NothingOutside(p, None, front, t, now);
  }

  lemma SameWindowCounts(p: Policy, front: seq<int>, t: int, now: int)
    requires front != [] && CountsWindow(p, front, now) && front[|front| - 1] <= t <= now
    requires t <= Run(p, None, front).value.windowStart + p.window
    ensures CountsWindow(p, front + [t], now)
  {
    RunSnoc(p, None, front, t, Run(p, None, front).value.windowStart, now);
  }

  lemma FrontIsEarlier(ts: seq<int>)
    requires NonDecreasing(ts) && ts != []
    ensures var front, t := ts[..|ts| - 1], ts[|ts| - 1];
      && ts == front + [t] && NonDecreasing(front)
      && (forall i :: 0 <= i < |front| ==> front[i] <= t)
      && (front != [] ==> forall i :: 0 <= i < |front| ==> front[i] <= front[|front| - 1])
  {
  }

  lemma OneMoreCounts(p: Policy, front: seq<int>, t: int, now: int)
    requires front != [] && CountsWindow(p, front, now) && front[|front| - 1] <= t <= now
    requires forall i :: 0 <= i < |front| ==> front[i] <= front[|front| - 1]
    ensures CountsWindow(p, front + [t], now)
  {
    if t > Run(p, None, front).value.windowStart + p.window {
      NewWindowCounts(p, front, t, now);
    } else {
      SameWindowCounts(p, front, t, now);
    }
  }

  /** The stored counter is the number of attempts since the window began, never above the limit. */
  lemma {:induction false} CounterIsWindowUse(p: Policy, ts: seq<int>, now: int)
    requires NonDecreasing(ts) && ts != [] && ts[|ts| - 1] <= now
    ensures CountsWindow(p, ts, now)
    decreases |ts|
  {
    var front, t := ts[..|ts| - 1], ts[|ts| - 1];
    FrontIsEarlier(ts);
    if front == [] {
      NewWindowCounts(p, front, t, now);
    } else {
      CounterIsWindowUse(p, front, now);
      OneMoreCounts(p, front, t, now);
    }
  }

  /**
   A match is dropped exactly when the current, unexpired window has already used
   its whole allowance; in particular `maxCount` attempts then lie within the last
   `window` ticks.
   */
  lemma DroppedExactlyWhenWindowIsUsedUp(p: Policy, ts: seq<int>, now: int)
    requires NonDecreasing(ts + [now])
    ensures var st := Run(p, None, ts);
      !Allows(p, st, now) <==>
        p.maxCount == 0 ||
        (st.Some? && now <= st.value.windowStart + p.window
         && Attempts(p, None, ts, st.value.windowStart, now) == p.maxCount)
    ensures !Allows(p, Run(p, None, ts), now) ==> Attempts(p, None, ts, now - p.window, now) >= p.maxCount
  {
    if ts != [] {
      assert ts[|ts| - 1] == (ts + [now])[|ts| - 1] && (ts + [now])[|ts|] == now;
      assert NonDecreasing(ts) by {
        forall i, j | 0 <= i < j < |ts| ensures ts[i] <= ts[j] {
          assert (ts + [now])[i] <= (ts + [now])[j];
        }
      }
      CounterIsWindowUse(p, ts, now);
      var s := Run(p, None, ts).value;
      if now <= s.windowStart + p.window {
        WiderHoldsMore(p, None, ts, s.windowStart, now - p.window, now);
      }
    }
  }

  lemma {:induction false} WiderHoldsMore(p: Policy, st: Option<ThrottleState>, ts: seq<int>, a: int, a': int, b: int)
    requires a' <= a
    ensures Attempts(p, st, ts, a, b) <= Attempts(p, st, ts, a', b)
    decreases |ts|
  {
    if ts != [] {
      WiderHoldsMore(p, Some(Step(p, st, ts[0])), ts[1..], a, a', b);
    }
  }

  // ------------------------------------------------------ the exact worst case

  /**
   The most attempts that a closed interval of `length` ticks can hold when the
   throttle starts without a stored state.
   */
  function Worst(p: Policy, length: nat): nat {
    var q, r := length / (p.window + 1), length % (p.window + 1);
    if p.maxCount == 0 then 0
    else if r == 0 then (q + 1) * p.maxCount
    else (q + 2) * p.maxCount - 1
  }

  /** How many whole windows, each a tick apart, begin within `d` ticks after the current one began. */
  function Refills(p: Policy, d: int): nat {
    if d < 0 then 0 else d / (p.window + 1)
  }

  lemma TimesKeepsOrder(n: nat, x: int, y: int)
    ensures x <= y ==> n * x <= n * y
  {
  }

  lemma RefillOnce(p: Policy, d: int, e: int)
    requires e <= d - (p.window + 1) && e >= 0
    ensures Refills(p, e) + 1 <= Refills(p, d)
  {
    var n := p.window + 1;
    assert e == n * (e / n) + e % n && d == n * (d / n) + d % n;
    TimesKeepsOrder(n, d / n, e / n);
  }

  lemma RefillsGrow(p: Policy, d: int, e: int)
    requires e <= d
    ensures Refills(p, e) <= Refills(p, d)
  {
    var n := p.window + 1;
    if e >= 0 {
      assert e == n * (e / n) + e % n && d == n * (d / n) + d % n;
      assert n * (d / n + 1) == n * (d / n) + n;
      TimesKeepsOrder(n, d / n + 1, e / n);
    }
  }

  lemma RefillPays(p: Policy, d: int, e: int)
    requires 0 <= e <= d - (p.window + 1)
    ensures p.maxCount + Refills(p, e) * p.maxCount <= Refills(p, d) * p.maxCount
  {
    RefillOnce(p, d, e);
    MoreRefills(p.maxCount, Refills(p, e) + 1, Refills(p, d));
  }

  lemma {:induction false} ExactRefillBound(p: Policy, s: ThrottleState, ts: seq<int>, a: int, b: int)
    requires NonDecreasing(ts)
    ensures Attempts(p, Some(s), ts, a, b) <= Left(p, s) + Refills(p, b - s.windowStart) * p.maxCount
    decreases |ts|
  {
    if ts != [] {
      var t, next := ts[0], Step(p, Some(s), ts[0]);
      if t > b {
        NothingAfter(p, Some(s), ts, a, b);
      } else if t > s.windowStart + p.window {
        ExactRefillBound(p, next, ts[1..], a, b);
        RefillPays(p, b - s.windowStart, b - t);
      } else {
        ExactRefillBound(p, next, ts[1..], a, b);
      }
    }
  }

  lemma MoreRefills(max: nat, m: nat, n: nat)
    requires m <= n
    ensures m * max <= n * max
    ensures m > 0 ==> m * max == (m - 1) * max + max
  {
  }

  /** The two ways an interval can be filled: starting with a new window, or inside one that has begun before. */
  lemma WorstCovers(p: Policy, length: nat)
    requires p.maxCount >= 1
    ensures p.maxCount + Refills(p, length) * p.maxCount <= Worst(p, length)
    ensures p.maxCount - 1 + Refills(p, length + p.window) * p.maxCount <= Worst(p, length)
  {
    var n := p.window + 1;
    var q, r := length / n, length % n;
    assert length == n * q + r;
    if r == 0 {
      assert length + p.window == n * q + p.window;
      QuotientIs(length + p.window, n, q, p.window);
    } else {
      assert length + p.window == n * (q + 1) + (r - 1);
      QuotientIs(length + p.window, n, q + 1, r - 1);
    }
    MoreRefills(p.maxCount, q + 1, q + 2);
    MoreRefills(p.maxCount, q + 2, q + 2);
  }

  lemma QuotientIs(x: nat, n: nat, q: nat, r: nat)
    requires n > 0 && x == n * q + r && r < n
    ensures x / n == q && x % n == r
  {
    var q' := x / n;
    assert x == n * q' + x % n && n * (q' + 1) == n * q' + n && n * (q + 1) == n * q + n;
    TimesKeepsOrder(n, q' + 1, q);
    TimesKeepsOrder(n, q + 1, q');
  }

  /** Every state of a run has used its window at least once, at the very moment it began. */
  predicate Begun(st: Option<ThrottleState>, before: int) {
    st.Some? ==> st.value.count >= 1 && st.value.windowStart < before
  }

  lemma {:induction false} WorstIsNotExceeded'(p: Policy, st: Option<ThrottleState>, ts: seq<int>, a: int, length: nat)
    requires p.maxCount >= 1 && NonDecreasing(ts) && Begun(st, a)
    ensures Attempts(p, st, ts, a, a + length) <= Worst(p, length)
    decreases |ts|
  {
    var b := a + length;
    WorstCovers(p, length);
    if ts != [] {
      var t := ts[0];
      if t < a {
        WorstIsNotExceeded'(p, Some(Step(p, st, t)), ts[1..], a, length);
      } else if t > b {
        NothingAfter(p, st, ts, a, b);
      } else {
        var s := Refreshed(p, st, t);
        SameFromRefreshed(p, st, ts, a, b);
        ExactRefillBound(p, s, ts, a, b);
        if s.count == 0 {
          RefillsGrow(p, length, b - s.windowStart);
          MoreRefills(p.maxCount, Refills(p, b - s.windowStart), Refills(p, length));
        } else {
          RefillsGrow(p, length + p.window, b - s.windowStart);
          MoreRefills(p.maxCount, Refills(p, b - s.windowStart), Refills(p, length + p.window));
        }
      }
    }
  }

  lemma {:induction false} NoAttemptWithoutLimit(p: Policy, st: Option<ThrottleState>, ts: seq<int>, a: int, b: int)
    requires p.maxCount == 0
    ensures Attempts(p, st, ts, a, b) == 0
    decreases |ts|
  {
    if ts != [] {
      NoAttemptWithoutLimit(p, Some(Step(p, st, ts[0])), ts[1..], a, b);
    }
  }

  /** From a fresh start no closed interval of `length` ticks holds more than `Worst` attempts. */
  lemma {:induction false} WorstIsNotExceeded(p: Policy, ts: seq<int>, a: int, length: nat)
    requires NonDecreasing(ts)
    ensures Attempts(p, None, ts, a, a + length) <= Worst(p, length)
  {
    if p.maxCount == 0 {
      NoAttemptWithoutLimit(p, None, ts, a, a + length);
    } else {
      WorstIsNotExceeded'(p, None, ts, a, length);
    }
  }

  function Repeat(t: int, n: nat): (ts: seq<int>)
    ensures |ts| == n && forall i :: 0 <= i < n ==> ts[i] == t
  {
    seq(n, _ => t)
  }

  /** `n` full windows, each used up at once and begun as soon as the one before has expired. */
  function Volleys(p: Policy, start: int, n: nat): seq<int>
    decreases n
  {
    if n == 0 then [] else Repeat(start, p.maxCount) + Volleys(p, start + p.window + 1, n - 1)
  }

  lemma {:induction false} VolleysAscend(p: Policy, start: int, n: nat)
    ensures NonDecreasing(Volleys(p, start, n))
    ensures forall i :: 0 <= i < |Volleys(p, start, n)| ==> Volleys(p, start, n)[i] >= start
    decreases n
  {
    if n > 0 {
      VolleysAscend(p, start + p.window + 1, n - 1);
    }
  }

  /** `n` calls at one time `t` that all fit into the current window. */
  lemma {:induction false} BurstAttempts(p: Policy, s: ThrottleState, t: int, n: nat, rest: seq<int>, a: int, b: int)
    requires s.count + n <= p.maxCount && t <= s.windowStart + p.window && a <= t <= b
    ensures Attempts(p, Some(s), Repeat(t, n) + rest, a, b) ==
      n + Attempts(p, Some(s.(count := s.count + n)), rest, a, b)
    decreases n
  {
    if n == 0 {
      assert Repeat(t, 0) + rest == rest;
    } else {
      var ts := Repeat(t, n) + rest;
      assert ts[0] == t && ts[1..] == Repeat(t, n - 1) + rest;
      BurstAttempts(p, s.(count := s.count + 1), t, n - 1, rest, a, b);
    }
  }

  /** The throttle has no state yet, or its window has expired at `t`. */
  predicate Ready(p: Policy, st: Option<ThrottleState>, t: int) {
    st.Some? ==> t > st.value.windowStart + p.window
  }

  lemma {:induction false} VolleysAttempt(p: Policy, st: Option<ThrottleState>, start: int, n: nat, a: int, b: int)
    requires p.maxCount >= 1 && Ready(p, st, start) && a <= start
    requires n > 0 ==> start + (n - 1) * (p.window + 1) <= b
    ensures Attempts(p, st, Volleys(p, start, n), a, b) == n * p.maxCount
    decreases n
  {
    if n > 0 {
      var rest := Volleys(p, start + p.window + 1, n - 1);
      VolleyProducts(n, p.window + 1, p.maxCount);
      SameFromRefreshed(p, st, Volleys(p, start, n), a, b);
      BurstAttempts(p, ThrottleState(0, start), start, p.maxCount, rest, a, b);
      VolleysAttempt(p, Some(ThrottleState(p.maxCount, start)), start + p.window + 1, n - 1, a, b);
    }
  }

  lemma VolleyProducts(n: nat, width: nat, max: nat)
    requires n > 0
    ensures (n - 1) * width >= 0 && n * max == (n - 1) * max + max
    ensures n > 1 ==> (n - 1) * width == (n - 2) * width + width
  {
  }

  /** One call before time `a`, the rest of its window at `a`, then `n` full windows. */
  function LateFirstWindow(p: Policy, a: int, n: nat): seq<int>
    requires p.maxCount >= 1
  {
    [0] + (Repeat(a, p.maxCount - 1) + Volleys(p, p.window + 1, n))
  }

  lemma LateWindowAscends(p: Policy, a: int, n: nat)
    requires p.maxCount >= 1 && 1 <= a <= p.window
    ensures NonDecreasing(LateFirstWindow(p, a, n))
  {
    VolleysAscend(p, p.window + 1, n);
  }

  lemma LateWindowAttempts(p: Policy, a: int, b: int, n: nat)
    requires p.maxCount >= 1 && 1 <= a <= p.window && a <= b
    requires n > 0 ==> p.window + 1 + (n - 1) * (p.window + 1) <= b
    ensures Attempts(p, None, LateFirstWindow(p, a, n), a, b) == n * p.maxCount + p.maxCount - 1
  {
    var ts, volleys := LateFirstWindow(p, a, n), Volleys(p, p.window + 1, n);
    assert ts[1..] == Repeat(a, p.maxCount - 1) + volleys;
    BurstAttempts(p, ThrottleState(1, 0), a, p.maxCount - 1, volleys, a, b);
    VolleysAttempt(p, Some(ThrottleState(p.maxCount, 0)), p.window + 1, n, a, b);
  }

  lemma WorstIs(p: Policy, length: nat, q: nat, r: nat)
    requires p.maxCount >= 1 && q == length / (p.window + 1) && r == length % (p.window + 1)
    ensures length == q * (p.window + 1) + r && r <= p.window
    ensures Worst(p, length) == (q + 1) * p.maxCount + if r == 0 then 0 else p.maxCount - 1
  {
    assert (q + 2) * p.maxCount == (q + 1) * p.maxCount + p.maxCount;
  }

  /** And some run attains it, for every policy and every length. */
  lemma {:induction false} WorstIsReached(p: Policy, length: nat) returns (ts: seq<int>, a: int)
    ensures NonDecreasing(ts) && Attempts(p, None, ts, a, a + length) == Worst(p, length)
  {
    if p.maxCount == 0 {
      ts, a := [], 0;
    } else {
      var q, r := length / (p.window + 1), length % (p.window + 1);
      WorstIs(p, length, q, r);
      if r == 0 {
        ts, a := Volleys(p, 0, q + 1), 0;
        VolleysAscend(p, 0, q + 1);
        VolleysAttempt(p, None, 0, q + 1, a, a + length);
      } else {
        a := p.window + 1 - r;
        ts := LateFirstWindow(p, a, q + 1);
        LateWindowAscends(p, a, q + 1);
        LateWindowAttempts(p, a, a + length, q + 1);
      }
    }
  }

  lemma WholeLengths(w: nat, k: nat)
    requires k >= 1
    ensures k * w >= 0 && (k * w) / (w + 1) < k
    ensures w >= k ==> (k * w) / (w + 1) == k - 1 && (k * w) % (w + 1) == w + 1 - k
  {
    var n, length := w + 1, k * w;
    assert n * k == length + k;
    if w >= k {
      assert n * (k - 1) == n * k - n;
      QuotientIs(length, n, k - 1, n - k);
    } else {
      TimesKeepsOrder(n, k, length / n);
    }
  }

  lemma WorstBelow(p: Policy, length: nat, k: nat)
    requires p.maxCount >= 1 && length / (p.window + 1) < k
    ensures Worst(p, length) <= (k + 1) * p.maxCount - 1
    ensures length / (p.window + 1) == k - 1 && length % (p.window + 1) > 0 ==>
      Worst(p, length) == (k + 1) * p.maxCount - 1
  {
    var q, r := length / (p.window + 1), length % (p.window + 1);
    WorstIs(p, length, q, r);
    MoreRefills(p.maxCount, q + 1, k);
    MoreRefills(p.maxCount, k + 1, k + 1);
  }

  /** Over `k` window lengths the worst case stays one below `(k + 1) * maxCount`, and meets that for windows of `k` ticks or more. */
  lemma WorstOfWholeLengths(p: Policy, k: nat)
    requires p.maxCount >= 1 && k >= 1
    ensures k * p.window >= 0 && Worst(p, k * p.window) <= (k + 1) * p.maxCount - 1
    ensures p.window >= k ==> Worst(p, k * p.window) == (k + 1) * p.maxCount - 1
  {
    WholeLengths(p.window, k);
    WorstBelow(p, k * p.window, k);
  }

  function InOneWindow(p: Policy, ts: seq<int>, a: int): nat {
    Attempts(p, None, ts, a, a + p.window)
  }

  /** The limit as it is documented: never more than `maxCount` in any interval of one window length. */
  ghost predicate KeepsDocumentedLimit(p: Policy) {
    forall ts, a :: NonDecreasing(ts) ==> InOneWindow(p, ts, a) <= p.maxCount
  }

  /** The code keeps it exactly for limits of at most one, and for windows of no length. */
  lemma LimitIsPerWindow(p: Policy)
    ensures KeepsDocumentedLimit(p) <==> p.maxCount <= 1 || p.window == 0
  {
    assert p.window / (p.window + 1) == 0 && p.window % (p.window + 1) == p.window;
    if p.maxCount <= 1 || p.window == 0 {
      forall ts, a | NonDecreasing(ts) ensures InOneWindow(p, ts, a) <= p.maxCount {
        WorstIsNotExceeded(p, ts, a, p.window);
      }
    } else {
      var ts, a := WorstIsReached(p, p.window);
      assert InOneWindow(p, ts, a) == 2 * p.maxCount - 1;
    }
  }
}
