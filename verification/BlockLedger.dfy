/** Which blocks the pipeline has missed, over all its process lives. */
module BlockLedger {
  import opened Prelude
  import opened BlockProtocol

  /** The life of the process that moved the cursor past `b`: the last one that began at or below it. */
  function PassingLife(starts: seq<nat>, b: nat): (l: nat)
    requires starts != [] && starts[0] <= b
    ensures l < |starts| && starts[l] <= b
    ensures l + 1 < |starts| ==> b < starts[l + 1]
  {
    var last := |starts| - 1;
    if starts[last] <= b then last else PassingLife(starts[..last], b)
  }

  /** Life `l` settled every block it passed: handed off exactly if not dropped. */
  predicate Settled(s: System, l: nat)
    requires l + 1 < |s.starts|
  {
    forall b :: s.starts[l] <= b < s.starts[l + 1] ==> (Entry(l, b) in s.log <==> Entry(l, b) !in s.dropped)
  }

  predicate LivesInv(c0: nat, s: System) {
    && |s.starts| == s.life + 1 && s.starts[0] == c0 + 1 && s.starts[s.life] == s.lifeStart
    && forall i, j :: 0 <= i <= j < |s.starts| ==> s.starts[i] <= s.starts[j]
  }

  predicate EntriesInv(s: System)
    requires |s.starts| == s.life + 1
  {
    forall e :: e in s.log ==> e.life <= s.life && s.starts[e.life] <= e.block
  }

  predicate PastInv(c0: nat, s: System) {
    LivesInv(c0, s) && EntriesInv(s) && forall l :: 0 <= l < s.life ==> Settled(s, l)
  }

  lemma StepDropsInThisLife(cfg: Config, s: System, e: Event)
    requires Enabled(cfg, s, e)
    ensures forall x: Entry :: x.life != s.life ==> (x in Next(cfg, s, e).dropped <==> x in s.dropped)
  {
  }

  lemma StepHandsInThisLife(cfg: Config, c0: nat, s: System, e: Event)
    requires Inv(cfg, c0, s) && Enabled(cfg, s, e)
    ensures var t := Next(cfg, s, e);
      s.log <= t.log && forall x :: x in t.log ==> x in s.log || (x.life == s.life && x.block >= s.lifeStart)
  {
    if e == Process(HandOff) {
      assert InFlight(s)[0] == s.proc.dispatch.rest[0];
    }
  }

  /** A step other than a restart writes history for the current life only. */
  lemma StepWritesThisLife(cfg: Config, c0: nat, s: System, e: Event)
    requires Inv(cfg, c0, s) && Enabled(cfg, s, e) && e != Restart
    ensures var t := Next(cfg, s, e);
      && t.starts == s.starts && t.life == s.life && t.lifeStart == s.lifeStart
      && s.log <= t.log && (forall x :: x in t.log ==> x in s.log || (x.life == s.life && x.block >= s.lifeStart))
      && (forall x: Entry :: x.life != s.life ==> (x in t.dropped <==> x in s.dropped))
  {
    StepDropsInThisLife(cfg, s, e);
    StepHandsInThisLife(cfg, c0, s, e);
  }

  lemma SettledStays(s: System, t: System, l: nat)
    requires l + 1 < |s.starts| && l != s.life && Settled(s, l)
    requires |t.starts| >= |s.starts| && t.starts[l] == s.starts[l] && t.starts[l + 1] == s.starts[l + 1]
    requires forall x: Entry :: x.life != s.life ==> (x in t.log <==> x in s.log) && (x in t.dropped <==> x in s.dropped)
    ensures Settled(t, l)
  {
  }

  lemma RestartSettles(cfg: Config, c0: nat, s: System)
    requires Inv(cfg, c0, s) && LivesInv(c0, s)
    ensures LivesInv(c0, Next(cfg, s, Restart)) && Settled(Next(cfg, s, Restart), s.life)
  {
    var t := Next(cfg, s, Restart);
    forall b | t.starts[s.life] <= b < t.starts[s.life + 1]
      ensures Entry(s.life, b) in t.log <==> Entry(s.life, b) !in t.dropped
    {
      assert Fate(s, b - s.lifeStart);
    }
  }

  lemma StepKeepsPast(cfg: Config, c0: nat, s: System, e: Event)
    requires Inv(cfg, c0, s) && PastInv(c0, s) && Enabled(cfg, s, e)
    ensures PastInv(c0, Next(cfg, s, e))
  {
    var t := Next(cfg, s, e);
    if e == Restart {
      RestartSettles(cfg, c0, s);
      forall l | 0 <= l < s.life ensures Settled(t, l) {
        assert Settled(s, l);
      }
    } else {
      StepWritesThisLife(cfg, c0, s, e);
      forall l | 0 <= l < t.life ensures Settled(t, l) {
        assert Settled(s, l);
        SettledStays(s, t, l);
      }
    }
  }

  lemma {:induction false} RunKeepsPast(cfg: Config, c0: nat, s: System, es: seq<Event>)
    requires Inv(cfg, c0, s) && PastInv(c0, s) && Legal(cfg, s, es)
    ensures PastInv(c0, Exec(cfg, s, es))
    decreases |es|
  {
    if es != [] {
      StepKeepsInv(cfg, c0, s, es[0]);
      StepKeepsPast(cfg, c0, s, es[0]);
      RunKeepsPast(cfg, c0, Next(cfg, s, es[0]), es[1..]);
    }
  }

  /** In whatever life the cursor was moved past a block, that life handed it off exactly if it did not drop it. */
  lemma EveryLifeSettles(cfg: Config, c0: nat, es: seq<Event>, b: nat)
    requires Legal(cfg, Start(c0), es) && c0 < b <= Exec(cfg, Start(c0), es).cursor
    ensures var s := Exec(cfg, Start(c0), es);
      && LivesInv(c0, s) && EntriesInv(s)
      && var passed := Entry(PassingLife(s.starts, b), b); (passed in s.log <==> passed !in s.dropped)
  {
    RunKeepsPast(cfg, c0, Start(c0), es);
    var s := Exec(cfg, Start(c0), es);
    var l := PassingLife(s.starts, b);
    if l == s.life {
      LifeLedger(cfg, c0, es, b);
    } else {
      assert Settled(s, l);
    }
  }

  /**
   What was missed: a block the cursor has passed was never handed off exactly when
   the life that passed it dropped it and no earlier life had handed it off.
   */
  lemma MissedExactlyWhen(cfg: Config, c0: nat, es: seq<Event>, b: nat)
    requires Legal(cfg, Start(c0), es) && c0 < b <= Exec(cfg, Start(c0), es).cursor
    ensures var s := Exec(cfg, Start(c0), es);
      && LivesInv(c0, s)
      && var l := PassingLife(s.starts, b);
         !WasHanded(s, b) <==> Entry(l, b) in s.dropped && forall k :: 0 <= k < l ==> Entry(k, b) !in s.log
  {
    EveryLifeSettles(cfg, c0, es, b);
    var s := Exec(cfg, Start(c0), es);
    var l := PassingLife(s.starts, b);
    forall k: nat | Entry(k, b) in s.log ensures k <= l && WasHanded(s, b) {
      var i :| 0 <= i < |s.log| && s.log[i] == Entry(k, b);
    }
    if WasHanded(s, b) {
      var i :| 0 <= i < |s.log| && s.log[i].block == b;
      assert s.log[i] == Entry(s.log[i].life, b) && s.log[i] in s.log;
    }
  }
}
