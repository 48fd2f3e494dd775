/** How the two services and the whole pipeline fit together, and that the pipeline can always move on. */
module BlockRuns {
  import opened Prelude
  import opened BlockProtocol
  import BlockIngestion
  import BlockProcessing

  function IngestPart(es: seq<Event>): seq<IngestEvent> {
    if es == [] then []
    else
      var e := es[|es| - 1];
      if e.Ingest? then IngestPart(es[..|es| - 1]) + [e.i] else IngestPart(es[..|es| - 1])
  }

  function ProcessPart(es: seq<Event>): seq<ProcessEvent> {
    if es == [] then []
    else
      var e := es[|es| - 1];
      if e.Process? then ProcessPart(es[..|es| - 1]) + [e.p] else ProcessPart(es[..|es| - 1])
  }

  function Blocks(log: seq<Entry>): seq<nat> {
    seq(|log|, k requires 0 <= k < |log| => log[k].block)
  }

  /** Blocks the processor took from the raw channel. */
  function Received(ps: seq<ProcessEvent>): seq<nat> {
    if ps == [] then []
    else
      var e := ps[|ps| - 1];
      Received(ps[..|ps| - 1]) + if e.Receive? then [e.block] else []
  }

  lemma LegalSnoc(cfg: Config, s: System, es: seq<Event>)
    requires es != []
    ensures var front, last := es[..|es| - 1], es[|es| - 1];
      && (Legal(cfg, s, es) <==> Legal(cfg, s, front) && Enabled(cfg, Exec(cfg, s, front), last))
      && (Legal(cfg, s, es) ==> Exec(cfg, s, es) == Next(cfg, Exec(cfg, s, front), last))
  {
    var front, last := es[..|es| - 1], es[|es| - 1];
    assert es == front + [last];
    if Legal(cfg, s, es) {
      LegalPrefix(cfg, s, front, [last]);
    }
    if Legal(cfg, s, front) {
      ExecAppend(cfg, s, front, [last]);
      assert [last][1..] == [];
    }
  }

  lemma {:induction false} LegalPrefix(cfg: Config, s: System, xs: seq<Event>, ys: seq<Event>)
    requires Legal(cfg, s, xs + ys)
    ensures Legal(cfg, s, xs)
    decreases |xs|
  {
    if xs != [] {
      assert (xs + ys)[1..] == xs[1..] + ys;
      LegalPrefix(cfg, Next(cfg, s, xs[0]), xs[1..], ys);
    }
  }

  // ---------------------------------------- the system is its services, joined

  /** What the ingestor service has sent in the run `past`. */
  function SentBy(cfg: Config, past: seq<Event>): seq<nat> {
    var tr := BlockIngestion.Trace(cfg, IngestPart(past));
    if tr.Some? then tr.value.1 else []
  }

  /** The cursor the processor service has stored in the run `past`. */
  function StoredBy(cfg: Config, c0: nat, past: seq<Event>): nat {
    var tr := BlockProcessing.Trace(cfg, c0, ProcessPart(past));
    if tr.Some? then tr.value.cursor else c0
  }

  /** What joins the services: the raw channel with its bound, the stored cursor, shutdown and the closed channel. */
  predicate Links(cfg: Config, c0: nat, past: seq<Event>, e: Event) {
    var sent, taken := SentBy(cfg, past), Received(ProcessPart(past));
    match e
    case Ingest(ReadCursor(c)) => c == Some(StoredBy(cfg, c0, past))
    case Ingest(SendBlock) => |sent| < |taken| + 2 * cfg.chunk
    case Process(Receive(b)) => Process(Flush) !in past && |taken| < |sent| && b == sent[|taken|]
    case Process(Flush) => Process(Flush) !in past
    case Process(HandOff) => CloseDownstream !in past
    case Process(HandOffClosed) => CloseDownstream in past
    case Restart => false
    case _ => true
  }

  predicate Joined(cfg: Config, c0: nat, es: seq<Event>) {
    es == [] || (Joined(cfg, c0, es[..|es| - 1]) && Links(cfg, c0, es[..|es| - 1], es[|es| - 1]))
  }

  /** Each service by itself makes a run of its own. */
  predicate ServicesRun(cfg: Config, c0: nat, es: seq<Event>) {
    BlockIngestion.Trace(cfg, IngestPart(es)).Some? && BlockProcessing.Trace(cfg, c0, ProcessPart(es)).Some?
  }

  /** The system state shows what the two services did. */
  predicate Mirrors(cfg: Config, c0: nat, es: seq<Event>, s: System) {
    && ServicesRun(cfg, c0, es)
    && var i, f := BlockIngestion.Trace(cfg, IngestPart(es)).value, BlockProcessing.Trace(cfg, c0, ProcessPart(es)).value;
       && i.0 == s.ing && i.1 == Received(ProcessPart(es)) + s.raw
       && Shows(f, s) && (s.closed <==> CloseDownstream in es) && (s.stopped <==> Process(Flush) in es)
  }

  lemma PartsSnoc(front: seq<Event>, e: Event)
    ensures IngestPart(front + [e]) == if e.Ingest? then IngestPart(front) + [e.i] else IngestPart(front)
    ensures ProcessPart(front + [e]) == if e.Process? then ProcessPart(front) + [e.p] else ProcessPart(front)
    ensures Received(ProcessPart(front + [e])) ==
      Received(ProcessPart(front)) + if e.Process? && e.p.Receive? then [e.p.block] else []
  {
    assert (front + [e])[..|front|] == front;
    if e.Process? {
      assert (ProcessPart(front) + [e.p])[..|ProcessPart(front)|] == ProcessPart(front);
    }
  }

  lemma IngestJoins(cfg: Config, c0: nat, front: seq<Event>, s: System, i: IngestEvent)
    requires Mirrors(cfg, c0, front, s)
    ensures Enabled(cfg, s, Ingest(i)) <==>
      ServicesRun(cfg, c0, front + [Ingest(i)]) && Links(cfg, c0, front, Ingest(i))
  {
    PartsSnoc(front, Ingest(i));
    BlockIngestion.TraceSnoc(cfg, IngestPart(front), i);
  }

  lemma IngestMirrors(cfg: Config, c0: nat, front: seq<Event>, s: System, i: IngestEvent)
    requires Mirrors(cfg, c0, front, s) && Enabled(cfg, s, Ingest(i))
    ensures Mirrors(cfg, c0, front + [Ingest(i)], Next(cfg, s, Ingest(i)))
  {
    PartsSnoc(front, Ingest(i));
    BlockIngestion.TraceSnoc(cfg, IngestPart(front), i);
    SendStep(cfg, s, i, Received(ProcessPart(front)));
  }

  lemma SendStep(cfg: Config, s: System, i: IngestEvent, taken: seq<nat>)
    requires Enabled(cfg, s, Ingest(i))
    ensures var t := Next(cfg, s, Ingest(i));
      && BlockIngestion.StepOf(cfg, (s.ing, taken + s.raw), i) == (t.ing, taken + t.raw)
      && Shown(t) == Shown(s) && t.closed == s.closed && t.stopped == s.stopped
  {
    if i.SendBlock? {
      assert (taken + s.raw) + [s.ing.cycle.pending[0]] == taken + (s.raw + [s.ing.cycle.pending[0]]);
    }
  }

  lemma ProcessJoins(cfg: Config, c0: nat, front: seq<Event>, s: System, p: ProcessEvent)
    requires Mirrors(cfg, c0, front, s)
    ensures Enabled(cfg, s, Process(p)) <==>
      ServicesRun(cfg, c0, front + [Process(p)]) && Links(cfg, c0, front, Process(p))
  {
    PartsSnoc(front, Process(p));
    BlockProcessing.TraceSnoc(cfg, c0, ProcessPart(front), p);
  }

  /** What of the system the processor service shows. */
  function Shown(s: System): (Processor, seq<nat>, nat) { (s.proc, Blocks(s.log), s.cursor) }

  predicate Shows(f: BlockProcessing.Effect, s: System) {
    (f.proc, f.handed, f.cursor) == Shown(s) && (f.refused ==> s.closed)
  }

  lemma ShowsStep(cfg: Config, f: BlockProcessing.Effect, s: System, p: ProcessEvent)
    requires Shows(f, s) && Enabled(cfg, s, Process(p))
    ensures BlockProcessing.Allowed(f, p)
    ensures Shows(BlockProcessing.EffectOf(cfg, f, p), Next(cfg, s, Process(p)))
  {
    var t := Next(cfg, s, Process(p));
    if p.HandOff? {
      assert Blocks(t.log) == Blocks(s.log) + [s.proc.dispatch.rest[0]];
    } else {
      assert t.log == s.log;
    }
  }

  lemma ProcessMirrors(cfg: Config, c0: nat, front: seq<Event>, s: System, p: ProcessEvent)
    requires Mirrors(cfg, c0, front, s) && Enabled(cfg, s, Process(p))
    ensures Mirrors(cfg, c0, front + [Process(p)], Next(cfg, s, Process(p)))
  {
    PartsSnoc(front, Process(p));
    BlockProcessing.TraceSnoc(cfg, c0, ProcessPart(front), p);
    ShowsStep(cfg, BlockProcessing.Trace(cfg, c0, ProcessPart(front)).value, s, p);
    ChannelStep(cfg, s, p, Received(ProcessPart(front)));
  }

  lemma ChannelStep(cfg: Config, s: System, p: ProcessEvent, taken: seq<nat>)
    requires Enabled(cfg, s, Process(p))
    ensures var t := Next(cfg, s, Process(p));
      && taken + s.raw == (taken + if p.Receive? then [p.block] else []) + t.raw
      && t.ing == s.ing && t.closed == s.closed && t.stopped == (s.stopped || p == Flush)
  {
    assert p.Receive? ==> s.raw == [p.block] + s.raw[1..];
  }

  /**
   In one process life, the runs of the whole system are exactly the interleavings of
   a run of the ingestor service with a run of the processor service that agree on the
   channel and the cursor between them; and the system shows what they sent, handed
   off and stored.
   */
  lemma {:induction false} SystemIsItsServices(cfg: Config, c0: nat, es: seq<Event>)
    ensures (Legal(cfg, Start(c0), es) && Restart !in es) <==> (ServicesRun(cfg, c0, es) && Joined(cfg, c0, es))
    ensures Legal(cfg, Start(c0), es) && Restart !in es ==> Mirrors(cfg, c0, es, Exec(cfg, Start(c0), es))
    decreases |es|
  {
    if es == [] {
      assert Blocks([]) == [];
    } else {
      var front, last := es[..|es| - 1], es[|es| - 1];
      assert es == front + [last];
      SystemIsItsServices(cfg, c0, front);
      LegalSnoc(cfg, Start(c0), es);
      PrefixRuns(cfg, c0, front, last);
      if Legal(cfg, Start(c0), front) && Restart !in front {
        var s := Exec(cfg, Start(c0), front);
        match last
        case Ingest(i) =>
          IngestJoins(cfg, c0, front, s, i);
          if Enabled(cfg, s, last) {
            IngestMirrors(cfg, c0, front, s, i);
          }
        case Process(p) =>
          ProcessJoins(cfg, c0, front, s, p);
          if Enabled(cfg, s, last) {
            ProcessMirrors(cfg, c0, front, s, p);
          }
        case CloseDownstream => PartsSnoc(front, last);
        case Restart =>
      }
    }
  }

  lemma PrefixRuns(cfg: Config, c0: nat, front: seq<Event>, last: Event)
    ensures ServicesRun(cfg, c0, front + [last]) ==> ServicesRun(cfg, c0, front)
  {
    PartsSnoc(front, last);
    if last.Ingest? {
      BlockIngestion.TraceSnoc(cfg, IngestPart(front), last.i);
    }
    if last.Process? {
      BlockProcessing.TraceSnoc(cfg, c0, ProcessPart(front), last.p);
    }
  }

  /** Hence the no-gap law holds of the two services, however they are scheduled. */
  lemma ServicesLeaveNoGap(cfg: Config, c0: nat, es: seq<Event>, b: nat)
    requires ServicesRun(cfg, c0, es) && Joined(cfg, c0, es)
    requires c0 < b <= StoredBy(cfg, c0, es)
    ensures Legal(cfg, Start(c0), es)
    ensures b in BlockProcessing.Trace(cfg, c0, ProcessPart(es)).value.handed || WasDropped(Exec(cfg, Start(c0), es), b)
  {
    SystemIsItsServices(cfg, c0, es);
    NoGap(cfg, c0, es, b);
    var s := Exec(cfg, Start(c0), es);
    if WasHanded(s, b) {
      var k :| 0 <= k < |s.log| && s.log[k].block == b;
      assert Blocks(s.log)[k] == b;
    }
  }

  // --------------------------------------------------------------- progress

  /** Some legal continuation without a restart leads from `s` to `t`. */
  ghost predicate Leads(cfg: Config, s: System, t: System) {
    exists es :: Legal(cfg, s, es) && Restart !in es && Exec(cfg, s, es) == t
  }

  lemma LeadsStep(cfg: Config, s: System, e: Event, t: System)
    requires e != Restart && Enabled(cfg, s, e) && Leads(cfg, Next(cfg, s, e), t)
    ensures Leads(cfg, s, t)
  {
    var es :| Legal(cfg, Next(cfg, s, e), es) && Restart !in es && Exec(cfg, Next(cfg, s, e), es) == t;
    ExecOne(cfg, s, e, es);
    assert Restart !in [e] + es;
  }

  lemma LeadsNowhere(cfg: Config, s: System)
    ensures Leads(cfg, s, s)
  {
    assert Legal(cfg, s, []) && Exec(cfg, s, []) == s;
  }

  lemma LeadsOn(cfg: Config, s: System, mid: System, t: System)
    requires Leads(cfg, s, mid) && Leads(cfg, mid, t)
    ensures Leads(cfg, s, t)
  {
    var xs :| Legal(cfg, s, xs) && Restart !in xs && Exec(cfg, s, xs) == mid;
    var ys :| Legal(cfg, mid, ys) && Restart !in ys && Exec(cfg, mid, ys) == t;
    ExecAppend(cfg, s, xs, ys);
    assert Restart !in xs + ys;
  }

  /** The buffer never holds a whole batch. */
  predicate BufferShort(cfg: Config, s: System) { s.proc.buffer == [] || |s.proc.buffer| < cfg.chunk }

  lemma {:induction false} BufferStaysShort(cfg: Config, s: System, es: seq<Event>)
    requires Legal(cfg, s, es) && BufferShort(cfg, s)
    ensures BufferShort(cfg, Exec(cfg, s, es))
    decreases |es|
  {
    if es != [] {
      BufferStaysShort(cfg, Next(cfg, s, es[0]), es[1..]);
    }
  }

  /** A running process: the receiver is there and nobody has asked it to stop. */
  predicate Running(cfg: Config, c0: nat, s: System) {
    Inv(cfg, c0, s) && BufferShort(cfg, s) && !s.closed && !s.stopped
  }

  /** From `s` to `t` the same process went on, and handed off every block it finished. */
  predicate HandsOn(s: System, t: System) {
    && t.life == s.life && t.lifeStart == s.lifeStart && s.log <= t.log && |s.done| <= |t.done|
    && forall b :: s.lifeStart + |s.done| <= b < t.lifeStart + |t.done| ==> Entry(s.life, b) in t.log
  }

  lemma HandsOnOn(s: System, mid: System, t: System)
    requires HandsOn(s, mid) && HandsOn(mid, t)
    ensures HandsOn(s, t)
  {
  }

  lemma QuietHandsOn(s: System, t: System)
    requires t.life == s.life && t.lifeStart == s.lifeStart && t.log == s.log && t.done == s.done
    ensures HandsOn(s, t)
  {
  }

  lemma HandOffHandsOn(cfg: Config, c0: nat, s: System)
    requires Inv(cfg, c0, s) && Enabled(cfg, s, Process(HandOff))
    ensures HandsOn(s, Next(cfg, s, Process(HandOff)))
  {
    var t := Next(cfg, s, Process(HandOff));
    assert InFlight(s)[0] == s.proc.dispatch.rest[0];
    assert t.log[|s.log|] == Entry(s.life, s.lifeStart + |s.done|);
  }

  /** Steps of a running process towards handing on: nothing is dropped or abandoned. */
  predicate Forward(e: Event) {
    e.Ingest? || (e.Process? && (e.p.Receive? || e.p.CorrelateOk? || e.p.HandOff? || e.p.Persist?))
  }

  lemma ForwardKeepsRunning(cfg: Config, s: System, e: Event)
    requires Enabled(cfg, s, e) && Forward(e) && BufferShort(cfg, s)
    ensures var t := Next(cfg, s, e);
      && BufferShort(cfg, t) && t.closed == s.closed && t.stopped == s.stopped
      && t.life == s.life && t.lifeStart == s.lifeStart && (e != Process(HandOff) ==> t.log == s.log && t.done == s.done)
  {
  }

  lemma RunningStep(cfg: Config, c0: nat, s: System, e: Event)
    requires Running(cfg, c0, s) && Enabled(cfg, s, e) && Forward(e)
    ensures Running(cfg, c0, Next(cfg, s, e)) && HandsOn(s, Next(cfg, s, e))
  {
    StepKeepsInv(cfg, c0, s, e);
    ForwardKeepsRunning(cfg, s, e);
    if e == Process(HandOff) {
      HandOffHandsOn(cfg, c0, s);
    } else {
      QuietHandsOn(s, Next(cfg, s, e));
    }
  }

  /** From `s` a running process can get to `t` by itself, handing off what it finishes. */
  ghost predicate Reaches(cfg: Config, c0: nat, s: System, t: System) {
    Leads(cfg, s, t) && Running(cfg, c0, t) && HandsOn(s, t)
  }

  lemma ReachesOn(cfg: Config, c0: nat, s: System, mid: System, t: System)
    requires Reaches(cfg, c0, s, mid) && Reaches(cfg, c0, mid, t)
    ensures Reaches(cfg, c0, s, t)
  {
    LeadsOn(cfg, s, mid, t);
    HandsOnOn(s, mid, t);
  }

  lemma ReachesItself(cfg: Config, c0: nat, s: System)
    requires Running(cfg, c0, s)
    ensures Reaches(cfg, c0, s, s)
  {
    LeadsNowhere(cfg, s);
  }

  lemma ReachesNext(cfg: Config, c0: nat, s: System, e: Event)
    requires Running(cfg, c0, s) && Enabled(cfg, s, e) && Forward(e)
    ensures Reaches(cfg, c0, s, Next(cfg, s, e))
  {
    RunningStep(cfg, c0, s, e);
    LeadsNowhere(cfg, Next(cfg, s, e));
    LeadsStep(cfg, s, e, Next(cfg, s, e));
  }

  /** What is left to do before the processor waits again. */
  function ToDo(p: Processor): nat {
    match p.dispatch
    case Waiting => 0
    case Correlating(batch) => |batch| + 2
    case Handing(rest, _) => |rest| + 1
  }

  /** The step that brings a batch on. */
  function Onward(p: Processor): ProcessEvent
    requires !p.dispatch.Waiting?
  {
    if p.dispatch.Correlating? then CorrelateOk else if p.dispatch.rest != [] then HandOff else Persist(true)
  }

  lemma OnwardStep(cfg: Config, c0: nat, s: System)
    requires Running(cfg, c0, s) && !s.proc.dispatch.Waiting?
    ensures Enabled(cfg, s, Process(Onward(s.proc)))
    ensures var t := Next(cfg, s, Process(Onward(s.proc)));
      && t.ing == s.ing && t.raw == s.raw && t.proc.buffer == s.proc.buffer && Frontier(t) == Frontier(s)
      && ToDo(t.proc) < ToDo(s.proc)
      && (t.proc.dispatch.Waiting? ==> t.cursor == t.lifeStart + |t.done| - 1)
  {
  }

  /** The batch at hand can be handed over and stored; ingestor, channel and buffer stay as they are. */
  lemma {:induction false} CanFinishBatch(cfg: Config, c0: nat, s: System) returns (t: System)
    requires Running(cfg, c0, s)
    ensures Reaches(cfg, c0, s, t)
    ensures t.proc.dispatch.Waiting? && t.ing == s.ing && t.raw == s.raw && t.proc.buffer == s.proc.buffer
    ensures Frontier(t) == Frontier(s)
    ensures if s.proc.dispatch.Waiting? then t == s else t.cursor == t.lifeStart + |t.done| - 1
    decreases ToDo(s.proc)
  {
    if s.proc.dispatch.Waiting? {
      t := s;
      ReachesItself(cfg, c0, s);
    } else {
      var e := Process(Onward(s.proc));
      OnwardStep(cfg, c0, s);
      ReachesNext(cfg, c0, s, e);
      t := CanFinishBatch(cfg, c0, Next(cfg, s, e));
      ReachesOn(cfg, c0, s, Next(cfg, s, e), t);
    }
  }

  lemma TakeStep(cfg: Config, s: System)
    requires s.proc.dispatch.Waiting? && s.raw != [] && !s.stopped
    ensures var e := Process(Receive(s.raw[0]));
      && Enabled(cfg, s, e)
      && var t := Next(cfg, s, e); t.raw == s.raw[1..] && t.ing == s.ing && t.done == s.done && Frontier(t) == Frontier(s)
  {
    var t := Next(cfg, s, Process(Receive(s.raw[0])));
    assert InFlight(t) == InFlight(s);
  }

  /** Everything on the raw channel can be taken, and every batch it completes handed over. */
  lemma {:induction false} CanDrainChannel(cfg: Config, c0: nat, s: System) returns (t: System)
    requires Running(cfg, c0, s)
    ensures Reaches(cfg, c0, s, t)
    ensures t.proc.dispatch.Waiting? && t.raw == [] && t.ing == s.ing && Frontier(t) == Frontier(s)
    decreases |s.raw|
  {
    var waiting := CanFinishBatch(cfg, c0, s);
    if s.raw == [] {
      t := waiting;
    } else {
      var e := Process(Receive(s.raw[0]));
      TakeStep(cfg, waiting);
      ReachesNext(cfg, c0, waiting, e);
      t := CanDrainChannel(cfg, c0, Next(cfg, waiting, e));
      ReachesOn(cfg, c0, waiting, Next(cfg, waiting, e), t);
      ReachesOn(cfg, c0, s, waiting, t);
    }
  }

  lemma CanIngest(cfg: Config, c0: nat, s: System, i: IngestEvent) returns (t: System)
    requires Running(cfg, c0, s) && Enabled(cfg, s, Ingest(i)) && !i.SendBlock?
    ensures t.ing == IngestStep(cfg, s.ing, i) && Reaches(cfg, c0, s, t)
    ensures t.proc == s.proc && t.raw == s.raw && t.done == s.done && t.cursor == s.cursor && Frontier(t) == Frontier(s)
  {
    ReachesNext(cfg, c0, s, Ingest(i));
    t := Next(cfg, s, Ingest(i));
  }

  lemma CanStartCycle(cfg: Config, c0: nat, s: System) returns (t: System)
    requires Running(cfg, c0, s)
    ensures Reaches(cfg, c0, s, t)
    ensures t.proc == s.proc && t.raw == s.raw && t.done == s.done && Frontier(t) == Frontier(s)
    ensures t.ing.cycle == CursorRead(Some(t.cursor))
  {
    var idle := CanIngest(cfg, c0, s, Abort);
    t := CanIngest(cfg, c0, idle, ReadCursor(Some(idle.cursor)));
    ReachesOn(cfg, c0, s, idle, t);
  }

  lemma CycleStarts(cfg: Config, c0: nat, s: System, head: nat)
    requires Running(cfg, c0, s) && s.ing.cycle == CursorRead(Some(s.cursor))
    requires head >= Frontier(s) + cfg.chunk + cfg.confirmations
    ensures IngestStep(cfg, s.ing, ReadHead(head)).cycle == Draining(Frontier(s), head - cfg.confirmations)
  {
    assert FirstBlock(Some(s.cursor), head, s.ing.next) == Frontier(s);
  }

  lemma ChunkIsFetched(cfg: Config, ing: Ingestor, from: nat, safe: nat)
    requires ing.cycle == Draining(from, safe) && from + cfg.chunk <= safe
    ensures var t := IngestStep(cfg, ing, FetchChunk);
      t.cycle.Sending? && t.cycle.pending == Range(from, from + cfg.chunk + 1)
  {
  }

  /** A new cycle can fetch a chunk from where the last block was sent. */
  lemma CanFetch(cfg: Config, c0: nat, s: System, head: nat) returns (t: System)
    requires Running(cfg, c0, s) && head >= Frontier(s) + cfg.chunk + cfg.confirmations
    ensures Reaches(cfg, c0, s, t)
    ensures t.proc == s.proc && t.raw == s.raw && Frontier(t) == Frontier(s)
    ensures t.ing.cycle.Sending? && t.ing.cycle.pending == Range(Frontier(s), Frontier(s) + cfg.chunk + 1)
  {
    var asked := CanStartCycle(cfg, c0, s);
    CycleStarts(cfg, c0, asked, head);
    var draining := CanIngest(cfg, c0, asked, ReadHead(head));
    ChunkIsFetched(cfg, draining.ing, Frontier(s), head - cfg.confirmations);
    t := CanIngest(cfg, c0, draining, FetchChunk);
    ReachesOn(cfg, c0, asked, draining, t);
    ReachesOn(cfg, c0, s, asked, t);
  }

  /** One fetched block onto the channel and into the buffer. */
  lemma CanSendAndTake(cfg: Config, c0: nat, s: System) returns (t: System)
    requires Running(cfg, c0, s) && cfg.chunk > 0 && s.proc.dispatch.Waiting? && s.raw == []
    requires s.ing.cycle.Sending? && s.ing.cycle.pending != []
    ensures Reaches(cfg, c0, s, t) && t.raw == [] && t.done == s.done && t.lifeStart == s.lifeStart
    ensures t.ing.cycle.Sending? && t.ing.cycle.pending == s.ing.cycle.pending[1..]
    ensures t.proc == ProcessStep(cfg, s.proc, Receive(s.ing.cycle.pending[0]))
  {
    ReachesNext(cfg, c0, s, Ingest(SendBlock));
    var sent := Next(cfg, s, Ingest(SendBlock));
    assert sent.raw == [s.ing.cycle.pending[0]] && sent.raw[1..] == [];
    ReachesNext(cfg, c0, sent, Process(Receive(sent.raw[0])));
    t := Next(cfg, sent, Process(Receive(sent.raw[0])));
    ReachesOn(cfg, c0, s, sent, t);
  }

  /** With the processor waiting and enough fetched blocks, a batch can fill up and be handed over. */
  lemma {:induction false} CanFillBatch(cfg: Config, c0: nat, s: System) returns (t: System)
    requires Running(cfg, c0, s) && cfg.chunk > 0 && s.proc.dispatch.Waiting? && s.raw == []
    requires s.ing.cycle.Sending? && |s.proc.buffer| + |s.ing.cycle.pending| >= cfg.chunk
    ensures Reaches(cfg, c0, s, t)
    ensures t.cursor == s.lifeStart + |s.done| + cfg.chunk - 1 == t.lifeStart + |t.done| - 1
    decreases cfg.chunk - |s.proc.buffer|
  {
    var taken := CanSendAndTake(cfg, c0, s);
    if taken.proc.dispatch.Waiting? {
      t := CanFillBatch(cfg, c0, taken);
    } else {
      t := CanFinishBatch(cfg, c0, taken);
      assert Frontier(taken) == s.lifeStart + |s.done| + cfg.chunk;
    }
    ReachesOn(cfg, c0, s, taken, t);
  }

  /**
   A running process is never stuck: once the chain has a batch of confirmed blocks
   past all it has sent, it can go on, without a restart, to hand off everything it
   holds and move the cursor past it.
   */
  lemma CanAlwaysMoveOn(cfg: Config, c0: nat, s: System, head: nat) returns (t: System)
    requires Running(cfg, c0, s) && cfg.chunk > 0 && head >= Frontier(s) + cfg.chunk + cfg.confirmations
    ensures Leads(cfg, s, t) && t.cursor >= Frontier(s)
    ensures forall b :: s.lifeStart + |s.done| <= b <= t.cursor ==> Entry(s.life, b) in t.log
  {
    var drained := CanDrainChannel(cfg, c0, s);
    var fetched := CanFetch(cfg, c0, drained, head);
    t := CanFillBatch(cfg, c0, fetched);
    ReachesOn(cfg, c0, s, drained, fetched);
    ReachesOn(cfg, c0, s, fetched, t);
  }

  /** And a restart makes any reachable state run again, from the stored cursor. */
  lemma RestartRuns(cfg: Config, c0: nat, es: seq<Event>)
    requires Legal(cfg, Start(c0), es)
    ensures var s := Exec(cfg, Start(c0), es);
      && BufferShort(cfg, s) && Inv(cfg, c0, s)
      && Running(cfg, c0, Next(cfg, s, Restart)) && Frontier(Next(cfg, s, Restart)) == s.cursor + 1
  {
    RunKeepsInv(cfg, c0, Start(c0), es);
    BufferStaysShort(cfg, Start(c0), es);
    StepKeepsInv(cfg, c0, Exec(cfg, Start(c0), es), Restart);
  }
}
