/**
 The hand-off of blocks from the chain to the filtering engine, as a state
 machine: the ingestor and the processor each take small steps, in any
 interleaving, and the process may stop and start again at any point. Only the
 persisted cursor survives a restart.
 */
module BlockProtocol {
  import opened Prelude

  /** `chunk` is `block_chunk_size`: fetch stride, batch size and half of the channel bound. */
  datatype Config = Config(confirmations: nat, chunk: nat)

  // ---------------------------------------------------------------- ingestor

  datatype Cycle =
    | Idle
    | CursorRead(cursor: Option<nat>)
    | Draining(from: nat, safe: nat)
    | Sending(to: nat, safe: nat, pending: seq<nat>)

  /** `next` is the in-memory high-water mark, 0 until the first send of a life. */
  datatype Ingestor = Ingestor(next: nat, cycle: Cycle)

  datatype IngestEvent =
    | ReadCursor(cursor: Option<nat>)
    | ReadHead(head: nat)
    | FetchChunk
    | SendBlock
    | EndChunk
    | Abort  // failed read, failed fetch, cancellation or closed channel

  predicate IngestEnabled(ing: Ingestor, e: IngestEvent) {
    match e
    case ReadCursor(_) => ing.cycle.Idle?
    case ReadHead(_) => ing.cycle.CursorRead?
    case FetchChunk => ing.cycle.Draining?
    case SendBlock => ing.cycle.Sending? && ing.cycle.pending != []
    case EndChunk => ing.cycle.Sending? && ing.cycle.pending == []
    case Abort => true
  }

  function ChunkEnd(cfg: Config, from: nat, safe: nat): nat {
    if from + cfg.chunk <= safe then from + cfg.chunk else safe
  }

  function Later(a: nat, b: nat): nat { if a <= b then b else a }

  const DEFAULT_BACKFILL_BLOCKS: nat := 100

  /** Where a cycle starts: after the cursor or after what was already sent, whichever is later. */
  function FirstBlock(cursor: Option<nat>, head: nat, next: nat): nat {
    var stateNext := match cursor
      case Some(c) => c + 1
      case None => if head >= DEFAULT_BACKFILL_BLOCKS then head - DEFAULT_BACKFILL_BLOCKS else 0;
    Later(stateNext, next)
  }

  /**
   A cycle never starts at a block the cursor has passed or that was sent already, and
   with a cursor it leaves none out; without one it goes back a hundred blocks, or to
   the first, if nothing was sent.
   */
  lemma CyclesStartAt(cursor: Option<nat>, head: nat, next: nat)
    ensures var from := FirstBlock(cursor, head, next);
      && from >= next
      && (cursor.Some? ==> from > cursor.value && (from == cursor.value + 1 || from == next))
      && (cursor.None? && next == 0 ==> if head < 100 then from == 0 else from + 100 == head)
  {
  }

  function IngestStep(cfg: Config, ing: Ingestor, e: IngestEvent): Ingestor
    requires IngestEnabled(ing, e)
  {
    match e
    case ReadCursor(c) => ing.(cycle := CursorRead(c))
    case ReadHead(h) =>
      var from := FirstBlock(ing.cycle.cursor, h, ing.next);
      if h < cfg.confirmations || from > h - cfg.confirmations then ing.(cycle := Idle)
      else ing.(cycle := Draining(from, h - cfg.confirmations))
    case FetchChunk =>
      var to := ChunkEnd(cfg, ing.cycle.from, ing.cycle.safe);
      ing.(cycle := Sending(to, ing.cycle.safe, Range(ing.cycle.from, to + 1)))
    case SendBlock =>
      Ingestor(ing.cycle.pending[0] + 1, ing.cycle.(pending := ing.cycle.pending[1..]))
    case EndChunk =>
      ing.(cycle := if ing.cycle.to + 1 <= ing.cycle.safe
                    then Draining(ing.cycle.to + 1, ing.cycle.safe) else Idle)
    case Abort => ing.(cycle := Idle)
  }

  // --------------------------------------------------------------- processor

  datatype Dispatch =
    | Waiting
    | Correlating(batch: seq<nat>)
    | Handing(rest: seq<nat>, last: Option<nat>)

  datatype Processor = Processor(buffer: seq<nat>, dispatch: Dispatch)

  datatype ProcessEvent =
    | Receive(block: nat)
    | Flush                    // the remaining buffer is taken once on shutdown
    | CorrelateOk
    | CorrelateErr             // the batch is dropped
    | HandOff
    | HandOffClosed            // the correlated channel is closed: the rest is abandoned
    | Persist(stored: bool)

  predicate ProcessEnabled(p: Processor, e: ProcessEvent) {
    match e
    case Receive(_) => p.dispatch.Waiting?
    case Flush => p.dispatch.Waiting?
    case CorrelateOk => p.dispatch.Correlating?
    case CorrelateErr => p.dispatch.Correlating?
    case HandOff => p.dispatch.Handing? && p.dispatch.rest != []
    case HandOffClosed => p.dispatch.Handing? && p.dispatch.rest != []
    case Persist(_) => p.dispatch.Handing? && p.dispatch.rest == [] && p.dispatch.last.Some?
  }

  function ProcessStep(cfg: Config, p: Processor, e: ProcessEvent): Processor
    requires ProcessEnabled(p, e)
  {
    match e
    case Receive(b) =>
      var buffer := p.buffer + [b];
      if |buffer| >= cfg.chunk then Processor([], Correlating(buffer)) else Processor(buffer, Waiting)
    case Flush => if p.buffer == [] then p else Processor([], Correlating(p.buffer))
    case CorrelateOk => p.(dispatch := Handing(p.dispatch.batch, None))
    case CorrelateErr => p.(dispatch := Waiting)
    case HandOff => p.(dispatch := Handing(p.dispatch.rest[1..], Some(p.dispatch.rest[0])))
    case HandOffClosed => p.(dispatch := Waiting)
    case Persist(_) => p.(dispatch := Waiting)
  }

  /** What the processor still holds, oldest block first. */
  function Held(p: Processor): seq<nat> {
    match p.dispatch
    case Waiting => p.buffer
    case Correlating(batch) => batch + p.buffer
    case Handing(rest, _) => rest + p.buffer
  }

  // ------------------------------------------------------------ whole system

  datatype Outcome = Handed | Dropped | Abandoned

  /** A block handed off or dropped, tagged with the process life it happened in. */
  datatype Entry = Entry(life: nat, block: nat)

  /**
   `log`, `dropped`, `done`, `life`, `lifeStart`, `starts` and `topHead` are
   history: the program does not store them. `done` gives the fate of every block
   the processor finished in this life, oldest first; `starts` the first block of
   every life.
   */
  datatype System = System(
    ing: Ingestor, proc: Processor, raw: seq<nat>, cursor: nat,
    closed: bool, stopped: bool,
    life: nat, lifeStart: nat, done: seq<Outcome>,
    log: seq<Entry>, dropped: set<Entry>, topHead: nat, starts: seq<nat>)

  datatype Event =
    | Ingest(i: IngestEvent)
    | Process(p: ProcessEvent)
    | CloseDownstream
    | Restart

  function Start(cursor: nat): System {
    System(Ingestor(0, Idle), Processor([], Waiting), [], cursor, false, false,
           0, cursor + 1, [], [], {}, 0, [cursor + 1])
  }

  predicate Enabled(cfg: Config, s: System, e: Event) {
    match e
    case Ingest(i) =>
      && IngestEnabled(s.ing, i)
      && (i.ReadCursor? ==> i.cursor == Some(s.cursor))
      && (i.SendBlock? ==> |s.raw| < 2 * cfg.chunk)
    case Process(p) =>
      && ProcessEnabled(s.proc, p)
      && (p.Receive? ==> !s.stopped && s.raw != [] && p.block == s.raw[0])
      && (p.Flush? ==> !s.stopped)
      && (p.HandOff? ==> !s.closed)
      && (p.HandOffClosed? ==> s.closed)
    case CloseDownstream => true
    case Restart => true
  }

  function Outcomes(n: nat, o: Outcome): (r: seq<Outcome>)
    ensures |r| == n && forall k :: 0 <= k < n ==> r[k] == o
  {
    seq(n, _ => o)
  }

  function Next(cfg: Config, s: System, e: Event): System
    requires Enabled(cfg, s, e)
  {
    match e
    case Ingest(i) =>
      var s1 := s.(ing := IngestStep(cfg, s.ing, i));
      if i.SendBlock? then s1.(raw := s.raw + [s.ing.cycle.pending[0]])
      else if i.ReadHead? then s1.(topHead := Later(s.topHead, i.head))
      else s1
    case Process(p) =>
      var s1 := s.(proc := ProcessStep(cfg, s.proc, p));
      (match p
       case Receive(_) => s1.(raw := s.raw[1..])
       case Flush => s1.(stopped := true)
       case CorrelateOk => s1
       case CorrelateErr =>
         s1.(done := s.done + Outcomes(|s.proc.dispatch.batch|, Dropped),
             dropped := s.dropped + set b | b in s.proc.dispatch.batch :: Entry(s.life, b))
       case HandOff =>
         s1.(done := s.done + [Handed], log := s.log + [Entry(s.life, s.proc.dispatch.rest[0])])
       case HandOffClosed => s1.(done := s.done + Outcomes(|s.proc.dispatch.rest|, Abandoned))
       case Persist(stored) => if stored then s1.(cursor := s.proc.dispatch.last.value) else s1)
    case CloseDownstream => s.(closed := true)
    case Restart =>
      s.(ing := Ingestor(0, Idle), proc := Processor([], Waiting), raw := [], closed := false,
         stopped := false, life := s.life + 1, lifeStart := s.cursor + 1, done := [],
           starts := s.starts + [s.cursor + 1])
  }

  predicate Legal(cfg: Config, s: System, es: seq<Event>)
    decreases |es|
  {
    es == [] || (Enabled(cfg, s, es[0]) && Legal(cfg, Next(cfg, s, es[0]), es[1..]))
  }

  function Exec(cfg: Config, s: System, es: seq<Event>): System
    requires Legal(cfg, s, es)
    decreases |es|
  {
    if es == [] then s else Exec(cfg, Next(cfg, s, es[0]), es[1..])
  }

  /** Block `b` reached the correlated channel, in some life. */
  predicate WasHanded(s: System, b: nat) {
    exists k :: 0 <= k < |s.log| && s.log[k].block == b
  }

  /** Block `b` sat in a batch whose correlation failed, in some life. */
  predicate WasDropped(s: System, b: nat) {
    exists e :: e in s.dropped && e.block == b
  }

  // -------------------------------------------------------------- invariants

  function InFlight(s: System): seq<nat> { Held(s.proc) + s.raw }

  /** First block this life has not yet put on the raw channel. */
  function Frontier(s: System): nat { s.lifeStart + |s.done| + |InFlight(s)| }

  predicate CycleInv(cfg: Config, s: System) {
    match s.ing.cycle
    case Idle => true
    case CursorRead(c) => c.Some? && s.lifeStart <= c.value + 1 && c.value <= s.cursor
    case Draining(from, safe) => from == Frontier(s) <= safe && safe + cfg.confirmations <= s.topHead
    case Sending(to, safe, pending) =>
      && Consecutive(pending, Frontier(s)) && Frontier(s) + |pending| == to + 1
      && to <= safe && safe + cfg.confirmations <= s.topHead
  }

  /** Finished, held and queued blocks of this life are one consecutive run. */
  predicate FlowInv(cfg: Config, s: System) {
    && Consecutive(InFlight(s), s.lifeStart + |s.done|)
    && s.lifeStart <= s.cursor + 1 <= s.lifeStart + |s.done|
    && (s.ing.next == Frontier(s) || (s.ing.next == 0 && Frontier(s) == s.lifeStart))
    && (Frontier(s) == s.lifeStart || Frontier(s) - 1 + cfg.confirmations <= s.topHead)
  }

  predicate DispatchInv(s: System) {
    && (s.proc.dispatch.Correlating? ==> s.proc.dispatch.batch != [])
    && (s.proc.dispatch.Handing? ==>
          if s.proc.dispatch.last.None? then s.proc.dispatch.rest != []
          else |s.done| > 0 && s.proc.dispatch.last.value == s.lifeStart + |s.done| - 1)
    && (Abandoned in s.done ==>
          s.closed && (s.proc.dispatch.Handing? ==> s.proc.dispatch.last.None?))
  }

  /** Every block the cursor has passed was handed off or dropped. */
  predicate CoverInv(c0: nat, s: System) {
    && c0 < s.lifeStart
    && (forall b :: c0 < b < s.lifeStart ==> WasHanded(s, b) || WasDropped(s, b))
    && (forall i :: 0 <= i < |s.done| ==> Fate(s, i))
    && (forall i :: 0 <= i < |s.done| && s.lifeStart + i <= s.cursor ==> s.done[i] != Abandoned)
  }

  /** The two histories agree with the fate of the `i`-th block of this life. */
  predicate Fate(s: System, i: nat)
    requires i < |s.done|
  {
    && (s.done[i].Handed? <==> Entry(s.life, s.lifeStart + i) in s.log)
    && (s.done[i].Dropped? <==> Entry(s.life, s.lifeStart + i) in s.dropped)
  }

  predicate InPast(s: System, e: Entry) {
    e.life <= s.life && (e.life == s.life ==> s.lifeStart <= e.block < s.lifeStart + |s.done|)
  }

  /** Hand-offs of one life strictly increase, and no entry is both handed and dropped. */
  predicate LogInv(cfg: Config, s: System) {
    && (forall e :: e in s.log ==> InPast(s, e) && e !in s.dropped && e.block + cfg.confirmations <= s.topHead)
    && (forall e :: e in s.dropped ==> InPast(s, e))
    && (forall i, j :: 0 <= i < j < |s.log| && s.log[i].life == s.log[j].life
                       ==> s.log[i].block < s.log[j].block)
  }

  predicate Inv(cfg: Config, c0: nat, s: System) {
    CycleInv(cfg, s) && FlowInv(cfg, s) && DispatchInv(s) && CoverInv(c0, s) && LogInv(cfg, s)
  }

  /** History only grows, so a block once handed or dropped stays so. */
  lemma HistoryGrows(s: System, t: System)
    requires s.log <= t.log && s.dropped <= t.dropped
    ensures forall b :: WasHanded(s, b) ==> WasHanded(t, b)
    ensures forall b :: WasDropped(s, b) ==> WasDropped(t, b)
  {
    forall b | WasHanded(s, b) ensures WasHanded(t, b) {
      var k :| 0 <= k < |s.log| && s.log[k].block == b;
      assert t.log[k].block == b;
    }
    forall b | WasDropped(s, b) ensures WasDropped(t, b) {
      var e :| e in s.dropped && e.block == b;
      assert e in t.dropped;
    }
  }

  lemma SendKeepsFlow(cfg: Config, c0: nat, s: System)
    requires Inv(cfg, c0, s) && Enabled(cfg, s, Ingest(SendBlock))
    ensures var t := Next(cfg, s, Ingest(SendBlock)); CycleInv(cfg, t) && FlowInv(cfg, t)
  {
    var t := Next(cfg, s, Ingest(SendBlock));
    assert InFlight(t) == InFlight(s) + [s.ing.cycle.pending[0]];
  }

  /** Steps of the cycle that send nothing leave everything in flight alone. */
  lemma CycleStepKeepsFlow(cfg: Config, c0: nat, s: System, i: IngestEvent)
    requires Inv(cfg, c0, s) && Enabled(cfg, s, Ingest(i)) && !i.SendBlock?
    ensures var t := Next(cfg, s, Ingest(i)); CycleInv(cfg, t) && FlowInv(cfg, t)
  {
    var t := Next(cfg, s, Ingest(i));
    assert t.proc == s.proc && t.raw == s.raw && t.ing.next == s.ing.next && t.topHead >= s.topHead;
    assert Frontier(t) == Frontier(s);
    match i
    case ReadHead(h) => HeadReadKeepsCycle(cfg, s, h);
    case FetchChunk => FetchKeepsCycle(cfg, s);
    case _ =>
  }

  lemma FetchKeepsCycle(cfg: Config, s: System)
    requires CycleInv(cfg, s) && IngestEnabled(s.ing, FetchChunk)
    ensures CycleInv(cfg, Next(cfg, s, Ingest(FetchChunk)))
  {
  }

  lemma HeadReadKeepsCycle(cfg: Config, s: System, h: nat)
    requires CycleInv(cfg, s) && FlowInv(cfg, s) && IngestEnabled(s.ing, ReadHead(h))
    ensures CycleInv(cfg, Next(cfg, s, Ingest(ReadHead(h))))
  {
    assert FirstBlock(s.ing.cycle.cursor, h, s.ing.next) == Frontier(s);
  }

  lemma IngestKeepsInv(cfg: Config, c0: nat, s: System, i: IngestEvent)
    requires Inv(cfg, c0, s) && Enabled(cfg, s, Ingest(i))
    ensures Inv(cfg, c0, Next(cfg, s, Ingest(i)))
  {
    if i.SendBlock? {
      SendKeepsFlow(cfg, c0, s);
    } else {
      CycleStepKeepsFlow(cfg, c0, s, i);
    }
    QuietStepKeepsHistory(cfg, c0, s, Next(cfg, s, Ingest(i)));
  }

  /** The blocks a processor step finishes: the oldest ones it held. */
  function Finished(p: Processor, e: ProcessEvent): seq<nat>
    requires ProcessEnabled(p, e)
  {
    match e
    case CorrelateErr => p.dispatch.batch
    case HandOff => [p.dispatch.rest[0]]
    case HandOffClosed => p.dispatch.rest
    case _ => []
  }

  lemma HeldMoves(cfg: Config, p: Processor, e: ProcessEvent)
    requires ProcessEnabled(p, e)
    ensures (if e.Receive? then Held(p) + [e.block] else Held(p)) == Finished(p, e) + Held(ProcessStep(cfg, p, e))
  {
  }

  lemma ShiftOut(held: seq<nat>, raw: seq<nat>, out: seq<nat>, after: seq<nat>)
    requires held == out + after
    ensures held + raw == out + (after + raw)
  {
  }

  lemma ShiftIn(held: seq<nat>, raw: seq<nat>, after: seq<nat>)
    requires raw != [] && held + [raw[0]] == [] + after
    ensures held + raw == [] + (after + raw[1..])
  {
    assert after == held + [raw[0]];
    assert raw == [raw[0]] + raw[1..];
    assert held + ([raw[0]] + raw[1..]) == (held + [raw[0]]) + raw[1..];
  }

  lemma InFlightMoves(cfg: Config, s: System, p: ProcessEvent)
    requires Enabled(cfg, s, Process(p))
    ensures InFlight(s) == Finished(s.proc, p) + InFlight(Next(cfg, s, Process(p)))
  {
    var after := Held(ProcessStep(cfg, s.proc, p));
    HeldMoves(cfg, s.proc, p);
    if p.Receive? {
      ShiftIn(Held(s.proc), s.raw, after);
    } else {
      ShiftOut(Held(s.proc), s.raw, Finished(s.proc, p), after);
    }
    PlacesAfter(cfg, s, p);
  }

  lemma PlacesAfter(cfg: Config, s: System, p: ProcessEvent)
    requires Enabled(cfg, s, Process(p))
    ensures var t := Next(cfg, s, Process(p));
      t.proc == ProcessStep(cfg, s.proc, p) && t.raw == if p.Receive? then s.raw[1..] else s.raw
  {
  }

  lemma FinishedAreDone(cfg: Config, s: System, p: ProcessEvent)
    requires Enabled(cfg, s, Process(p))
    ensures |Next(cfg, s, Process(p)).done| == |s.done| + |Finished(s.proc, p)|
  {
  }

  lemma ProcessMoves(cfg: Config, s: System, p: ProcessEvent)
    requires Enabled(cfg, s, Process(p))
    ensures var t := Next(cfg, s, Process(p));
      && InFlight(s) == Finished(s.proc, p) + InFlight(t)
      && |t.done| == |s.done| + |Finished(s.proc, p)|
      && t.lifeStart == s.lifeStart && Frontier(t) == Frontier(s)
  {
    InFlightMoves(cfg, s, p);
    FinishedAreDone(cfg, s, p);
  }

  lemma OldestHeld(s: System, batch: seq<nat>, rest: seq<nat>)
    requires Consecutive(InFlight(s), s.lifeStart + |s.done|) && InFlight(s) == batch + rest
    ensures Consecutive(batch, s.lifeStart + |s.done|) && Consecutive(rest, s.lifeStart + |s.done| + |batch|)
  {
    assert forall k :: 0 <= k < |batch| ==> batch[k] == InFlight(s)[k];
    assert forall k :: 0 <= k < |rest| ==> rest[k] == InFlight(s)[|batch| + k];
  }

  lemma ProcessKeepsFlow(cfg: Config, c0: nat, s: System, p: ProcessEvent)
    requires Inv(cfg, c0, s) && Enabled(cfg, s, Process(p))
    ensures var t := Next(cfg, s, Process(p)); CycleInv(cfg, t) && FlowInv(cfg, t)
  {
    ProcessMoves(cfg, s, p);
    OldestHeld(s, Finished(s.proc, p), InFlight(Next(cfg, s, Process(p))));
  }

  lemma ProcessKeepsDispatch(cfg: Config, c0: nat, s: System, p: ProcessEvent)
    requires Inv(cfg, c0, s) && Enabled(cfg, s, Process(p))
    ensures DispatchInv(Next(cfg, s, Process(p)))
  {
    if p.HandOff? {
      ProcessMoves(cfg, s, p);
      OldestHeld(s, Finished(s.proc, p), InFlight(Next(cfg, s, Process(p))));
      assert Finished(s.proc, p)[0] == s.lifeStart + |s.done|;
    }
  }

  /** The step from `s` to `t` gave every block of `batch`, the oldest held ones, the fate `o`. */
  predicate Finishes(s: System, t: System, batch: seq<nat>, o: Outcome) {
    && Consecutive(batch, s.lifeStart + |s.done|)
    && t.life == s.life && t.lifeStart == s.lifeStart && t.cursor == s.cursor && t.topHead == s.topHead
    && t.done == s.done + Outcomes(|batch|, o)
    && (if o.Handed? then |batch| == 1 && t.log == s.log + [Entry(s.life, batch[0])] else t.log == s.log)
    && t.dropped == s.dropped + if o.Dropped? then set b | b in batch :: Entry(s.life, b) else {}
  }

  lemma FinishingGivesFate(cfg: Config, s: System, t: System, batch: seq<nat>, o: Outcome, i: nat)
    requires LogInv(cfg, s) && Finishes(s, t, batch, o) && i < |t.done|
    requires i < |s.done| ==> Fate(s, i)
    ensures Fate(t, i)
  {
    var e := Entry(s.life, s.lifeStart + i);
    if i < |s.done| {
      assert forall b :: b in batch ==> b >= s.lifeStart + |s.done|;
    } else {
      assert !InPast(s, e);
      assert batch[i - |s.done|] == s.lifeStart + i;
      if o.Handed? {
        assert t.log[|s.log|] == e;
      }
    }
  }

  lemma FinishingKeepsHistory(cfg: Config, c0: nat, s: System, t: System, batch: seq<nat>, o: Outcome)
    requires CoverInv(c0, s) && LogInv(cfg, s) && Finishes(s, t, batch, o)
    requires s.cursor < s.lifeStart + |s.done|
    requires o.Handed? ==> batch[0] + cfg.confirmations <= s.topHead
    ensures CoverInv(c0, t) && LogInv(cfg, t)
  {
    HistoryGrows(s, t);
    forall i | 0 <= i < |t.done| ensures Fate(t, i) {
      FinishingGivesFate(cfg, s, t, batch, o, i);
    }
    forall e | e in t.log
      ensures InPast(t, e) && e !in t.dropped && e.block + cfg.confirmations <= t.topHead
    {
      if e in s.log {
        assert InPast(s, e);
      } else {
        assert !InPast(s, e);
      }
    }
    forall e | e in t.dropped ensures InPast(t, e) {
      if e in s.dropped {
        assert InPast(s, e);
      }
    }
    forall i, j | 0 <= i < j < |t.log| && t.log[i].life == t.log[j].life
      ensures t.log[i].block < t.log[j].block
    {
      assert s.log[i] in s.log && InPast(s, s.log[i]);
    }
  }

  /** A step that finishes no block; it may persist a later cursor. */
  lemma QuietStepKeepsHistory(cfg: Config, c0: nat, s: System, t: System)
    requires CoverInv(c0, s) && LogInv(cfg, s)
    requires t.life == s.life && t.lifeStart == s.lifeStart && t.topHead >= s.topHead
    requires t.done == s.done && t.log == s.log && t.dropped == s.dropped
    requires t.cursor == s.cursor || Abandoned !in s.done
    ensures CoverInv(c0, t) && LogInv(cfg, t)
  {
    HistoryGrows(s, t);
    forall k | 0 <= k < |t.done| ensures Fate(t, k) {
      assert Fate(s, k);
    }
    forall e | e in t.log
      ensures InPast(t, e) && e !in t.dropped && e.block + cfg.confirmations <= t.topHead
    {
      assert InPast(s, e);
    }
    forall e | e in t.dropped ensures InPast(t, e) {
      assert InPast(s, e);
    }
  }

  lemma ProcessKeepsHistory(cfg: Config, c0: nat, s: System, p: ProcessEvent)
    requires Inv(cfg, c0, s) && Enabled(cfg, s, Process(p))
    ensures var t := Next(cfg, s, Process(p)); CoverInv(c0, t) && LogInv(cfg, t)
  {
    var t := Next(cfg, s, Process(p));
    if p.CorrelateErr? || p.HandOffClosed? || p.HandOff? {
      ProcessMoves(cfg, s, p);
      OldestHeld(s, Finished(s.proc, p), InFlight(t));
      FinishingKeepsHistory(cfg, c0, s, t, Finished(s.proc, p),
        if p.CorrelateErr? then Dropped else if p.HandOff? then Handed else Abandoned);
    } else {
      QuietStepKeepsHistory(cfg, c0, s, t);
    }
  }

  lemma RestartKeepsInv(cfg: Config, c0: nat, s: System)
    requires Inv(cfg, c0, s)
    ensures Inv(cfg, c0, Next(cfg, s, Restart))
  {
    var t := Next(cfg, s, Restart);
    HistoryGrows(s, t);
    forall b | c0 < b < t.lifeStart ensures WasHanded(t, b) || WasDropped(t, b) {
      if b >= s.lifeStart {
        FateKnown(s, b);
      }
    }
  }

  /** A block of this life that the cursor has passed was handed off or dropped. */
  lemma FateKnown(s: System, b: nat)
    requires s.lifeStart <= b <= s.cursor < s.lifeStart + |s.done|
    requires Fate(s, b - s.lifeStart) && s.done[b - s.lifeStart] != Abandoned
    ensures WasHanded(s, b) || WasDropped(s, b)
  {
    var e := Entry(s.life, b);
    if s.done[b - s.lifeStart].Handed? {
      var k :| 0 <= k < |s.log| && s.log[k] == e;
    } else {
      assert e in s.dropped;
    }
  }

  lemma StepKeepsInv(cfg: Config, c0: nat, s: System, e: Event)
    requires Inv(cfg, c0, s) && Enabled(cfg, s, e)
    ensures Inv(cfg, c0, Next(cfg, s, e))
  {
    match e
    case Ingest(i) => IngestKeepsInv(cfg, c0, s, i);
    case Process(p) =>
      ProcessKeepsFlow(cfg, c0, s, p);
      ProcessKeepsDispatch(cfg, c0, s, p);
      ProcessKeepsHistory(cfg, c0, s, p);
    case CloseDownstream =>
      var t := Next(cfg, s, e);
      HistoryGrows(s, t);
      assert forall k :: 0 <= k < |s.done| ==> (Fate(s, k) ==> Fate(t, k));
    case Restart => RestartKeepsInv(cfg, c0, s);
  }

  lemma {:induction false} RunKeepsInv(cfg: Config, c0: nat, s: System, es: seq<Event>)
    requires Inv(cfg, c0, s) && Legal(cfg, s, es)
    ensures Inv(cfg, c0, Exec(cfg, s, es))
    decreases |es|
  {
    if es != [] {
      StepKeepsInv(cfg, c0, s, es[0]);
      RunKeepsInv(cfg, c0, Next(cfg, s, es[0]), es[1..]);
    }
  }

  /** The raw channel never holds more than two batches. */
  lemma {:induction false} ChannelStaysBounded(cfg: Config, s: System, es: seq<Event>)
    requires Legal(cfg, s, es) && |s.raw| <= 2 * cfg.chunk
    ensures |Exec(cfg, s, es).raw| <= 2 * cfg.chunk
    decreases |es|
  {
    if es != [] {
      ChannelStaysBounded(cfg, Next(cfg, s, es[0]), es[1..]);
    }
  }

  // ------------------------------------------------------------ main results

  /**
   No gap: after any run from a stored cursor `c0`, every block the persisted
   cursor has passed was handed to the filtering engine, or sat in a batch whose
   correlation failed.
   */
  lemma {:induction false} NoGap(cfg: Config, c0: nat, es: seq<Event>, b: nat)
    requires Legal(cfg, Start(c0), es)
    requires c0 < b <= Exec(cfg, Start(c0), es).cursor
    ensures var s := Exec(cfg, Start(c0), es); WasHanded(s, b) || WasDropped(s, b)
  {
    RunKeepsInv(cfg, c0, Start(c0), es);
    var s := Exec(cfg, Start(c0), es);
    if b >= s.lifeStart {
      FateKnown(s, b);
    }
  }

  /**
   In the life that moved the cursor past `b`, the block was handed off exactly
   when its batch was not dropped.
   */
  lemma LifeLedger(cfg: Config, c0: nat, es: seq<Event>, b: nat)
    requires Legal(cfg, Start(c0), es)
    requires var s := Exec(cfg, Start(c0), es); s.lifeStart <= b <= s.cursor
    ensures var s := Exec(cfg, Start(c0), es);
      Entry(s.life, b) in s.log <==> Entry(s.life, b) !in s.dropped
  {
    RunKeepsInv(cfg, c0, Start(c0), es);
    var s := Exec(cfg, Start(c0), es);
    assert Fate(s, b - s.lifeStart);
  }

  /** Without a failed correlation nothing is ever dropped, so nothing is ever missed. */
  lemma {:induction false} DropsNeedErrArm(cfg: Config, s: System, es: seq<Event>)
    requires Legal(cfg, s, es) && Process(CorrelateErr) !in es
    ensures Exec(cfg, s, es).dropped == s.dropped
    decreases |es|
  {
    if es != [] {
      DropsNeedErrArm(cfg, Next(cfg, s, es[0]), es[1..]);
    }
  }

  /** A step hands off at most one block: the first one of this life with no fate yet. */
  lemma StepHandsTheNextBlock(cfg: Config, c0: nat, s: System, e: Event, b: nat)
    requires Inv(cfg, c0, s) && Enabled(cfg, s, e)
    ensures WasHanded(Next(cfg, s, e), b) <==>
      WasHanded(s, b) || (e == Process(HandOff) && b == s.lifeStart + |s.done|)
  {
    var t := Next(cfg, s, e);
    HistoryGrows(s, t);
    if e == Process(HandOff) {
      assert InFlight(s)[0] == s.proc.dispatch.rest[0];
      assert t.log[|s.log|].block == s.lifeStart + |s.done|;
    } else {
      assert t.log == s.log;
    }
  }

  /**
   The cursor never decreases, and what it has passed is settled: a block at or
   below it is handed off later if and only if it was handed off already, so a
   block that was only ever dropped is missed for good.
   */
  lemma {:induction false} PassedBlocksAreSettled(cfg: Config, c0: nat, s: System, es: seq<Event>, b: nat)
    requires Inv(cfg, c0, s) && Legal(cfg, s, es) && b <= s.cursor
    ensures s.cursor <= Exec(cfg, s, es).cursor
    ensures WasHanded(Exec(cfg, s, es), b) <==> WasHanded(s, b)
    decreases |es|
  {
    if es != [] {
      StepKeepsInv(cfg, c0, s, es[0]);
      StepHandsTheNextBlock(cfg, c0, s, es[0], b);
      PassedBlocksAreSettled(cfg, c0, Next(cfg, s, es[0]), es[1..], b);
    }
  }

  const ONE_BY_ONE := Config(0, 1)
  const FETCH_2 := [Ingest(ReadCursor(Some(0))), Ingest(ReadHead(2)), Ingest(FetchChunk)]
  const DROP_BLOCK_1 := [Ingest(SendBlock), Process(Receive(1)), Process(CorrelateErr)]
  const LOSE_BLOCK_1 := FETCH_2 + DROP_BLOCK_1
  const RECEIVE_BLOCK_2 := [Ingest(SendBlock), Process(Receive(2))]
  const HAND_BLOCK_2 := [Process(CorrelateOk), Process(HandOff), Process(Persist(true))]
  const KEEP_BLOCK_2 := RECEIVE_BLOCK_2 + HAND_BLOCK_2

  lemma ExecOne(cfg: Config, s: System, e: Event, rest: seq<Event>)
    requires Enabled(cfg, s, e)
    ensures Legal(cfg, s, [e] + rest) <==> Legal(cfg, Next(cfg, s, e), rest)
    ensures Legal(cfg, s, [e] + rest) ==> Exec(cfg, s, [e] + rest) == Exec(cfg, Next(cfg, s, e), rest)
  {
    assert ([e] + rest)[1..] == rest;
  }

  const FETCHED := Start(0).(ing := Ingestor(0, Sending(2, 2, [1, 2])), topHead := 2)
  const LOST := FETCHED.(ing := Ingestor(2, Sending(2, 2, [2])), done := [Dropped], dropped := {Entry(0, 1)})

  lemma FetchingRun()
    ensures Legal(ONE_BY_ONE, Start(0), FETCH_2) && Exec(ONE_BY_ONE, Start(0), FETCH_2) == FETCHED
  {
    var s0, es := Start(0), FETCH_2;
    var s1 := s0.(ing := Ingestor(0, CursorRead(Some(0))));
    var s2 := s0.(ing := Ingestor(0, Draining(1, 2)), topHead := 2);
    assert Next(ONE_BY_ONE, s2, es[2]) == FETCHED by { assert Range(1, 3) == [1, 2]; }
    ExecOne(ONE_BY_ONE, s2, es[2], []);
    ExecOne(ONE_BY_ONE, s1, es[1], es[2..]);
    ExecOne(ONE_BY_ONE, s0, es[0], es[1..]);
    assert [es[2]] + [] == es[2..] && [es[1]] + es[2..] == es[1..] && [es[0]] + es[1..] == es;
  }

  lemma DroppingRun()
    ensures Legal(ONE_BY_ONE, FETCHED, DROP_BLOCK_1) && Exec(ONE_BY_ONE, FETCHED, DROP_BLOCK_1) == LOST
  {
    var es := DROP_BLOCK_1;
    var s1 := FETCHED.(ing := Ingestor(2, Sending(2, 2, [2])), raw := [1]);
    assert Next(ONE_BY_ONE, FETCHED, es[0]) == s1 by { assert [1, 2][1..] == [2]; }
    var s2 := s1.(raw := [], proc := Processor([], Correlating([1])));
    assert Next(ONE_BY_ONE, s1, es[1]) == s2 by { assert [1][1..] == []; }
    assert Next(ONE_BY_ONE, s2, es[2]) == LOST by {
      assert Outcomes(1, Dropped) == [Dropped];
      assert (set b | b in [1] :: Entry(0, b)) == {Entry(0, 1)};
    }
    ExecOne(ONE_BY_ONE, s2, es[2], []);
    ExecOne(ONE_BY_ONE, s1, es[1], es[2..]);
    ExecOne(ONE_BY_ONE, FETCHED, es[0], es[1..]);
    assert [es[2]] + [] == es[2..] && [es[1]] + es[2..] == es[1..] && [es[0]] + es[1..] == es;
  }

  const RECEIVED := LOST.(ing := Ingestor(3, Sending(2, 2, [])), proc := Processor([], Correlating([2])))

  lemma ReceivingRun()
    ensures Legal(ONE_BY_ONE, LOST, RECEIVE_BLOCK_2) && Exec(ONE_BY_ONE, LOST, RECEIVE_BLOCK_2) == RECEIVED
  {
    var es := RECEIVE_BLOCK_2;
    var s1 := LOST.(ing := Ingestor(3, Sending(2, 2, [])), raw := [2]);
    assert Next(ONE_BY_ONE, LOST, es[0]) == s1 by { assert [2][1..] == []; }
    assert Next(ONE_BY_ONE, s1, es[1]) == RECEIVED by { assert [2][1..] == []; }
    ExecOne(ONE_BY_ONE, s1, es[1], []);
    ExecOne(ONE_BY_ONE, LOST, es[0], es[1..]);
    assert [es[1]] + [] == es[1..] && [es[0]] + es[1..] == es;
  }

  lemma HandingRun()
    ensures Legal(ONE_BY_ONE, RECEIVED, HAND_BLOCK_2)
    ensures var t := Exec(ONE_BY_ONE, RECEIVED, HAND_BLOCK_2); t.cursor == 2 && t.log == [Entry(0, 2)]
  {
    var es := HAND_BLOCK_2;
    var s1 := RECEIVED.(proc := Processor([], Handing([2], None)));
    var s2 := s1.(proc := Processor([], Handing([], Some(2))), done := [Dropped, Handed], log := [Entry(0, 2)]);
    assert Next(ONE_BY_ONE, s1, es[1]) == s2 by { assert [2][1..] == []; }
    ExecOne(ONE_BY_ONE, s2, es[2], []);
    ExecOne(ONE_BY_ONE, s1, es[1], es[2..]);
    ExecOne(ONE_BY_ONE, RECEIVED, es[0], es[1..]);
    assert [es[2]] + [] == es[2..] && [es[1]] + es[2..] == es[1..] && [es[0]] + es[1..] == es;
  }

  lemma StepKeepsDropped(cfg: Config, c0: nat, s: System, e: Event, b: nat)
    requires Inv(cfg, c0, s) && Enabled(cfg, s, e) && e != Restart && Entry(s.life, b) in s.dropped
    ensures var t := Next(cfg, s, e);
      Entry(t.life, b) in t.dropped && (WasHanded(t, b) <==> WasHanded(s, b))
  {
    StepHandsTheNextBlock(cfg, c0, s, e, b);
    assert InPast(s, Entry(s.life, b));
  }

  /** A dropped block is not retried: only a restart can bring it back. */
  lemma {:induction false} DroppedIsNotRetried(cfg: Config, c0: nat, s: System, es: seq<Event>, b: nat)
    requires Inv(cfg, c0, s) && Legal(cfg, s, es) && Restart !in es
    requires Entry(s.life, b) in s.dropped
    ensures WasHanded(Exec(cfg, s, es), b) <==> WasHanded(s, b)
    decreases |es|
  {
    if es != [] {
      StepKeepsInv(cfg, c0, s, es[0]);
      StepKeepsDropped(cfg, c0, s, es[0], b);
      DroppedIsNotRetried(cfg, c0, Next(cfg, s, es[0]), es[1..], b);
    }
  }

  lemma LosingRun()
    ensures Legal(ONE_BY_ONE, Start(0), LOSE_BLOCK_1 + KEEP_BLOCK_2)
    ensures var t := Exec(ONE_BY_ONE, Start(0), LOSE_BLOCK_1 + KEEP_BLOCK_2); t.cursor == 2 && t.log == [Entry(0, 2)]
  {
    FetchingRun();
    DroppingRun();
    ReceivingRun();
    HandingRun();
    ExecAppend(ONE_BY_ONE, Start(0), FETCH_2, DROP_BLOCK_1);
    ExecAppend(ONE_BY_ONE, LOST, RECEIVE_BLOCK_2, HAND_BLOCK_2);
    ExecAppend(ONE_BY_ONE, Start(0), LOSE_BLOCK_1, KEEP_BLOCK_2);
  }

  /**
   The error arm loses blocks: a dropped batch followed by a good one moves the
   cursor past a block that never was and never will be handed off.
   */
  lemma ErrArmLosesABlock(later: seq<Event>)
    requires Legal(ONE_BY_ONE, Start(0), LOSE_BLOCK_1 + KEEP_BLOCK_2)
             ==> Legal(ONE_BY_ONE, Exec(ONE_BY_ONE, Start(0), LOSE_BLOCK_1 + KEEP_BLOCK_2), later)
    ensures Legal(ONE_BY_ONE, Start(0), LOSE_BLOCK_1 + KEEP_BLOCK_2)
    ensures var s := Exec(ONE_BY_ONE, Start(0), LOSE_BLOCK_1 + KEEP_BLOCK_2);
      s.cursor == 2 && !WasHanded(s, 1) && !WasHanded(Exec(ONE_BY_ONE, s, later), 1)
  {
    LosingRun();
    RunKeepsInv(ONE_BY_ONE, 0, Start(0), LOSE_BLOCK_1 + KEEP_BLOCK_2);
    var s := Exec(ONE_BY_ONE, Start(0), LOSE_BLOCK_1 + KEEP_BLOCK_2);
    PassedBlocksAreSettled(ONE_BY_ONE, 0, s, later, 1);
  }

  lemma {:induction false} ExecAppend(cfg: Config, s: System, xs: seq<Event>, ys: seq<Event>)
    requires Legal(cfg, s, xs)
    ensures Legal(cfg, s, xs + ys) <==> Legal(cfg, Exec(cfg, s, xs), ys)
    ensures Legal(cfg, s, xs + ys) ==> Exec(cfg, s, xs + ys) == Exec(cfg, Exec(cfg, s, xs), ys)
    decreases |xs|
  {
    if xs == [] {
      assert xs + ys == ys;
    } else {
      assert (xs + ys)[1..] == xs[1..] + ys;
      ExecAppend(cfg, Next(cfg, s, xs[0]), xs[1..], ys);
    }
  }

  /**
   Across all cycles of one life the ingestor sends each block once: the next block it
   can send is always the first one of this life that was not sent before.
   */
  lemma EachBlockIsSentOnce(cfg: Config, c0: nat, es: seq<Event>)
    requires Legal(cfg, Start(c0), es)
    requires var s := Exec(cfg, Start(c0), es); Enabled(cfg, s, Ingest(SendBlock))
    ensures var s := Exec(cfg, Start(c0), es);
      && s.ing.cycle.pending[0] == s.lifeStart + |s.done| + |InFlight(s)|
      && Consecutive(InFlight(s), s.lifeStart + |s.done|)
  {
    RunKeepsInv(cfg, c0, Start(c0), es);
  }

  /** Within one process life each block is handed off at most once, in increasing order. */
  lemma HandOffsIncrease(cfg: Config, c0: nat, es: seq<Event>, i: nat, j: nat)
    requires Legal(cfg, Start(c0), es)
    requires i < j < |Exec(cfg, Start(c0), es).log|
    ensures var log := Exec(cfg, Start(c0), es).log;
      log[i].life == log[j].life ==> log[i].block < log[j].block
  {
    RunKeepsInv(cfg, c0, Start(c0), es);
  }

  /** The highest chain head any cycle of the run has read. */
  function HighestHead(es: seq<Event>): nat {
    if es == [] then 0
    else
      var rest := HighestHead(es[1..]);
      if es[0].Ingest? && es[0].i.ReadHead? then Later(es[0].i.head, rest) else rest
  }

  lemma {:induction false} TopHeadIsHighest(cfg: Config, s: System, es: seq<Event>)
    requires Legal(cfg, s, es)
    ensures Exec(cfg, s, es).topHead == Later(s.topHead, HighestHead(es))
    decreases |es|
  {
    if es != [] {
      TopHeadIsHighest(cfg, Next(cfg, s, es[0]), es[1..]);
    }
  }

  /** Nothing is handed off before it has the configured number of confirmations. */
  lemma HandOffsAreConfirmed(cfg: Config, c0: nat, es: seq<Event>, k: nat)
    requires Legal(cfg, Start(c0), es) && k < |Exec(cfg, Start(c0), es).log|
    ensures Exec(cfg, Start(c0), es).log[k].block + cfg.confirmations <= HighestHead(es)
  {
    RunKeepsInv(cfg, c0, Start(c0), es);
    TopHeadIsHighest(cfg, Start(c0), es);
    var s := Exec(cfg, Start(c0), es);
    assert s.log[k] in s.log;
  }
}
