/**
 The ingestor service: one polling cycle drains the chain from the high-water
 mark to the confirmed head. Every cycle is a run of the ingestor's steps in
 `BlockProtocol`, whatever the node, the database and the shutdown signal do.
 */
module BlockIngestion {
  import opened Prelude
  import opened BlockProtocol

  datatype CycleEnd = CaughtUp | Completed | Cancelled | Failed

  /**
   What the surroundings answer during one cycle. The last four are asked with the
   number of the block the cycle has reached.
   */
  datatype World = World(
    cursor: Result<Option<nat>, ()>,
    head: Result<nat, ()>,
    fetches: nat -> bool,
    stopsBeforeChunk: nat -> bool,
    stopsBeforeSend: nat -> bool,
    accepts: nat -> bool)

  function StepOf(cfg: Config, f: (Ingestor, seq<nat>), e: IngestEvent): (Ingestor, seq<nat>)
    requires IngestEnabled(f.0, e)
  {
    (IngestStep(cfg, f.0, e), if e.SendBlock? then f.1 + [f.0.cycle.pending[0]] else f.1)
  }

  /** The ingestor after `es`, with the blocks it sent on the way; `None` if some step is not enabled. */
  function Trace(cfg: Config, es: seq<IngestEvent>): Option<(Ingestor, seq<nat>)> {
    if es == [] then Some((Ingestor(0, Idle), []))
    else
      match Trace(cfg, es[..|es| - 1])
      case None => None
      case Some(mid) => if IngestEnabled(mid.0, es[|es| - 1]) then Some(StepOf(cfg, mid, es[|es| - 1])) else None
  }

  lemma TraceSnoc(cfg: Config, es: seq<IngestEvent>, e: IngestEvent)
    ensures Trace(cfg, es + [e]) ==
      match Trace(cfg, es)
      case None => None
      case Some(mid) => if IngestEnabled(mid.0, e) then Some(StepOf(cfg, mid, e)) else None
  {
    assert (es + [e])[..|es|] == es;
  }

  lemma RecordsQuiet(cfg: Config, es: seq<IngestEvent>, f: (Ingestor, seq<nat>), e: IngestEvent)
    requires Trace(cfg, es) == Some(f) && IngestEnabled(f.0, e) && !e.SendBlock?
    ensures Trace(cfg, es + [e]) == Some((IngestStep(cfg, f.0, e), f.1))
    ensures IngestStep(cfg, f.0, e).next == f.0.next
  {
    TraceSnoc(cfg, es, e);
  }

  lemma RecordsSend(cfg: Config, es: seq<IngestEvent>, f: (Ingestor, seq<nat>))
    requires Trace(cfg, es) == Some(f) && IngestEnabled(f.0, SendBlock)
    ensures var block := f.0.cycle.pending[0];
      && Trace(cfg, es + [SendBlock]) == Some((IngestStep(cfg, f.0, SendBlock), f.1 + [block]))
      && IngestStep(cfg, f.0, SendBlock) == Ingestor(block + 1, f.0.cycle.(pending := f.0.cycle.pending[1..]))
  {
    TraceSnoc(cfg, es, SendBlock);
  }

  /** The surroundings let every block of the consecutive run `sent` through. */
  predicate Passed(w: World, sent: seq<nat>, first: nat) {
    Consecutive(sent, first) && forall b :: b in sent ==> w.accepts(b) && !w.stopsBeforeSend(b)
  }

  predicate StoppedAt(w: World, end: CycleEnd, b: nat) {
    match end
    case Cancelled => w.stopsBeforeChunk(b) || w.stopsBeforeSend(b)
    case Failed => !w.fetches(b) || !w.accepts(b)
    case _ => false
  }

  class BlockIngestor {
    const cfg: Config
    var nextBlock: nat
    var rawTx: seq<nat>
    ghost var trace: seq<IngestEvent>
    ghost var model: Ingestor

    /** What was sent, and the high-water mark, are those of the protocol run `trace`. */
    ghost predicate Valid()
      reads this
    {
      Trace(cfg, trace) == Some((model, rawTx)) && nextBlock == model.next
    }

    constructor (cfg: Config)
      ensures Valid() && this.cfg == cfg && nextBlock == 0 && rawTx == [] && model.cycle == Idle
    {
      this.cfg := cfg;
      nextBlock, rawTx, trace, model := 0, [], [], Ingestor(0, Idle);
    }

    /** Records one protocol step that sends nothing. */
    ghost method Fire(e: IngestEvent)
      requires Valid() && IngestEnabled(model, e) && !e.SendBlock?
      modifies `trace, `model
      ensures Valid() && model == IngestStep(cfg, old(model), e)
    {
      RecordsQuiet(cfg, trace, (model, rawTx), e);
      trace, model := trace + [e], IngestStep(cfg, model, e);
    }

    /** One block onto the raw channel, then the high-water mark. */
    method Send(block: nat)
      requires Valid() && model.cycle.Sending? && model.cycle.pending != [] && model.cycle.pending[0] == block
      modifies this
      ensures Valid() && model == IngestStep(cfg, old(model), SendBlock)
      ensures rawTx == old(rawTx) + [block] && nextBlock == block + 1
    {
      RecordsSend(cfg, trace, (model, rawTx));
      trace, model := trace + [SendBlock], IngestStep(cfg, model, SendBlock);
      rawTx := rawTx + [block];
      nextBlock := block + 1;
    }

    /** The sending loop: stops in front of the first block that is cancelled or refused. */
    method SendWhilePassed(w: World, blocks: seq<nat>, ghost to: nat, ghost safe: nat, ghost from: nat) returns (n: nat)
      requires Valid() && model.cycle == Sending(to, safe, blocks) && Consecutive(blocks, from)
      modifies this
      ensures n <= |blocks| && (n < |blocks| ==> w.stopsBeforeSend(blocks[n]) || !w.accepts(blocks[n]))
      ensures Valid() && model.cycle == Sending(to, safe, blocks[n..])
      ensures rawTx == old(rawTx) + blocks[..n] && Passed(w, blocks[..n], from)
      ensures nextBlock == if n == 0 then old(nextBlock) else from + n
    {
      n := 0;
      while n < |blocks| && !w.stopsBeforeSend(blocks[n]) && w.accepts(blocks[n])
        invariant n <= |blocks|
        invariant Valid() && model.cycle == Sending(to, safe, blocks[n..])
        invariant rawTx == old(rawTx) + blocks[..n] && Passed(w, blocks[..n], from)
        invariant nextBlock == if n == 0 then old(nextBlock) else from + n
      {
        Send(blocks[n]);
        assert blocks[..n + 1] == blocks[..n] + [blocks[n]];
        n := n + 1;
      }
    }

    /** Sends one fetched chunk; stops early on cancellation or when the channel is closed. */
    method SendChunk(w: World, blocks: seq<nat>, ghost to: nat, ghost safe: nat, ghost from: nat)
      returns (stop: Option<CycleEnd>, ghost sent: seq<nat>)
      requires Valid() && model.cycle == Sending(to, safe, blocks) && Consecutive(blocks, from)
      modifies this
      ensures Valid() && rawTx == old(rawTx) + sent && Passed(w, sent, from) && |sent| <= |blocks|
      ensures nextBlock == if sent == [] then old(nextBlock) else from + |sent|
      ensures stop.Some? ==> StoppedAt(w, stop.value, from + |sent|) && model.cycle == Idle
      ensures stop.None? ==>
        |sent| == |blocks| && model.cycle == if to + 1 <= safe then Draining(to + 1, safe) else Idle
    {
      var n := SendWhilePassed(w, blocks, to, safe, from);
      sent := blocks[..n];
      if n == |blocks| {
        Fire(EndChunk);
        stop := None;
      } else {
        Fire(Abort);
        stop := Some(if w.stopsBeforeSend(blocks[n]) then Cancelled else Failed);
      }
    }

    /** One chunk: a cancellation check, the fetch, and the sends. */
    method FetchAndSend(w: World, from: nat, safe: nat) returns (stop: Option<CycleEnd>, ghost sent: seq<nat>, next: nat)
      requires Valid() && model.cycle == Draining(from, safe) && from <= safe
      modifies this
      ensures Valid() && rawTx == old(rawTx) + sent && Passed(w, sent, from) && from + |sent| <= safe + 1
      ensures nextBlock == if sent == [] then old(nextBlock) else from + |sent|
      ensures stop.Some? ==> StoppedAt(w, stop.value, from + |sent|) && model.cycle == Idle
      ensures stop.None? ==>
        next == from + |sent| > from && model.cycle == if next <= safe then Draining(next, safe) else Idle
    {
      sent, next := [], from;
      if w.stopsBeforeChunk(from) || !w.fetches(from) {
        Fire(Abort);
        stop := Some(if w.stopsBeforeChunk(from) then Cancelled else Failed);
      } else {
        var to := ChunkEnd(cfg, from, safe);
        Fire(FetchChunk);
        stop, sent := SendChunk(w, Range(from, to + 1), to, safe, from);
        next := to + 1;
      }
    }

    /** Fetches and sends consecutive chunks up to the safe head; terminates even for a chunk size of 0. */
    method Drain(w: World, first: nat, safe: nat) returns (end: CycleEnd, ghost sent: seq<nat>)
      requires Valid() && first <= safe && model.cycle == Draining(first, safe)
      modifies this
      ensures Valid() && model.cycle == Idle && rawTx == old(rawTx) + sent
      ensures Passed(w, sent, first) && first + |sent| <= safe + 1
      ensures nextBlock == if sent == [] then old(nextBlock) else first + |sent|
      ensures if end.Completed? then first + |sent| == safe + 1 else StoppedAt(w, end, first + |sent|)
    {
      var from := first;
      sent := [];
      var stop: Option<CycleEnd> := None;
      while from <= safe && stop.None?
        invariant Valid() && rawTx == old(rawTx) + sent && Passed(w, sent, first)
        invariant nextBlock == if sent == [] then old(nextBlock) else first + |sent|
        invariant first + |sent| <= safe + 1
        invariant if stop.Some? then model.cycle == Idle && StoppedAt(w, stop.value, first + |sent|)
                  else from == first + |sent| && model.cycle == if from <= safe then Draining(from, safe) else Idle
        decreases safe + 1 - first - |sent|, stop.None?
      {
        ghost var more;
        stop, more, from := FetchAndSend(w, from, safe);
        JoinRuns(w, sent, more, first);
        sent := sent + more;
      }
      end := if stop.Some? then stop.value else Completed;
    }

    lemma JoinRuns(w: World, xs: seq<nat>, ys: seq<nat>, first: nat)
      requires Passed(w, xs, first) && Passed(w, ys, first + |xs|)
      ensures Passed(w, xs + ys, first)
    {
    }

    /**
     One polling cycle. It sends a consecutive run of confirmed blocks that starts
     where the cursor or the high-water mark says, and stops short of the safe head
     only where the surroundings stop it.
     */
    method IngestBlocks(w: World) returns (end: CycleEnd, ghost sent: seq<nat>)
      requires Valid() && model.cycle == Idle
      modifies this
      ensures Valid() && model.cycle == Idle && rawTx == old(rawTx) + sent
      ensures w.cursor.Err? || w.head.Err? ==> end == Failed && sent == [] && nextBlock == old(nextBlock)
      ensures w.cursor.Ok? && w.head.Ok? ==>
        var from := FirstBlock(w.cursor.value, w.head.value, old(nextBlock));
        && Passed(w, sent, from)
        && (sent == [] || from + |sent| - 1 + cfg.confirmations <= w.head.value)
        && nextBlock == (if sent == [] then old(nextBlock) else from + |sent|)
        && match end
           case CaughtUp => sent == [] && from + cfg.confirmations > w.head.value
           case Completed => nextBlock + cfg.confirmations == w.head.value + 1
           case _ => StoppedAt(w, end, from + |sent|)
    {
      sent := [];
      if w.cursor.Err? {
        end := Failed;
        return;
      }
      Fire(ReadCursor(w.cursor.value));
      if w.head.Err? {
        Fire(Abort);
        end := Failed;
        return;
      }
      var head := w.head.value;
      Fire(ReadHead(head));
      var from := FirstBlock(w.cursor.value, head, nextBlock);
      if head < cfg.confirmations || from > head - cfg.confirmations {
        end := CaughtUp;
        return;
      }
      end, sent := Drain(w, from, head - cfg.confirmations);
    }
  }
}
