/**
 The processor service: it buffers raw blocks, correlates a full batch, hands the
 result to the filtering engine and then persists the cursor.
 */
module BlockProcessing {
  import opened Prelude
  import opened BlockProtocol

  /**
   What the surroundings do while one batch is processed. `closesAfter` says after
   how many blocks the receiver of the correlated channel goes away, if it does.
   */
  datatype World = World(correlates: bool, closesAfter: Option<nat>, stores: bool)

  /** The blocks of a batch that the channel takes; a closed channel stays closed. */
  function Accepted(closed: bool, w: World, blocks: seq<nat>): (r: seq<nat>)
    ensures r <= blocks
  {
    if closed then []
    else if w.closesAfter.Some? && w.closesAfter.value < |blocks| then blocks[..w.closesAfter.value]
    else blocks
  }

  /** The channel refused some block of the batch, now or before. */
  predicate Refuses(closed: bool, w: World, blocks: seq<nat>) { closed || Accepted(closed, w, blocks) != blocks }

  /** `refused` says that the correlated channel was found closed. */
  datatype Effect = Effect(proc: Processor, handed: seq<nat>, cursor: nat, refused: bool)

  /** A channel that was found closed takes nothing more. */
  predicate Allowed(f: Effect, e: ProcessEvent) {
    ProcessEnabled(f.proc, e) && (e.HandOff? ==> !f.refused)
  }

  function EffectOf(cfg: Config, f: Effect, e: ProcessEvent): Effect
    requires Allowed(f, e)
  {
    Effect(ProcessStep(cfg, f.proc, e),
           if e.HandOff? then f.handed + [f.proc.dispatch.rest[0]] else f.handed,
           if e == Persist(true) then f.proc.dispatch.last.value else f.cursor,
           f.refused || e.HandOffClosed?)
  }

  /** The effect of `es` in a process life that starts with the stored cursor `c`. */
  function Trace(cfg: Config, c: nat, es: seq<ProcessEvent>): Option<Effect> {
    if es == [] then Some(Effect(Processor([], Waiting), [], c, false))
    else
      match Trace(cfg, c, es[..|es| - 1])
      case None => None
      case Some(mid) => if Allowed(mid, es[|es| - 1]) then Some(EffectOf(cfg, mid, es[|es| - 1])) else None
  }

  lemma TraceSnoc(cfg: Config, c: nat, es: seq<ProcessEvent>, e: ProcessEvent)
    ensures Trace(cfg, c, es + [e]) ==
      match Trace(cfg, c, es)
      case None => None
      case Some(f) => if Allowed(f, e) then Some(EffectOf(cfg, f, e)) else None
  {
    assert (es + [e])[..|es|] == es;
  }

  class BlockProcessor {
    const cfg: Config
    const firstCursor: nat
    var buffer: seq<nat>
    var correlatedTx: seq<nat>
    var cursor: nat
    var closed: bool
    ghost var trace: seq<ProcessEvent>
    ghost var model: Processor

    /** Buffer, channel and cursor are those of the protocol run `trace`; `closed` says that the channel was found closed. */
    ghost predicate Valid()
      reads this
    {
      Trace(cfg, firstCursor, trace) == Some(Effect(model, correlatedTx, cursor, closed)) && buffer == model.buffer
    }

    constructor (cfg: Config, cursor: nat)
      ensures Valid() && this.cfg == cfg && this.cursor == cursor
      ensures buffer == [] && correlatedTx == [] && !closed && model.dispatch == Waiting
    {
      this.cfg, this.cursor, firstCursor := cfg, cursor, cursor;
      buffer, correlatedTx, closed, trace, model := [], [], false, [], Processor([], Waiting);
    }

    /** Records one protocol step that touches neither buffer, channel nor cursor. */
    ghost method Fire(e: ProcessEvent)
      requires Valid() && ProcessEnabled(model, e)
      requires e in {CorrelateOk, CorrelateErr, Persist(false)}
      modifies `trace, `model
      ensures Valid() && model == ProcessStep(cfg, old(model), e)
    {
      TraceSnoc(cfg, firstCursor, trace, e);
      trace, model := trace + [e], ProcessStep(cfg, model, e);
    }

    method Hand(block: nat)
      requires Valid() && model.dispatch.Handing? && model.dispatch.rest != [] && model.dispatch.rest[0] == block
      requires !closed
      modifies `trace, `model, `correlatedTx
      ensures Valid() && model == old(model).(dispatch := Handing(old(model.dispatch.rest[1..]), Some(block)))
      ensures correlatedTx == old(correlatedTx) + [block]
    {
      TraceSnoc(cfg, firstCursor, trace, HandOff);
      trace, model := trace + [HandOff], ProcessStep(cfg, model, HandOff);
      correlatedTx := correlatedTx + [block];
    }

    /** A send fails: the receiver is gone, and the rest of the batch is abandoned. */
    method FindClosed()
      requires Valid() && model.dispatch.Handing? && model.dispatch.rest != []
      modifies `trace, `model, `closed
      ensures Valid() && closed && model == old(model).(dispatch := Waiting)
    {
      TraceSnoc(cfg, firstCursor, trace, HandOffClosed);
      trace, model := trace + [HandOffClosed], ProcessStep(cfg, model, HandOffClosed);
      closed := true;
    }

    method SetLastProcessed(n: nat)
      requires Valid() && model.dispatch == Handing([], Some(n))
      modifies `trace, `model, `cursor
      ensures Valid() && model == Processor(buffer, Waiting) && cursor == n
    {
      TraceSnoc(cfg, firstCursor, trace, Persist(true));
      trace, model := trace + [Persist(true)], ProcessStep(cfg, model, Persist(true));
      cursor := n;
    }

    /** The sending loop: stops in front of the first block the channel refuses. */
    method HandWhileAccepted(blocks: seq<nat>, w: World) returns (n: nat, lastProcessed: Option<nat>)
      requires Valid() && model.dispatch == Handing(blocks, None)
      modifies `trace, `model, `correlatedTx
      ensures n <= |blocks| && blocks[..n] == Accepted(closed, w, blocks)
      ensures Valid() && correlatedTx == old(correlatedTx) + blocks[..n]
      ensures lastProcessed == if n == 0 then None else Some(blocks[n - 1])
      ensures model.dispatch == Handing(blocks[n..], lastProcessed)
    {
      n, lastProcessed := 0, None;
      while n < |blocks| && !closed && w.closesAfter != Some(n)
        invariant n <= |Accepted(closed, w, blocks)|
        invariant Valid() && correlatedTx == old(correlatedTx) + blocks[..n]
        invariant lastProcessed == if n == 0 then None else Some(blocks[n - 1])
        invariant model.dispatch == Handing(blocks[n..], lastProcessed)
      {
        Hand(blocks[n]);
        assert blocks[..n + 1] == blocks[..n] + [blocks[n]] && blocks[n..][1..] == blocks[n + 1..];
        lastProcessed := Some(blocks[n]);
        n := n + 1;
      }
    }

    /** Sends the batch in order until the channel refuses a block. */
    method HandOverBatch(blocks: seq<nat>, w: World) returns (lastProcessed: Option<nat>, complete: bool)
      requires Valid() && model.dispatch == Handing(blocks, None) && blocks != []
      modifies `trace, `model, `correlatedTx, `closed
      ensures Valid() && correlatedTx == old(correlatedTx) + Accepted(old(closed), w, blocks)
      ensures closed == Refuses(old(closed), w, blocks) == !complete
      ensures complete ==> lastProcessed == Some(blocks[|blocks| - 1])
      ensures model.dispatch == if complete then Handing([], lastProcessed) else Waiting
    {
      var n;
      n, lastProcessed := HandWhileAccepted(blocks, w);
      complete := n == |blocks|;
      assert complete <==> blocks[..n] == blocks;
      if !complete {
        FindClosed();
      }
    }

    /** Everything a batch of blocks can do to the channel and the cursor. */
    method ProcessAndDispatch(blocks: seq<nat>, w: World)
      requires Valid() && model.dispatch == Correlating(blocks) && blocks != []
      modifies `trace, `model, `correlatedTx, `cursor, `closed
      ensures Valid() && model.dispatch == Waiting
      ensures correlatedTx == old(correlatedTx) + if w.correlates then Accepted(old(closed), w, blocks) else []
      ensures closed == if w.correlates then Refuses(old(closed), w, blocks) else old(closed)
      ensures cursor == if w.correlates && !closed && w.stores then blocks[|blocks| - 1] else old(cursor)
    {
      if !w.correlates {
        Fire(CorrelateErr);
        return;
      }
      Fire(CorrelateOk);
      var lastProcessed, complete := HandOverBatch(blocks, w);
      if complete {
        if w.stores {
          SetLastProcessed(lastProcessed.value);
        } else {
          Fire(Persist(false));
        }
      }
    }

    /** The receive arm of the service loop; a chunk size of 0 or 1 processes every block at once. */
    method OnBlock(block: nat, w: World)
      requires Valid() && model.dispatch == Waiting
      modifies this
      ensures Valid() && model.dispatch == Waiting
      ensures |old(buffer)| + 1 < cfg.chunk ==>
        buffer == old(buffer) + [block] && correlatedTx == old(correlatedTx) && cursor == old(cursor) && closed == old(closed)
      ensures |old(buffer)| + 1 >= cfg.chunk ==>
        var batch := old(buffer) + [block];
        && buffer == []
        && correlatedTx == old(correlatedTx) + (if w.correlates then Accepted(old(closed), w, batch) else [])
        && closed == (if w.correlates then Refuses(old(closed), w, batch) else old(closed))
        && cursor == if w.correlates && !closed && w.stores then block else old(cursor)
    {
      TraceSnoc(cfg, firstCursor, trace, Receive(block));
      trace, model := trace + [Receive(block)], ProcessStep(cfg, model, Receive(block));
      buffer := buffer + [block];
      if |buffer| >= cfg.chunk {
        var batch := buffer;
        buffer := [];
        ProcessAndDispatch(batch, w);
      }
    }

    /** On shutdown the partial batch is still processed. */
    method Shutdown(w: World)
      requires Valid() && model.dispatch == Waiting
      modifies this
      ensures Valid() && model.dispatch == Waiting && buffer == []
      ensures correlatedTx == old(correlatedTx) + if w.correlates then Accepted(old(closed), w, old(buffer)) else []
      ensures old(buffer) != [] ==>
        && closed == (if w.correlates then Refuses(old(closed), w, old(buffer)) else old(closed))
        && cursor == if w.correlates && !closed && w.stores then old(buffer)[|old(buffer)| - 1] else old(cursor)
      ensures old(buffer) == [] ==> cursor == old(cursor) && closed == old(closed)
    {
      TraceSnoc(cfg, firstCursor, trace, Flush);
      trace, model := trace + [Flush], ProcessStep(cfg, model, Flush);
      if buffer != [] {
        var batch := buffer;
        buffer := [];
        ProcessAndDispatch(batch, w);
      }
    }
  }
}
