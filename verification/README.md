# Argus pipeline model

A Dafny model of the Argus event pipeline, from the chain to the outbox, with
proofs of what the pipeline keeps over every run and every input. The files
follow the program's components:

| file | component |
|---|---|
| `BlockProtocol.dfy`, `BlockLedger.dfy`, `BlockRuns.dfy` | ingestor, processor, channels and cursor as one state machine with restarts; what it misses; how its services join |
| `BlockIngestor.dfy`, `BlockProcessor.dfy` | the two services as classes, each method a run of that machine |
| `BlockFetcher.dfy`, `BlockCorrelation.dfy`, `WatchedCalls.dfy` | range splitting, grouping of logs, pruning of transactions and what it spares |
| `InterestRegistry.dfy`, `RegistryRules.dfy`, `FetchedEvaluation.dfy`, `AbiIndex.dfy` | the registry that narrows fetching, its rules from the monitors' fields, what it does to evaluation, the ABI indexes |
| `EvaluationSpec.dfy`, `Filtering.dfy`, `EvaluationLaws.dfy`, `EvaluationParts.dfy`, `ScriptViews.dfy` | evaluation without caches, the engine with caches, laws of its matches, how monitors affect each other, what scripts see and matches say |
| `MatchId.dfy`, `Payload.dfy` | the match id with its decoder, payloads and idempotency keys |
| `Throttle.dfy`, `AlertPolicies.dfy`, `AggregationWindows.dfy`, `AlertOutcomes.dfy`, `Replays.dfy`, `AlertManager.dfy` | alert policies as functions with their laws, whole runs and replays, and the manager that updates maps in place |
| `Outbox.dfy`, `OutboxProcessor.dfy` | the outbox table and the delivery loop |

How the program's form is kept: services and tables are classes whose methods
update their fields; every such method is tied to a function or to the state
machine, about which the laws are proved. `Next` in `BlockProtocol.dfy` moves the
two services by the very functions `IngestStep` and `ProcessStep` that the class
invariants use, in any interleaving; `Restart` may happen at any point and keeps
only the cursor.

What the model takes as given, always as parameters or `requires`:

- Script evaluation, ABI parameter decoding, JSON building and the 64-bit hasher
  are arbitrary functions (`Engine`, `ParamDecoder`, `Hasher`). A script may add
  variables to its scope but cannot remove bindings or change constants.
- A transaction hash and log index name one log; a transaction hash names one
  transaction; an event topic fixes the event name; a bloom filter has no false
  negatives; logs carry the number of their block.
- A transaction hash prints as `0x` and 64 lower-case hexadecimal digits.
- Clock readings, iteration order of concurrent maps, completion order of
  concurrent requests, and success or failure of every database write, channel
  send, fetch and delivery are chosen freely by the surroundings. A failed
  database transaction changes nothing; a cursor write may be stored or not
  whatever it reports. A channel found closed stays closed.
- Idempotency keys are unique in the outbox
  (`migrations/20260801000000_add_outbox_idempotency_key.sql`, line 11).

Where code and documentation disagree, the model follows the code:

- `README.md` line 23 promises resuming "without missing any blocks", and the log
  message at `crates/argus-engine/src/block_processor.rs` line 122 promises a
  retry. A batch whose correlation fails is dropped: `MissedExactlyWhen` and
  `DropsNeedErrArm` say exactly which blocks are missed, `DroppedIsNotRetried`
  that only a restart brings them back, `ErrArmLosesABlock` gives a run.
- `crates/argus-core/src/models/monitor_match.rs` lines 17-20 promise unique ids.
  A missing log index counts as 0, so ids are unique for every monitor exactly
  when effective log indexes differ (`MatchesAreUnique`, `SharedIndexCollides`).
- `crates/argus-engine/src/filtering.rs` lines 514-518 and 558-561 say that a match
  carries the decoded call if available. For a monitor without the call capability
  that depends on the monitors evaluated before it (`LogMatchShowsCallWhen`,
  `TxMatchShowsCallWhen`, `ListingOrderDecidesTheCall`).
- `crates/argus-engine/src/filtering.rs` lines 75-80 describe a fallback of hybrid
  monitors to transaction matches. Pruning removes log-less transactions first
  unless a pure transaction monitor exists (`PruningIsSafeWhen`,
  `PipelineIsExactWhen`, `HybridFallbackIsPruned`).
- `crates/argus-core/src/models/action/policies.rs` lines 38-40 read as a limit for
  any interval of one window length. `LimitIsPerWindow` says for which policies it
  is one; `WorstIsNotExceeded` and `WorstIsReached` give the exact number for
  intervals of any length.
- A window whose enqueue fails is lost although it was drained "safely", and so is
  one whose key is taken (`LossesHaveCauses`, `LossMeansFailureOrCollision`).
- A log of an address in precise mode is fetched only for the signatures asked for
  there, so a monitor of all addresses can miss it (`FetchServesMonitorWhen`).
- `docs/src/user_guide/rhai_context.md` line 39 says that a monitor sees logs of its
  own contract. It sees every log that any monitor has had fetched
  (`MonitorIsIndependentWhen`, `OutcomesShowInterest`).

## Model

| member | source | states |
|---|---|---|
| `BlockProtocol.NoGap` | crates/argus-engine/src/block_processor.rs:91-125 | After any interleaving of fetches, sends, batches, failed writes, closed channels and restarts from a stored cursor, every block the cursor has passed was handed off or sat in a batch whose correlation failed |
| `BlockLedger.MissedExactlyWhen` | crates/argus-engine/src/block_processor.rs:91-125 | Over all lives: a block the cursor has passed was never handed off if and only if the life that passed it dropped it and no earlier life had handed it off |
| `BlockLedger.EveryLifeSettles` | crates/argus-engine/src/block_processor.rs:91-125 | Whatever life moved the cursor past a block, that life handed it off if and only if it did not drop it |
| `BlockProtocol.DropsNeedErrArm` | crates/argus-engine/src/block_processor.rs:121-123 | Without a failed correlation nothing is ever dropped, so with `NoGap` nothing is missed |
| `BlockProtocol.PassedBlocksAreSettled` | crates/argus-engine/src/block_processor.rs:107-119 | The cursor never decreases, and a block at or below it is handed off later iff it already was |
| `BlockProtocol.DroppedIsNotRetried` | crates/argus-engine/src/block_processor.rs:121-123 | Within the life that dropped it, a block is handed off later iff it already was: the batch is not retried |
| `BlockProtocol.ErrArmLosesABlock` | crates/argus-engine/src/block_processor.rs:121-123 | A concrete run in which a dropped block is passed by the cursor and never handed off by any continuation |
| `BlockProtocol.HandOffsIncrease` | crates/argus-engine/src/block_processor.rs:95-104 | Within one process life hand-offs strictly increase, so no block is handed off twice |
| `BlockProtocol.EachBlockIsSentOnce` | crates/argus-engine/src/block_ingestor.rs:164-219 | Over all cycles of one life the block about to be sent is the first one not sent before |
| `BlockProtocol.HandOffsAreConfirmed` | crates/argus-engine/src/block_ingestor.rs:151-159 | No block is handed off before some head that was read lies the configured number of confirmations above it |
| `BlockProtocol.RunKeepsInv` | crates/argus-engine/src/block_ingestor.rs:144-226 | The flow, dispatch, coverage and history invariants hold after every legal run |
| `BlockProtocol.CyclesStartAt` | crates/argus-engine/src/block_ingestor.rs:151-176 | A cycle starts past the cursor and past all that was sent, leaving none out; without a cursor it goes back a hundred blocks |
| `BlockProtocol.ChannelStaysBounded` | src/supervisor/mod.rs:237-238 | The raw channel never holds more than two batches |
| `BlockRuns.CanAlwaysMoveOn` | crates/argus-engine/src/block_processor.rs:60-125 | A running process, in whatever state, can go on without a restart to hand off everything it holds and move the cursor past all it has sent |
| `BlockRuns.RestartRuns` | src/context/mod.rs:270-290 | Any reachable state, closed or stopped, runs again after a restart, from the stored cursor |
| `BlockRuns.SystemIsItsServices` | crates/argus-engine/src/block_processor.rs:60-125 | The runs of one process life are exactly the interleavings of an ingestor run and a processor run that agree on the raw channel, its bound, the cursor, shutdown and the closed channel; the system shows what both sent, handed off and stored |
| `BlockRuns.ServicesLeaveNoGap` | crates/argus-engine/src/block_processor.rs:91-125 | The no-gap law for the two services as they are, however they are scheduled |
| `BlockIngestion.BlockIngestor.IngestBlocks` | crates/argus-engine/src/block_ingestor.rs:144-226 | One cycle sends a consecutive run from the later of cursor and high-water mark, never past head minus confirmations, and falls short only where fetch, channel or cancellation stopped it; it is a protocol run |
| `BlockIngestion.BlockIngestor.Drain` | crates/argus-engine/src/block_ingestor.rs:180-225 | The drain loop terminates for every chunk size, including 0, and completes exactly at the safe head |
| `BlockIngestion.BlockIngestor.SendChunk` | crates/argus-engine/src/block_ingestor.rs:200-220 | A fetched chunk is sent in order up to the first block that is refused or cancelled; the high-water mark follows each send |
| `BlockProcessing.BlockProcessor.OnBlock` | crates/argus-engine/src/block_processor.rs:72-78 | A block fills the buffer or completes a batch, whose effect on channel and cursor is given exactly |
| `BlockProcessing.BlockProcessor.ProcessAndDispatch` | crates/argus-engine/src/block_processor.rs:91-125 | A batch adds exactly the prefix the channel accepts; the cursor moves to its last block iff all was accepted and the write succeeded |
| `BlockProcessing.BlockProcessor.HandOverBatch` | crates/argus-engine/src/block_processor.rs:94-105 | Blocks go out in order until the channel refuses one |
| `BlockProcessing.BlockProcessor.Shutdown` | crates/argus-engine/src/block_processor.rs:83-86 | On shutdown the partial batch is processed like a full one |
| `MatchIds.IdRoundTrip` | crates/argus-core/src/models/monitor_match.rs:115-124 | A decoder recovers monitor id (negative or not), action name (dashes or not), hash, kind and log index from the id |
| `MatchIds.IdInjective` | crates/argus-core/src/models/monitor_match.rs:16-20 | Two ids are equal iff all identifying fields are, so a transaction id never equals a log id |
| `MatchIds.AggregateKeyIsNoMatchId` | crates/argus-core/src/action_dispatcher/payload.rs:60-77 | An `agg-` key never equals a match id |
| `Payloads.SameIdSameEvent` | crates/argus-core/src/models/monitor_match.rs:115-136 | Two built matches share an id iff they agree on monitor, action, transaction hash and kind, and on the log index if both are of logs |
| `Payloads.OrderedIsUnique` | crates/argus-core/src/action_dispatcher/payload.rs:66-69 | Any sorting of the ids gives the same sequence |
| `Payloads.ComputeKey` | crates/argus-core/src/action_dispatcher/payload.rs:60-77 | A single match's key is its id; an aggregated key is `agg-` and the hexadecimal digest the hasher reaches when fed the ids one by one in sorted order |
| `Payloads.AggregateKeyIsCanonical` | crates/argus-core/src/action_dispatcher/payload.rs:60-77 | Aggregated keys ignore match order; equal keys mean equal id multisets unless two sorted id lists drive the hasher to the same digest; with injective `feed` and `finish` they mean it always |
| `Payloads.PerfectNeverCollides` | crates/argus-core/src/action_dispatcher/payload.rs:60-77 | A hasher with injective `feed` and `finish` whose `feed` never returns to the start has no two id lists with one digest |
| `Payloads.SingleAndAggregateKeysDiffer` | crates/argus-core/src/action_dispatcher/payload.rs:60-77 | A single payload never suppresses an aggregated one or the reverse |
| `Outbox.InsertAllMeans` | crates/argus-store/src/app_repository.rs:940-966 | After an enqueue a key maps to the row it had, else to the first item that carries it |
| `Outbox.InsertAllKeepsSound` | crates/argus-store/src/app_repository.rs:940-966 | Keys stay unique and row ids increase |
| `Outbox.InsertAllSplits` | crates/argus-store/src/app_repository.rs:940-972 | Cutting the enqueue anywhere changes nothing: chunk boundaries are invisible |
| `Outbox.OutboxTable.EnqueueBatch` | crates/argus-store/src/app_repository.rs:922-977 | Chunked insert-or-ignore equals inserting one by one, all or nothing, at most 999 bound variables a statement |
| `Outbox.OutboxTable.DeleteBatch` | crates/argus-store/src/app_repository.rs:1004-1039 | Chunked deletion removes exactly the given ids, all or nothing |
| `Outbox.WithoutCounts` | crates/argus-store/src/app_repository.rs:1004-1039 | Deleting distinct present ids removes exactly that many rows |
| `OutboxDelivery.OutboxProcessor.ProcessBatchItems` | crates/argus-engine/src/outbox_processor.rs:83-152 | For every completion order, failure pattern and enqueues landing meanwhile, a row goes iff its execution and its deletion succeeded, the count is the number of rows gone, and new rows only follow behind |
| `OutboxDelivery.OutboxProcessor.DeleteOneByOne` | crates/argus-engine/src/outbox_processor.rs:131-144 | The fallback deletes and counts exactly the ids whose own transaction succeeds |
| `OutboxDelivery.OutboxProcessor.DrainQueue` | crates/argus-engine/src/outbox_processor.rs:58-76 | A drain runs round by round until a read finds nothing; ending with n it removed n of the rows that were there or came meanwhile and, unless the batch size is 0, left none; it ends within one round more than there are such rows if every batch it reads loses at least one row |
| `OutboxDelivery.EachRoundShrinks` | crates/argus-engine/src/outbox_processor.rs:58-76 | The row count is a measure: after n rounds that each remove a row of the batch they read, at least n of all the rows there were and that came are gone |
| `OutboxDelivery.RowGoneWhen` | crates/argus-engine/src/outbox_processor.rs:83-152 | A row is gone iff a round that ran read it, executed it and deleted it |
| `OutboxDelivery.RowIsReadWhen` | crates/argus-engine/src/outbox_processor.rs:58-76 | A read finds a row iff it is still there and fewer than a batch of older rows are |
| `OutboxDelivery.HeadStarvesTail` | crates/argus-engine/src/outbox_processor.rs:58-76 | A batch of oldest rows that are never removed keeps every later row from ever being executed |
| `OutboxDelivery.SettleKeepsSound` | crates/argus-engine/src/outbox_processor.rs:83-152 | A round keeps ids, keys and order of the surviving rows |
| `OutboxDelivery.SurvivorsAre` | crates/argus-engine/src/outbox_processor.rs:83-152 | A row a round leaves is as it was, with one retry more iff it was read, its execution failed and the count was stored |
| `OutboxDelivery.CountThenDelete` | crates/argus-engine/src/outbox_processor.rs:98-146 | Counting failures and then deleting gives a result that does not mention the completion order |
| `Throttling.SlidingWindowBound` | crates/argus-engine/src/alert_manager.rs:198-229 | From any earlier state a closed interval of k windows holds at most (k + 1) * max attempts |
| `Throttling.CounterIsWindowUse` | crates/argus-engine/src/alert_manager.rs:210-229 | The stored counter equals the attempts since the window began and never exceeds the limit |
| `Throttling.DroppedExactlyWhenWindowIsUsedUp` | crates/argus-engine/src/alert_manager.rs:219-229 | A match is dropped iff the unexpired window has used its whole limit; then that many attempts lie in the last window length |
| `Throttling.LimitIsPerWindow` | crates/argus-core/src/models/action/policies.rs:36-41 | The documented limit, at most max in any interval of one window length, is kept if and only if max is at most 1 or the window has no length |
| `Throttling.WorstIsNotExceeded` | crates/argus-engine/src/alert_manager.rs:198-229 | The exact worst case for an interval of any length, from a fresh start |
| `Throttling.WorstIsReached` | crates/argus-engine/src/alert_manager.rs:198-229 | For every policy and length some run attains that worst case |
| `Throttling.WorstOfWholeLengths` | crates/argus-engine/src/alert_manager.rs:198-229 | For k windows the worst case is at most (k + 1) * max - 1, and equal to it if the window has k ticks or more |
| `AlertPolicies.ActionStaysWithinLimit` | crates/argus-engine/src/alert_manager.rs:198-245 | Whatever else arrives, matches of one throttled action handled within k windows bring at most (k + 1) * max payloads |
| `AlertPolicies.SentAreAttempts` | crates/argus-engine/src/alert_manager.rs:219-242 | Within a mixed batch each attempt of an action's throttle becomes a payload unless its enqueue fails |
| `AlertPolicies.HandleAllSplits` | crates/argus-engine/src/alert_manager.rs:103-151 | Handling matches splits into new policy states and one sequence of payloads |
| `AlertPolicies.BatchMeans` | crates/argus-engine/src/alert_manager.rs:103-186 | The whole effect of a batch: throttled payloads first, unpoliced ones after them |
| `AlertPolicies.BatchesSplit` | crates/argus-engine/src/alert_manager.rs:103-151 | Cutting a batch in two leaves states, counters and outbox (up to row ids and order) the same |
| `AlertPolicies.BatchIsOneByOne` | crates/argus-engine/src/alert_manager.rs:103-151 | A batch does what its matches would do one at a time |
| `AlertPolicies.NoSharedKey` | crates/argus-engine/src/alert_manager.rs:103-151 | Throttled and unpoliced payloads never compete for a key |
| `AlertPolicies.ReplayIsHarmless` | crates/argus-engine/src/alert_manager.rs:103-151 | Handling already-handled, unthrottled matches again, after any further batches, changes neither the outbox nor any policy state |
| `Replays.ReplayGoesOutAgainWhen` | crates/argus-engine/src/alert_manager.rs:103-151 | After any batches, checks and deliveries that do not handle it, an unpoliced match that had its row goes into the outbox again iff a deletion took the row |
| `Replays.ReplayIsCollectedAgainWhen` | crates/argus-engine/src/alert_manager.rs:248-333 | Likewise a pending aggregated match is accepted again iff a check emptied its window |
| `AlertPolicies.BatchAbsorbs` | crates/argus-engine/src/alert_manager.rs:248-272 | After a batch every unthrottled match of it is in the outbox or in its window |
| `AlertOutcomes.SentAtOnceIsStored` | crates/argus-engine/src/alert_manager.rs:103-151 | A match of an action without policy is in the outbox after its batch, under its id and action, as itself or an earlier one with that id |
| `AlertOutcomes.NewRowsAreMatches` | crates/argus-engine/src/alert_manager.rs:103-186 | Every new row of a batch is one of its matches, never tried, of an action that has no policy or a throttle |
| `AlertOutcomes.CountersTell` | crates/argus-engine/src/alert_manager.rs:160-186 | The counter of an action grows by its matches if it has no policy, by its throttle's attempts if it has one, and else not |
| `AlertOutcomes.UnknownActionsChangeNothing` | crates/argus-engine/src/alert_manager.rs:116-124 | Matches of actions that are not configured change nothing |
| `AggregationWindows.MatchesAreConserved` | crates/argus-engine/src/alert_manager.rs:248-333 | Under any interleaving of batches, checks and deliveries, pending before + accepted = pending now + stored + lost + cleared, as multisets; a drained window is stored only if the outbox row under its key holds all the ids the window had before the check |
| `AggregationWindows.WindowsStayWellFormed` | crates/argus-engine/src/alert_manager.rs:259-269 | Pending ids stay pairwise distinct and belong to their action |
| `AggregationWindows.DueWindowsGoOutOnce` | crates/argus-engine/src/alert_manager.rs:283-326 | For every iteration order a check sends, exactly once, each window whose policy's time is up (or all on a flush): its action, all its matches and the policy's template |
| `AggregationWindows.WindowIsSentWhen` | crates/argus-engine/src/alert_manager.rs:259-323 | A check that is no flush sends a window iff it holds matches and the check is more than the policy's window later than the first match accepted since the window was last empty |
| `AggregationWindows.DrainedWindowsAreStored` | crates/argus-engine/src/alert_manager.rs:283-333 | A successful check leaves an outbox row for the key of every drained window |
| `AggregationWindows.LossesHaveCauses` | crates/argus-engine/src/alert_manager.rs:294-333 | Matches are lost if and only if some check found the window due and its enqueue failed, or its key belonged to other matches |
| `AggregationWindows.ClearedAreOrphans` | crates/argus-engine/src/alert_manager.rs:294-326 | Matches are cleared only if their action has no aggregation policy |
| `AggregationWindows.LossMeansFailureOrCollision` | crates/argus-engine/src/alert_manager.rs:305-333 | With the program's keys a loss means a failed enqueue of a due window, unless the hash collides on two sorted id lists |
| `AggregationWindows.LostWhen` | crates/argus-engine/src/alert_manager.rs:276-333 | The same for a single check, whose losing window is then empty; matches are cleared iff the window is an orphan |
| `AlertManagement.AlertManager.HandleThrottle` | crates/argus-engine/src/alert_manager.rs:198-245 | The in-place update equals the throttle step; a failed enqueue still uses the window |
| `AlertManagement.AlertManager.HandleAggregation` | crates/argus-engine/src/alert_manager.rs:248-272 | The in-place update equals collecting the match unless its id is pending |
| `AlertManagement.AlertManager.DispatchPayloadsBatch` | crates/argus-engine/src/alert_manager.rs:160-186 | Payloads are enqueued and only then counted |
| `AlertManagement.AlertManager.ProcessMatchesBatch` | crates/argus-engine/src/alert_manager.rs:103-151 | The loop equals the batch function; only the final enqueue is reported |
| `AlertManagement.AlertManager.CheckAndDispatchExpiredWindows` | crates/argus-engine/src/alert_manager.rs:276-333 | The sweep over the map equals the check function for every iteration order |
| `Filtering.RhaiFilteringEngine.EvaluateItem` | crates/argus-engine/src/filtering.rs:654-686 | The cached two-pass evaluation returns exactly the matches (or the error) of the cache-free specification, decoded calls included; each keyed log and the calldata are decoded at most once |
| `Filtering.RhaiFilteringEngine.EvaluateOverLogs` | crates/argus-engine/src/filtering.rs:391-446 | One monitor over all logs with one lazily built, rewound scope equals a fresh scope per log |
| `Filtering.RhaiFilteringEngine.EvaluateTxAwareMonitors` | crates/argus-engine/src/filtering.rs:465-510 | The second pass skips monitors that matched a log and otherwise equals its specification |
| `Filtering.EvaluationContext.GetOrDecodeLog` | crates/argus-engine/src/filtering.rs:265-292 | The cache returns what decoding would, failures included, and decodes a key once |
| `Filtering.EvaluationContext.GetDecodedCallJson` | crates/argus-engine/src/filtering.rs:319-328 | The call JSON is present only if some monitor had the calldata decoded before |
| `Filtering.EvaluationContext.CreateLogMatches` | crates/argus-engine/src/filtering.rs:524-556 | One match per action is appended and the monitor marked |
| `EvaluationLaws.MatchesAreUnique` | crates/argus-engine/src/filtering.rs:524-580 | Ids of one item are pairwise distinct and no monitor yields both kinds of match, if effective log indexes differ |
| `EvaluationLaws.SharedIndexCollides` | crates/argus-engine/src/filtering.rs:534-541 | If two logs share an effective index, some monitor gives both the same id |
| `EvaluationLaws.EvaluatedMatchesAreBuilt` | crates/argus-engine/src/filtering.rs:524-580 | Every match the engine returns carries the id of its own fields |
| `EvaluationLaws.LogMatchShowsCallWhen` | crates/argus-engine/src/filtering.rs:406-444 | A log match shows the decoded call iff its monitor, or one listed before it, has the call capability and got to see a log |
| `EvaluationLaws.TxMatchShowsCallWhen` | crates/argus-engine/src/filtering.rs:478-508 | A transaction match of an item shows it iff a call monitor saw a log, or its monitor or an earlier one has the call capability and matched no log |
| `EvaluationLaws.ListingOrderDecidesTheCall` | crates/argus-engine/src/filtering.rs:319-328 | The same monitor's match shows the call or not depending only on its place in the list |
| `EvaluationParts.EvaluationIsItsParts` | crates/argus-engine/src/filtering.rs:654-686 | Evaluation succeeds iff no script fails on what it is run on, and then finds, decoded calls aside, what the monitors find one by one |
| `EvaluationParts.MonitorsDoNotInterfere` | crates/argus-engine/src/filtering.rs:614-627 | Adding a monitor keeps the others' matches, in order and decoded calls aside, iff it fails on nothing it is run on |
| `EvaluationParts.FailureSpreads` | crates/argus-engine/src/filtering.rs:614-627 | An evaluation that fails without a monitor fails with it |
| `ScriptViews.TxScriptFinds` | crates/argus-engine/src/filtering.rs:470-503 | On a log-less item a script finds the transaction under `tx`, no log under `log`, and under `decoded_call` the decoded calldata iff its monitor has the call capability |
| `ScriptViews.LogScriptFinds` | crates/argus-engine/src/filtering.rs:391-441 | On logs it finds the same `tx` and `decoded_call`, and under `log` the log at hand as it decodes; filtered and undecodable logs are not shown |
| `ScriptViews.MatchesTellTheTruth` | crates/argus-engine/src/filtering.rs:524-600 | Every match has exactly the fields of a monitor, a log or the transaction on which that monitor's script was true |
| `ScriptViews.EveryTrueLogIsTold` | crates/argus-engine/src/filtering.rs:524-556 | A script true on a log yields a match for every action of its monitor |
| `BlockCorrelation.ProcessBlock` | crates/argus-engine/src/block_processor.rs:161-223 | If hashes differ, a transaction has an item, with exactly the logs and receipt under its hash, iff a pure transaction monitor exists, its logs are nonempty, or it calls a watched address |
| `BlockCorrelation.OrganizeAssets` | crates/argus-monitor/src/manager.rs:156-193 | The id lists look up, in order, the monitors with transaction, call or no capability and those with the log capability; the flag tells of a pure transaction monitor |
| `BlockCorrelation.ItemsHoldTheirLogs` | crates/argus-core/src/models/block_data.rs:49-62 | From the node to the item: whatever the chunk size and completion order, a transaction of a fetched block is evaluated with exactly its logs, in node order |
| `BlockCorrelation.PruningFilters` | crates/argus-engine/src/block_processor.rs:174-214 | The optimized path outputs exactly the fast path's matchable items, in order |
| `BlockCorrelation.PruningKeepsMatchesExactlyWhen` | crates/argus-engine/src/block_processor.rs:190-214 | Evaluating the pruned items gives the same matches iff on each removed item a tx-aware script fails or all acting ones are false |
| `BlockCorrelation.PrunedItemMatchesNothingWhen` | crates/argus-engine/src/filtering.rs:654-686 | A removed item matches nothing iff some tx-aware script fails on it or every acting one is false |
| `BlockCorrelation.PipelineIsExactWhen` | crates/argus-monitor/src/manager.rs:162-190 | On a given block pruning is invisible iff a pure transaction monitor exists or the scripts are silent on every transaction it removes |
| `BlockCorrelation.PruningIsSafeWhen` | crates/argus-monitor/src/manager.rs:162-190 | Pruning is invisible for all scripts and blocks iff a pure transaction monitor exists or no tx-aware monitor has an action |
| `WatchedCalls.CallMonitorsLoseNothing` | crates/argus-engine/src/block_processor.rs:190-214 | A call monitor of an address, with a script false on transactions sent elsewhere, matches in every block what it would without pruning |
| `BlockCorrelation.SelectHolds` | crates/argus-monitor/src/manager.rs:168-186 | A monitor is tx-aware iff it has the transaction or call capability or no log capability, log-aware iff it has that |
| `BlockCorrelation.HybridFallbackIsPruned` | crates/argus-engine/src/filtering.rs:75-80 | A lone hybrid monitor misses log-less transactions although the full evaluation matches them |
| `BlockFetching.SubRangesPartition` | crates/argus-providers/src/block_fetcher.rs:104-109 | Sub-ranges are nonempty, at most a chunk long, and contain each block of the range exactly once |
| `BlockFetching.EveryBlockGetsItsLogs` | crates/argus-providers/src/block_fetcher.rs:93-118 | For every chunk size and completion order each block gets exactly its logs in node order |
| `BlockFetching.GroupBy` | crates/argus-core/src/models/block_data.rs:49-62 | The grouping loop puts under each key exactly the logs with that key, in order |
| `BlockFetching.FetchBlocksConcurrent` | crates/argus-providers/src/block_fetcher.rs:134-187 | The fetched blocks are consecutive and each holds exactly its logs, grouped by transaction |
| `InterestRegistries.FetchShortcutsAreSound` | crates/argus-providers/src/rpc.rs:130-185 | Topic filter and early return lose and reorder no interesting log |
| `InterestRegistries.BloomMissIsSafe` | crates/argus-providers/src/rpc.rs:219-275 | If the bloom filter covers the logs, a miss means no interesting log |
| `InterestRegistries.InterestRegistryBuilder.AddAll` | crates/argus-monitor/src/manager.rs:265-276 | The in-place builder equals joining what each monitor asks for |
| `InterestRegistries.BuildGivesMeaning` | crates/argus-monitor/src/interest_registry.rs:36-80 | The registry is what the set of monitors means: broad iff some monitor asks for all, else the union of signatures |
| `InterestRegistries.RegistryIgnoresOrder` | crates/argus-monitor/src/manager.rs:265-276 | Any reordering or repetition of the monitors builds the same registry |
| `RegistryRules.LogIsInterestingWhen` | crates/argus-monitor/src/interest_registry.rs:36-127 | From the monitors' fields: a log is interesting iff a monitor of its address wants everything there (no ABI, none linked, or another one) or wants its first topic, or no monitor watches the address and one of all addresses wants the topic |
| `RegistryRules.CallsAreWatchedWhen` | crates/argus-monitor/src/interest_registry.rs:23-32 | Calldata is watched for exactly the addresses of call monitors |
| `RegistryRules.TopicFilterIs` | crates/argus-providers/src/rpc.rs:164-185 | The topic filter holds exactly the signatures some precise address or everybody wants, and is absent iff an address is broad or there is none |
| `RegistryRules.BloomHitIs` | crates/argus-providers/src/rpc.rs:219-260 | A block is looked into iff its bloom filter has a global signature, a broad address, or a precise address with one of its signatures |
| `FetchedEvaluation.AskIsFetchedWhen` | crates/argus-core/src/monitor.rs:34-63 | The registry fetches all that a monitor asks for iff, for a global request, every precise address lists all its signatures too |
| `FetchedEvaluation.FetchServesMonitorWhen` | crates/argus-engine/src/filtering.rs:376-446 | A monitor whose script is false on every log it does not ask for (`Scoped`) matches on the fetched logs what it would match on all logs, whatever it does with the others, under exactly that condition on the configuration |
| `FetchedEvaluation.MonitorIsIndependentWhen` | crates/argus-engine/src/filtering.rs:376-446 | For any script, a monitor matches with the others around what it would match alone iff its request is served and no other monitor has a log fetched that it does not ask for |
| `FetchedEvaluation.OutcomesShowInterest` | crates/argus-engine/src/filtering.rs:376-446 | Two registries give a monitor the same matches for all scripts iff they fetch the same logs: no address is compared |
| `FetchedEvaluation.HidingFalseLogs` | crates/argus-engine/src/filtering.rs:376-446 | Hiding logs on which a monitor is false changes none of its matches and no error |
| `AbiIndexes.AbiService.AddGlobalAbi` | crates/argus-abi/src/lib.rs:231-256 | Both indexes stay equal to a linear scan of everything added |
| `AbiIndexes.AbiService.DecodeLog` | crates/argus-abi/src/lib.rs:309-355 | Indexed decoding equals scanned decoding, last error included |
| `AbiIndexes.AbiService.PeekEventName` | crates/argus-abi/src/lib.rs:292-305 | The peeked name is that of the address or of the first global definition |
| `AbiIndexes.AbiService.DecodeFunctionInput` | crates/argus-abi/src/lib.rs:381-428 | A call is decoded by the contract or by the first global ABI with its selector |
| `AbiIndexes.PeekAgreesWithDecode` | crates/argus-abi/src/lib.rs:292-355 | If topics fix names, a decoded log has the peeked name, so no name means no decoding |
| `AbiIndexes.LogIsDecodedBy` | crates/argus-abi/src/lib.rs:309-355 | The definition of the log's address decides, even by failing; without one the earliest added ABI that decodes does |
| `AbiIndexes.GlobalFailureIs` | crates/argus-abi/src/lib.rs:335-355 | If all fail the error is that of the latest added ABI with the topic, and `EventNotFound` if none has it |
| `AbiIndexes.NameIsPeekedFrom` | crates/argus-abi/src/lib.rs:292-305 | The peeked name is that of the address, else of the earliest added ABI with the topic, else none |
| `AbiIndexes.CallIsDecodedBy` | crates/argus-abi/src/lib.rs:381-428 | A call is decoded by its contract's definition for the selector, else by that of the earliest added ABI with one, else not at all |
| `AbiIndexes.SelectorIsFirstBytes` | crates/argus-abi/src/lib.rs:152-163 | Two calls have the same selector iff their first four bytes agree |
| `AbiIndexes.PrefilterIsExact` | crates/argus-engine/src/filtering.rs:397-404 | The event-name pre-filter hides a log exactly when its decoded name is not wanted |

## Left out

- OutboxDelivery.OutboxProcessor.DrainQueue: runs for as many rounds as its argument lists, because the program has no retry cap and need not end.
- BlockRuns.CanAlwaysMoveOn: states that progress is possible, not that a scheduler makes it happen.
- Throttling.WorstIsReached: counts time in whole ticks, the clock's resolution.
- End-to-end delivery of every alert: the cursor advances on hand-off, so a crash can lose blocks that were handed off but not yet filtered; the claim stops at the hand-off.
- The start without a stored cursor: initialization always stores one (`src/context/mod.rs`, lines 270-290); the class models that branch of the arithmetic, the no-gap claim does not cover it.
- Capacity of the correlated channel: a full channel only delays a hand-off, which the interleaving already allows.
- Block numbers, counters and times are unbounded integers; 64-bit overflow is not modelled.
- Receipts in the fetcher: one map lookup per transaction; the correlation of receipts with transactions is modelled.
- The stable sort after a range fetch: blocks already arrive in request order.
- Action locks, sharded maps and thread pools: each map entry update is one atomic step.
- Saving and loading policy states: the manager starts from arbitrary restored states, but when a state was last saved is not modelled.
- `increment_outbox_retries` sets a timestamp that nothing reads.
- RPC transport, provider creation, retries, HTTP server, webhook and message-queue clients: I/O.
- Script parsing and analysis, templates, JSON conversion, metrics, polling calibration, configuration loading and monitor validation: plumbing or one-branch checks.
