# Formal model of the event-sourcing runtime core

The runtime folds events from an append-only log into aggregates and lets
reactors, projectors and callers build on those folds. This project models its
core in Dafny and proves what its protocols promise, or exactly when they keep
the promise.

- **Log** (`EventLog`, `LogStore`): an append-only sequence with dense stream
  revisions and rising positions; facts of one atomic batch may share a
  position. Appends are atomic, revision-checked and deduplicated by event id.
- **Folds** (`Folding`, `Counting`): the reference definitions. A *prefix fold*
  of a stream treats kinds the aggregate does not fold as identity.
- **Registry** (`RegistrySpec`, `RepairSpec`, `Registry`): cached entries with
  their watermarks and `:prev` slots, gap detection, repair, restore and
  snapshots. The mutable classes and methods of `Registry` are proved equal to
  the functions of the other two, about which the laws are stated.
  `StrictDelivery` is one consumer's whole life; `RegistryMachine` interleaves
  any number of folds, repairs, restores and saves step by step;
  `TornSnapshots` says which of its runs store sound snapshots, and `TornRun`
  is one that does not. `Toggle` is the aggregate its concrete runs fold.
- **Fold-on-read** (`FoldOnRead`, `FoldOnReadProof`, `FoldOnReadRuns`,
  `FoldOnReadPrev`): the incremental, position-bounded merge of several streams
  against the cold fold of the log.
- **Decisions** (`JsonValue`, `Decisions`, `DecisionProtocol`, `Checkpoints`):
  the durable envelope, the first-write-wins store, and the timed protocol of
  workers, acks and retention sweeps.
- **Write path** (`OccAppend`, `EmitBatches`): optimistic appends and batch
  emits.
- **Settling** (`SettleTracking`, `Settle`, `SettleTree`).
- **Effects** (`Effects`): memoized side effects.

## Assumptions

Payloads decode. A restorable aggregator folds exactly its own stream; at most
one aggregator folds a given kind into a given type, and aggregators of a type
share subject and default. Generated event ids are new. All nodes share one
clock. The runner is known only through its contract: it looks a decision up
while the trigger is above the ack-floor, appends only what the store returned,
bumps the settle tracker before clearing a pending trigger, and reports a
consumer drained only when it has scanned to the mark and holds no trigger of
the workflow. An in-order delivery here starts from an empty registry.
`fold_event` allows eight rounds; the laws hold for any budget of two
(sequential) or three (interleaved) rounds and more.

## Where the code and its documentation differ

The model follows the code.

- `fold_bounded` documents `prev` as the fold without the event at the bound. A
  re-read at a bound already folded reports the result itself, and a batch of
  several facts at the bound is excluded only in its last fact.
- `SettleTracker` documents that the entry of an in-flight settle is never
  dropped. Pins are a set and a settle that succeeds forgets the entry, so a
  second settle on the workflow can lose it.
- `event_id` is documented to make a retried emit idempotent. A retry that names
  no workflow is given a fresh one, and the log then refuses it as divergent.
- `settle` documents a high-water floored at the emit's position. The code uses
  the tracker's entry as it is, which a two-run emit can leave below it.
- `sanitize_nul` is documented to strip NUL from the durable JSON. Object keys
  keep theirs.
- The comment on post-append folds says concurrent repairs can exhaust the round
  cap (engine.rs, lines 2625-2634). In the interleaved model three rounds always
  suffice.
- `maybe_save_snapshots` documents its revision as the last folded one. It reads
  version and state separately, so a fold in between can put the blob ahead,
  and a restore that then loads it corrupts the entry.

## Model

| member | source | states |
|---|---|---|
| `LogStore.MemoryLog.AppendToStream` | modules/causal/src/memory_store.rs:407-595 | one atomic, expected-revision append with event-id dedup; the log stays well formed (dense revisions, rising positions) and only ever extends |
| `LogStore.AppendKeepsLog` | modules/causal/src/memory_store.rs:407-595 | any append, accepted, deduplicated or refused, keeps the log well formed and a refusal leaves it as it was |
| `LogStore.FreshAppend` | modules/causal/src/memory_store.rs:407-595 | a batch of new facts lands whole and contiguously when the head is as expected, and not at all otherwise |
| `LogStore.AppendTwice` | modules/causal/src/memory_store.rs:448-528 | redelivering a batch that landed, under any expectation, changes nothing and reports what the first delivery did |
| `LogStore.DivergentIsRefused` | modules/causal/src/memory_store.rs:448-540 | a redelivery that differs anywhere from what is stored, or overlaps the log in any part but not in whole, is refused and changes nothing |
| `LogStore.MemoryLog.ReadAll` | modules/causal/src/memory_store.rs:365-376 | the first `limit` events past a position |
| `Folding.KeyFoldIsStreamFold` | modules/causal/src/aggregator.rs:160-190 | for a stream-aligned aggregate, folding the whole log and folding its own stream are the same |
| `RegistrySpec.ApplyEventAt` | modules/causal/src/aggregator.rs:442-640 | one event does to each key's slot exactly what the gate says for its one matching aggregator, whatever the other aggregators do; keys it does not reach are untouched and unreported |
| `RegistrySpec.GapsAreReal` | modules/causal/src/aggregator.rs:511-640 | every gap reported is that of a matching aligned aggregate behind the event, at its current version, on the event's own stream |
| `Registry.AggregatorRegistry.ApplyTo` | modules/causal/src/aggregator.rs:482-620 | gate, read-modify-write and `:prev` bookkeeping of one entry; nothing else changes |
| `Registry.AggregatorRegistry.ApplyEvent` | modules/causal/src/aggregator.rs:442-640 | the loop over aggregators computes the value-level `ApplyEvent`, alignment failures included |
| `Registry.AggregatorRegistry.SetState` | modules/causal/src/aggregator.rs:754-770 | hydrated state is installed only when it advances the entry |
| `Registry.AggregatorRegistry.AdvanceWatermark` | modules/causal/src/aggregator.rs:779-790 | revision and position watermarks only rise, and a vacant entry stays vacant |
| `Registry.AggregatorRegistry.ReplayEventsOnto` | modules/causal/src/aggregator.rs:914-936 | the nested loops fold a tail of events onto a state |
| `Registry.LoadSnapshot` | modules/causal/src/aggregator.rs:1132-1160 | a snapshot that no longer decodes is deleted and the restore goes on |
| `Registry.RestoreAggregate` | modules/causal/src/aggregator.rs:1113-1184 | the restore on mutable maps is the value-level restore, in every early exit |
| `Registry.RepairGap` | modules/causal/src/aggregator.rs:1010-1103 | restore or strict seeding, then the bounded tail fold with its watermark advances |
| `Registry.FoldEvent` | modules/causal/src/aggregator.rs:971-1003 | rounds of apply and repair up to a limit |
| `Registry.FoldCommittedEvent` | modules/causal/src/aggregator.rs:971-1003 | from a correct registry over a well-formed log the fold of a committed event converges, with no gap left, and leaves registry and snapshots correct and no version lower |
| `Registry.MaybeSaveSnapshots` | modules/causal/src/aggregator.rs:1200-1258 | with nothing folding meanwhile: exactly the due, unrefused keys are saved, at version - 1, and marked as saved |
| `Registry.SavesAreSound` | modules/causal/src/aggregator.rs:1200-1258 | with nothing folding meanwhile: every snapshot written is the prefix fold at the revision it names |
| `Registry.SnapshotThenRestore` | modules/causal/src/aggregator.rs:1113-1258 | saving with nothing folding meanwhile, then restoring over a log that may have grown: the warm restore equals the cold one and is the fold of the whole stream |
| `RepairSpec.RestoreIsGenesisReplay` | modules/causal/src/aggregator.rs:1113-1184 | from a good snapshot, none, or an undecodable one, a vacant key is restored to the fold of the stream as read, at its length; it declines exactly when the stream is empty |
| `RepairSpec.RepairStepOk` | modules/causal/src/aggregator.rs:1075-1100 | a repaired tail event never gaps on its own key and leaves the entry past it: the advance never jumps an unfolded event |
| `RepairSpec.RepairTailOk` | modules/causal/src/aggregator.rs:1060-1103 | a tail repair carries the entry to its bound or the tail's end, however peers on the shared stream lag or lead |
| `RepairSpec.RoundCatchesUp` | modules/causal/src/aggregator.rs:983-996 | after one round of repairs every gapped aggregate sits at or past the delivered revision |
| `RepairSpec.FoldEventConverges` | modules/causal/src/aggregator.rs:971-1003 | two rounds suffice on a dense stream, for any number of matching aggregators, foreign lead runs and lagging peers, strict or not; the eight-round bail-out is never reached sequentially |
| `StrictDelivery.DeliverNext` | modules/causal/src/aggregator.rs:950-1003 | first strict delivery in order: every key becomes the fold of one event more, and the pair reported for each matching aggregate is (fold before, fold through), even where a later round only skipped |
| `StrictDelivery.DeliverAgain` | modules/causal/src/aggregator.rs:482-620 | any redelivery leaves the whole registry unchanged; it reports the event's own transition exactly while the watermark stands at it, and (current, current) afterwards |
| `StrictDelivery.ReplayOfDelivered` | modules/causal/src/aggregator.rs:1080-1095 | older tail events replayed by another aggregate's repair change no slot and report no gap, fan-in aggregates included |
| `StrictDelivery.WatermarkPair` | modules/causal/src/aggregator.rs:564-619 | the `:prev` slot holds the state before the event the watermark stands at, across foreign advances |
| `StrictDelivery.StrictPromise` | modules/causal/src/aggregator.rs:950-1003 | the consumer promise over whole runs: after any in-order, at-least-once schedule with rewinds, every key (aligned or fan-in) reads the fold of exactly the delivered prefix, and no watermark lies beyond it |
| `RegistryMachine.AdvanceNeverJumps` | modules/causal/src/aggregator.rs:1080-1101 | in every interleaving, a repairer's advance finds the entry already past the event, or at it with the event foreign to the aggregate |
| `RegistryMachine.ApplyHitOk` | modules/causal/src/aggregator.rs:530-620 | one aggregator's atomic read-modify-write keeps every entry a prefix fold and never lowers a version, whatever ran before |
| `RegistryMachine.NextKeepsInv` | modules/causal/src/aggregator.rs:442-1258 | every step of every task and every growth of the log keeps the invariant: versions, gaps and rounds always, states as prefix folds unless the step stores a torn snapshot |
| `RegistryMachine.EveryInterleavingIsSafe` | modules/causal/src/aggregator.rs:442-1258 | all runs of live and strict folds, repairs, read-through restores and saves (three reads, a write and a mark) over a growing log: versions stay within their streams and never decrease, no repairer gaps on its own key, no fold needs a fourth round, and a finished fold has carried every aligned aggregate it reaches past its event; while no stored snapshot was torn, entries and snapshots are prefix folds |
| `TornSnapshots.TornIsSoundExactly` | modules/causal/src/aggregator.rs:1216-1246 | a snapshot read at version v with the state of version w is sound exactly when the aggregate folded none of the events in between, for an aggregate that counts its folds |
| `TornSnapshots.ForeignTearIsSound` | modules/causal/src/aggregator.rs:1216-1246 | for any aggregate, a tear over foreign events only is harmless |
| `TornSnapshots.TornRestoreFoldsTwice` | modules/causal/src/aggregator.rs:1132-1246 | a restore from a torn snapshot folds exactly the events in between a second time, for an aggregate that counts its folds |
| `TornSnapshots.StoredRowIsTorn` | modules/causal/src/aggregator.rs:1209-1256 | what a run stores is the fold at the version its state was read at, under the version read before |
| `TornSnapshots.SnapshotsAreSoundExactly` | modules/causal/src/aggregator.rs:1209-1256 | run by run: every snapshot a run ever holds is the prefix fold at its revision exactly when no completed save had events of its aggregate folded between its two reads; for aggregates that count their folds |
| `TornRun.RunToTornRow` | modules/causal/src/aggregator.rs:1216-1246 | a run of one process that stores a torn snapshot: version read, one fold, state read, row written |
| `TornRun.TornRowCorruptsAnEntry` | modules/causal/src/aggregator.rs:1113-1258 | the same process then restores from it a cached entry that is not the fold its version names |
| `FoldOnRead.MergeTails` | modules/causal/src/aggregator.rs:1367-1383 | reads each stream's tail past its cached revision, filters by watermark and bound, merges by position |
| `FoldOnRead.FoldTail` | modules/causal/src/aggregator.rs:1391-1411 | folds the merge, moving tails and watermark over foreign kinds too |
| `FoldOnRead.FoldBounded` | modules/causal/src/aggregator.rs:1311-1440 | take-work-put on the cache: unregistered and custom-keyed types leave it alone, a read below the watermark puts its entry back |
| `FoldOnReadProof.MergedIsBetween` | modules/causal/src/aggregator.rs:1372-1383 | the merge is exactly the feeding events between watermark and bound, in log order across streams, though streams are read at different moments of a growing log |
| `FoldOnReadRuns.ReadIsColdFold` | modules/causal/src/aggregator.rs:1311-1440 | one read returns the cold fold at its bound and leaves state, watermark and every tail describing one cold fold |
| `FoldOnReadRuns.GrowthKeepsCache` | modules/causal/src/aggregator.rs:1265-1276 | the append-only log needs no version check: growth keeps a cached entry exact |
| `FoldOnReadRuns.ReadsRefineColdFold` | modules/causal/src/aggregator.rs:1265-1440 | after any sequence of appends and reads at any bounds, a further read refines the cold fold; below the watermark it leaves the entry unchanged |
| `FoldOnReadPrev.PrevIsBeforeLastHit` | modules/causal/src/aggregator.rs:1391-1433 | what is reported as `prev`: the fold before the last of the aggregate's facts at the bound that this read folded, else the result |
| `FoldOnReadPrev.PrevIsDocumentedExactly` | modules/causal/src/aggregator.rs:1294-1301 | for an aggregate that counts its folds: the documented `prev`, the fold below the bound, is reported exactly when the aggregate has no fact at the bound, or one that is not yet behind the cache's watermark |
| `FoldOnReadPrev.WarmRereadReportsResult` | modules/causal/src/aggregator.rs:1294-1433 | one fact at position 1, read twice at bound 1: the second read reports the result as `prev` |
| `FoldOnReadPrev.BatchReportsItsMiddle` | modules/causal/src/aggregator.rs:1391-1433 | two facts of one batch at position 1: a cold read reports the fold before the second, not before the batch |
| `Decisions.SanitizedIsNulFree` | modules/causal/src/decision_store.rs:145-160 | sanitizing frees a value of NULs exactly when no object key in it holds one: keys are not stripped |
| `Decisions.NulKeySurvives` | modules/causal/src/decision_store.rs:39-46 | a concrete value whose NUL survives sanitizing |
| `Decisions.SanitizeEncodes` | modules/causal/src/decision_store.rs:93-160 | sanitizing the envelope is the envelope of the sanitized output: absent options and empty metadata included |
| `Decisions.DecodeEncode` | modules/causal/src/decision_store.rs:93-141 | an envelope decodes to the event it came from, without its in-process handle |
| `Decisions.SealedOutputsLoad` | modules/causal/src/decision_store.rs:187-201 | loading a sealed batch returns it in order, strings stripped of NUL, handles dropped, always persistent |
| `Decisions.ResealIsIdentical` | modules/causal/src/decision_store.rs:187-201 | sealing loaded outputs writes identical JSON |
| `Decisions.InMemoryDecisionStore.Seal` | modules/causal/src/decision_store.rs:281-306 | first write wins, and the canonical record comes back either way |
| `Decisions.InMemoryDecisionStore.Get` | modules/causal/src/decision_store.rs:307-317 | the sealed record, already in its canonical form, if there is one |
| `Decisions.InMemoryDecisionStore.RemoveReclaimable` | modules/causal/src/decision_store.rs:324-348 | removes exactly this consumer's aged, acked, unparked records and counts them |
| `DecisionProtocol.OneDecisionPerTrigger` | modules/causal/src/decision_store.rs:17-30 | in every run with crashes, redeliveries, racing workers and sweeps, at most one record is ever sealed for the trigger and every output appended is its |
| `DecisionProtocol.WindowIsExact` | modules/causal/src/engine.rs:1982-2043 | the exact retention bound: safe in all runs if and only if the window covers the longest lookup-to-seal time plus the smaller of that and the longest stamp-to-seal time |
| `DecisionProtocol.ShortWindowMixesDecisions` | modules/causal/src/decision_store.rs:295-347 | a run with a shorter window in which two executions' outputs for one trigger reach the log |
| `DecisionProtocol.StaleLookupMixesDecisions` | modules/causal/src/decision_store.rs:230-258 | if a record may be looked up after the floor passed its trigger, no window is long enough, even with executions that take no time |
| `Checkpoints.CheckpointStore.Advance` | modules/causal/src/checkpoint_store.rs:59-65 | alone, `advance` is a maximum and touches only its consumer |
| `Checkpoints.AtomicIsMonotone` | modules/causal/src/checkpoint_store.rs:41-58 | atomic advances in any order never move a cursor back and lose nobody's position |
| `Checkpoints.DefaultIsMonotoneExactly` | modules/causal/src/checkpoint_store.rs:55-65 | the default, read-then-write, never moves a cursor back in exactly the schedules in which no writer's read and write enclose another's write of a higher position; any number of writers |
| `Checkpoints.RacingDefaultRegresses` | modules/causal/src/checkpoint_store.rs:55-65 | such a schedule: two racing writers, the one further behind writing last |
| `OccAppend.Caller.Load` | modules/causal/src/engine.rs:2220-2250 | read, fold of the one kind, decide: the outcome and the expected head |
| `OccAppend.Caller.Commit` | modules/causal/src/engine.rs:2292-2368 | one conditional append and what each result makes of the call |
| `OccAppend.AppendDecision` | modules/causal/src/engine.rs:2205-2378 | the retry loop, with anyone's appends between each load and commit |
| `OccAppend.CallIsARun` | modules/causal/src/engine.rs:2205-2378 | every such call is a run of the concurrent machine |
| `OccAppend.CommitLands` | modules/causal/src/engine.rs:2291-2300 | a commit lands exactly when the stream is still the prefix decided from, as one contiguous stretch |
| `OccAppend.AppendsAreSerializable` | modules/causal/src/engine.rs:2205-2378 | any number of callers and foreign appends: each committed decision is `decide` of the fold of exactly the prefix it lands after, contiguous for ever; refused, failed and exhausted calls added nothing |
| `OccAppend.InvariantHoldsAtEveryBoundary` | modules/causal/src/engine.rs:2465-2472 | a predicate every decision preserves holds of the aggregate in every reachable log when `append` is its only writer |
| `EmitBatches.RunsAreMaximal` | modules/causal/src/engine.rs:2498-2524 | the runs concatenate to the batch, each is one stream's, neighbours differ |
| `EmitBatches.RunsAreUnique` | modules/causal/src/engine.rs:2498-2524 | no other split is like that |
| `EmitBatches.ExecuteEmit` | modules/causal/src/engine.rs:2381-2614 | an empty or refused batch writes nothing; otherwise exactly the runs before the first failure are durable and folded, and a success reports where the last run landed |
| `EmitBatches.RunLands` | modules/causal/src/engine.rs:2525-2566 | the revision counted back from the last fact's is the stored one and never underflows |
| `EmitBatches.FoldedFactIsCommitted` | modules/causal/src/engine.rs:2559-2590 | what the registry is handed for each fact is a committed event, so its fold converges |
| `EmitBatches.EmitIsDurableInOrder` | modules/causal/src/engine.rs:2498-2614 | with new ids, what is durable is the input's first facts, in order, whole runs at a time, all of them unless the backend failed |
| `EmitBatches.EmitReportsItsEnd` | modules/causal/src/engine.rs:2566-2613 | with new ids that is the position of the last fact, the end of the log |
| `EmitBatches.EmitTwice` | modules/causal/src/engine.rs:2381-2614 | two whole emits of one fact under one event id: the second adds nothing, and succeeds, reporting what the first did, exactly when workflow and cause are the same; otherwise it is refused |
| `SettleTracking.SettleTracker.Bump` | modules/causal/src/engine.rs:421-440 | maximum, insertion, or eviction of some unpinned victim at the cap |
| `SettleTracking.PinnedSurvives` | modules/causal/src/engine.rs:399-405 | bumping other workflows never drops or lowers a pinned entry |
| `SettleTracking.EntryIsMaxSinceInsertion` | modules/causal/src/engine.rs:420-440 | along any history an entry is the highest position bumped since its last insertion |
| `SettleTracking.SizeIsBounded` | modules/causal/src/engine.rs:407-440 | the table never exceeds the larger of the cap and the peak of pins plus one |
| `SettleTracking.InFlightIsProtectedExactly` | modules/causal/src/engine.rs:399-460 | over schedules of settles with chain events anywhere in between: a settle in flight never loses or lowers its entry, in every history of the schedule, if and only if no settle forgets or leaves a workflow another one waits on |
| `SettleTracking.SequentialSettlesAreCalm` | modules/causal/src/engine.rs:2776-2785 | so settles of one workflow that never overlap are safe |
| `SettleTracking.SecondSettleLosesItsMark` | modules/causal/src/engine.rs:2869-2873 | a history from the empty table, far below the cap: the first of two settles to succeed forgets the mark the second still waits on |
| `Settle.SettledMeansQuiescent` | modules/causal/src/engine.rs:2776-2875 | when settle has returned on a mark that covers the emit, every event of the chain has been handled by every consumer, then and ever after |
| `Settle.OneRunEmitsSettle` | modules/causal/src/engine.rs:2776-2875 | so it is for every emit that is one run, with any number of consumers |
| `Settle.TwoRunEmitReturnsEarly` | modules/causal/src/engine.rs:2790-2797 | a two-run emit whose first reaction bumps the mark: with any number of consumers but none, settle returns with the second root unseen |
| `Settle.SettleIsSoundExactly` | modules/causal/src/engine.rs:2742-2746 | for every number of consumers: sound in all runs if and only if the emit is one run, or the mark is floored as documented, or there is no consumer at all |
| `SettleTree.ScanIsComplete` | modules/causal/src/engine.rs:2932-2938 | the paged scan sees the whole log exactly when no page boundary splits a group of facts that share a position |
| `SettleTree.DistinctPositionsAreClean` | modules/causal/src/engine.rs:2932-2938 | distinct positions leave no group to split: every page boundary is clean |
| `SettleTree.ScanChildRoots` | modules/causal/src/engine.rs:2922-2957 | the paged loop is one pass over the events it sees |
| `SettleTree.PassIsChildRoots` | modules/causal/src/engine.rs:2939-2957 | one forward pass finds exactly the child roots, each at its furthest position |
| `SettleTree.SettleTree` | modules/causal/src/engine.rs:2895-2915 | terminates having settled exactly the workflows reachable by cross-workflow causation, each once, the root as asked and every other one from its furthest position among the children of what an earlier scan found settled |
| `Effects.InMemoryEffectStore.Put` | modules/causal/src/effect_store.rs:166-178 | an existing entry is never overwritten; the canonical value comes back |
| `Effects.Remember` | modules/causal/src/effect_store.rs:116-135 | alone: the computation runs exactly on a miss, and only a success is stored |
| `Effects.AllReturnsAgree` | modules/causal/src/effect_store.rs:116-135 | any racing executions of one key, in any interleaving with crashes: all successful calls return one value, what one of them computed as it reads back from the store; the value itself, if storing loses nothing of it |
| `Effects.LateCallNeverComputes` | modules/causal/src/effect_store.rs:125-128 | a call that has not looked yet when a result is stored never computes |
| `Effects.RemovalBreaksAgreement` | modules/causal/src/effect_store.rs:92-103 | one removal in between, and two executions disagree |

## Left out

- Registry.MaybeSaveSnapshots: nothing folds between its reads; folds in between are `RegistryMachine`'s, and what they tear is `TornSnapshots`'.
- Registry.SavesAreSound: of the same call; what a save is worth with folds in between is `TornSnapshots.SnapshotsAreSoundExactly`.
- Registry.SnapshotThenRestore: of the same call; a restore from a torn row is `TornSnapshots.TornRestoreFoldsTwice`.
- FoldOnReadPrev.PrevIsDocumentedExactly: its failing half needs an aggregate whose folds show in its state; one that ignores its facts reports the documented `prev` whatever happens.
- TornSnapshots.SnapshotsAreSoundExactly: likewise; the sound half is proved of all aggregates.
- DecisionProtocol.OneDecisionPerTrigger: does not model log-wins reconciliation of a diverged record, cancellation fences or the elision of empty decisions, which belong to the runner.
- Settle.SettledMeansQuiescent: does not model eviction of the workflow's entry before the pin, a second settle on the same workflow (whose effect on the entry is `SettleTracking`'s), wedge detection or liveness ceilings.
- SettleTree.SettleTree: takes the log as no longer growing, so each inner `settle` is a recorded call.
- Decisions.Sanitize: works on values, not in place; a tree of owned values has no aliasing to observe.
- FoldOnRead.FoldBounded: the fold-determinism self-check is left out, as `apply` is a function.
- u64 widths: revisions, versions and positions are unbounded naturals, so overflow and the saturating subtractions at the top of the range are not modelled.
- The `:prev` slots under concurrency: their pairing with entries is proved for one consumer's sequential life only.
- Undecodable event payloads, `id_fn` on restorable aggregates, mismatched subjects and `remove_state`: outside the assumptions.
- Ids and instants are naturals with a decimal text form; UUID and timestamp syntax are not modelled.
- Postgres and KurrentDB backends, the GraphQL and inspector layers, macros, metadata merging, start-position seeding and orphan detection.
- The order in which hash maps iterate is left open: loops over them pick any next element.
- Backoff, sleeps, supervision, panics, shutdown and every other timing aspect except the retention window.
