# Verification model of streamlet

streamlet is an event-sourcing toolkit: aggregates decide events from a folded history, a store keeps one append-only
log behind optimistic concurrency, and snapshots, projections and subscriptions are derived from that log. This
project models that engine in Dafny and proves what a user of it relies on.

Run `dafny verify dfyconfig.toml` to check everything.

## How it is modelled

- **The log** (`EventLog.dfy`, `MemoryStore.dfy`). A log is a sequence of stored events. Scans, appends and pages are
  functions on it with their own theory (soundness, completeness, splitting, growth). The class `MemoryStore` has the
  two fields of the original, changes them in place, and each of its methods is proved against those functions,
  loop by loop. Every call is one atomic step, as it is under the original's mutex.
- **Aggregates and the service** (`Aggregates.dfy`, `Snapshots.dfy`, `Service.dfy`). An aggregate is a record of its
  initial state, `apply`, `handle` and event type; all results hold for every aggregate. `Execute` is the meaning of
  one command run alone. The class `Service` has the imperative entry points. Its retrying method takes, as a
  parameter, whatever rivals write between each load and append.
- **Concurrency** (`Protocol.dfy`, `Linearizability.dfy`, `Concurrency.dfy`). A system is a store, its documents and
  any number of clients, each with a program counter between two store calls and the local variables it holds there.
  `Run` executes any list of steps, so a statement about all lists is a statement about all interleavings. Steps also
  include appends by anybody else, unrelated document writes, and deletion of any document. `Refinement.dfy` ties the
  steps to the imperative methods: scheduled alone, or with rivals in its windows, a client does what they do.
- **Derived state** (`Projections.dfy`, `Subscriptions.dfy`, `Consumers.dfy`, `Idempotency.dfy`, `Deduplication.dfy`).
  The loops are methods; racing callers, crashes and handler failures are step machines of the same kind, and a lone
  caller or consumer of them is proved to do what the method does. `pump`, `run_publisher` and `run_reactor` are the
  same loop around three kinds of handler, and are modelled once.
- **Isolation** (`Isolation.dfy`). Aggregates of different types, subscriptions of different names and the reserved
  collections of one document store stay apart.
- **The example domain and names** (`BankAccount.dfy`, `CaseConversion.dfy`). Accounts and their ledger are instances
  of the generic engine, with 64-bit amounts that wrap around. Identifiers are ASCII.

Serialization is a pair of partial functions. Where a result needs that what was written reads back as itself, it says
`Faithful`. Encoding may always fail unless a lemma says otherwise, and a batch that stops at an unencodable event
leaves its earlier events in the log, as the original does.

Where the code and its comments differ, the code is followed:

- A snapshot load is said to be always identical to a full load (`crates/streamlet/src/service.rs:273-274`). With a
  snapshot written by this service it is exactly when that snapshot decodes or the full load fails too
  (`SnapshotLoadIsFullLoadIff`). `UnreadableSnapshotDiffers` is an input on which the two differ, and a snapshot ahead
  of its stream, which only a foreign write leaves, is another (`SnapshotAheadDiffers`).
- `read_all` selects by event name and not by aggregate type, and a limit of 0 returns one event.
- An empty decision succeeds without a revision check, so it takes effect at its load.
- `execute_snapshotting` can commit its events and still return a store error.
- Markers are exact for every pair whose scope and id have no colon, and for no other (`ExactIffNoColon`); as long as
  all marked ids have none, the scope does not matter (`MarkersAreExact`).
- The deposit decider does not look at 64-bit overflow. `OverflowIsAccepted` is the accepted deposit after which the
  balance is not deposits minus withdrawals, and `BalanceIsNetIff` and `LedgerConservation` say exactly when the books
  agree.

## Model

| member | source | states |
|---|---|---|
| Events.ExpectedAfterIsExact | crates/streamlet/src/event.rs:174-198 | the revision that a reader takes from its load is admitted by exactly one stream version, the one it read |
| EventLog.SelectSound | crates/streamlet/src/store/memory.rs:190-201 | every scan returns events at their own log positions, all matching, beyond the start, in strictly increasing order |
| EventLog.SelectComplete | crates/streamlet/src/store/memory.rs:190-201 | a scan returns a position beyond its start exactly when the event there matches: no gaps |
| EventLog.ScansFind | crates/streamlet/src/store/memory.rs:152-201 | what each scan finds, spelled out: the stream's events, those beyond a version, or those whose event name is listed, whatever their aggregate type |
| EventLog.SelectSplit | crates/streamlet/src/store/memory.rs:190-201 | scanning a log is scanning a prefix and then what is beyond it |
| EventLog.WellFormedIff | crates/streamlet/src/store/mod.rs:28-32 | the inductive log invariant is equivalent to the store's promise that every stream has versions 1, 2, 3 and so on |
| EventLog.MaxVersionIsLength | crates/streamlet/src/store/memory.rs:97-103 | the version found by scanning for the maximum is the number of events of the stream |
| EventLog.SuffixScanIsFilter | crates/streamlet/src/store/mod.rs:60-71 | the store's own suffix load refines the trait's default one, which filters a full load; on any log |
| EventLog.SuffixScanIsDrop | crates/streamlet/src/store/memory.rs:162-180 | on a well-formed log a suffix load is the stream without its first min(v, length) events |
| EventLog.SortSorts | crates/streamlet/src/store/memory.rs:158-178 | the sort orders any records by version and keeps them all |
| EventLog.LoadNeedsNoSort | crates/streamlet/src/store/memory.rs:158-178 | sorting by version changes nothing in a full or a suffix load |
| EventLog.AppendKeepsLog | crates/streamlet/src/store/memory.rs:83-144 | every append, whatever its revision and even when it stops part-way, extends the log, keeps versions contiguous and leaves every other stream alone |
| EventLog.AppendOutcome | crates/streamlet/src/store/memory.rs:91-143 | conflict exactly when the revision does not admit the version, and then nothing is written; success exactly when it does and every event encodes; an encode failure writes less than the batch |
| EventLog.AppendSucceedsIff | crates/streamlet/src/store/memory.rs:105-143 | a non-empty append at `Any` succeeds exactly when every event encodes, at `NoStream` when the stream is also empty, at `Exact(v)` when its length is also v; a conflict is what the revision alone decides |
| EventLog.AppendLeavesPrefix | crates/streamlet/src/store/memory.rs:116-141 | an admitted append leaves exactly the leading events that encode, up to the first that does not, each as given, under the next versions |
| EventLog.AppendReadsBack | crates/streamlet/src/store/memory.rs:113-143 | a load after a successful append is the old stream followed by exactly the returned records |
| EventLog.PageThenRest | crates/streamlet/src/store/memory.rs:182-203 | reading on from a page's last position neither misses nor repeats an event |
| EventLog.PaginationIsComplete | crates/streamlet/src/store/memory.rs:182-203 | paging with any limit ends, the pages together are exactly the matching suffix of the log, and all but the last are full |
| MemoryStore.DocumentsAreIndependent | crates/streamlet/src/store/memory.rs:208-239 | a document is what was last saved under its own collection and key; no other save or deletion reaches it |
| MemoryStore.MemoryStore.Append | crates/streamlet/src/store/memory.rs:83-144 | the push loop's new log and result, with the log invariant kept |
| MemoryStore.MemoryStore.CurrentVersion | crates/streamlet/src/store/memory.rs:97-103 | the scanned maximum version of a stream, 0 for none |
| MemoryStore.MemoryStore.Load | crates/streamlet/src/store/memory.rs:146-160 | the decoded stream in log order, or a failure when any of its payloads does not decode |
| MemoryStore.MemoryStore.LoadFrom | crates/streamlet/src/store/memory.rs:162-180 | the decoded stream without its first min(v, length) events |
| MemoryStore.MemoryStore.ReadAll | crates/streamlet/src/store/memory.rs:182-203 | the first max(limit, 1) name-matching events beyond the position, decoded, failing only on a payload within them |
| MemoryStore.MemoryStore.Save | crates/streamlet/src/store/memory.rs:208-220 | replaces one document, or fails on encoding and changes nothing |
| MemoryStore.MemoryStore.Fetch | crates/streamlet/src/store/memory.rs:222-231 | absent, decoded or undecodable |
| MemoryStore.MemoryStore.Delete | crates/streamlet/src/store/memory.rs:233-239 | removes one document; a missing one is no error |
| Aggregates.Render | crates/streamlet/src/aggregate.rs:34-40 | the loop over payloads is the fold from the default state |
| Aggregates.RenderFrom | crates/streamlet/src/aggregate.rs:44-50 | the loop over recorded events is the fold of their payloads |
| Aggregates.KnownStaysKnown | crates/streamlet/src/store/mod.rs:28-32 | what a reader saw as the render of a stream's first v events stays that for ever, because the log only grows |
| Aggregates.TailLoadIsFullLoad | crates/streamlet/src/store/mod.rs:54-71 | folding the suffix beyond v onto the render of the first v events is the full load: state, revision and errors |
| Aggregates.AppendedIsKnown | crates/streamlet/src/service.rs:345-350 | the state a writer computes from the returned events is the render of the stream it produced, at the version of the last of them |
| Aggregates.ExecuteAlone | crates/streamlet/src/service.rs:113-125 | a command with nobody in between never conflicts, extends its own stream only, writes as many events as it reports, and nothing when rejected |
| Aggregates.ExecuteOutcomeIff | crates/streamlet/src/service.rs:113-125 | rejected with the decider's own reason exactly when it rejects, successful exactly when the load, the decision and the encoding of every event succeed, and otherwise a serialization failure |
| Aggregates.AppendIsExecute | crates/streamlet/src/service.rs:119-124 | a decision taken from any earlier state, once its append is let through, is what the command does run alone on the log the append found |
| Aggregates.RefusedMeansMoved | crates/streamlet/src/store/memory.rs:105-111 | an append is refused exactly when the stream has grown since the load, and then writes nothing |
| Aggregates.ExecuteWrites | crates/streamlet/src/service.rs:100-125 | the reported events are exactly what was appended, decided from the state right before them |
| Snapshots.DueIffMultipleCrossed | crates/streamlet/src/snapshot.rs:36-42 | a snapshot is due exactly when a multiple of n lies in (old, new] |
| Snapshots.SnapshotLoadIsFullLoadIff | crates/streamlet/src/service.rs:269-302 | for one instance whose own snapshot, if it decodes, is a render of its stream: the snapshot path agrees with the full load, in state, revision and errors, exactly when that snapshot decodes or the full load fails too |
| Snapshots.SnapshotLoadIsFullLoad | crates/streamlet/src/service.rs:275-302 | with a cache that is sound for every instance the two always agree |
| Snapshots.UnreadableSnapshotFailsLoad | crates/streamlet/src/service.rs:280 | a snapshot that does not decode fails the snapshot path with a serialization error, the only error a full load has |
| Snapshots.UnreadableSnapshotDiffers | crates/streamlet/src/service.rs:273-280 | the input on which the two differ: an undecodable snapshot over an empty log |
| Snapshots.SnapshotAheadDiffers | crates/streamlet/src/service.rs:281-301 | a snapshot ahead of its stream is returned as it is, and never agrees with the full load |
| Snapshots.SavingKnownIsSound | crates/streamlet/src/service.rs:305-322 | saving any state that was once true of the stream, older than the one held or newer, keeps the cache sound |
| Snapshots.UnrelatedDocumentsKeepSoundness | crates/streamlet/src/snapshot.rs:9-10 | deleting any snapshot and writing other collections never makes the cache wrong |
| Snapshots.SnapshottingAlone | crates/streamlet/src/service.rs:329-354 | does to the log what the plain command does and keeps the cache sound |
| Snapshots.SnapshotOutcomeIff | crates/streamlet/src/service.rs:335-353 | by what the plain command does: when that succeeds and the policy's multiple was crossed, the state the stream now has is saved at its version, or the command fails with its events committed; otherwise the same outcome and nothing saved |
| Snapshots.SavedExactlyWhenDue | crates/streamlet/src/service.rs:345-352 | after a command without store failure the snapshot is the new state at the new version if a multiple of n was crossed, and untouched if not |
| Snapshots.TailStaysShort | crates/streamlet/src/service.rs:345-352 | stream version and snapshot version stay between the same two multiples of n, for the written instance and all others, whatever the batch size |
| Snapshots.TailBound | crates/streamlet/src/snapshot.rs:28-42 | after any list of commands on any instances without a store failure, a snapshot load folds fewer than n events |
| Service.AttemptIsExecute | crates/streamlet/src/service.rs:113-125 | an attempt amid rivals conflicts exactly when it wants to write and its stream grew in its window; otherwise it is the command run alone, at its append or, with nothing to write, at its load |
| Service.RetryCommitsAtMostOnce | crates/streamlet/src/service.rs:208-226 | at most max + 1 attempts and one commit; a conflict exactly when all max + 1 windows were lost, and then nothing written; otherwise result and write are those of one run alone after the lost windows |
| Service.Service.Load | crates/streamlet/src/service.rs:85-98 | the full render and the version of its last event |
| Service.Service.AppendDecided | crates/streamlet/src/service.rs:244-261 | an empty decision succeeds without looking at the revision; any other is one append |
| Service.Service.Execute | crates/streamlet/src/service.rs:103-125 | load, decide, append is the meaning of one command |
| Service.Service.ExecuteAmid | crates/streamlet/src/service.rs:113-125 | the same with rivals writing between the load and the append |
| Service.Service.ExecuteWithRetry | crates/streamlet/src/service.rs:208-226 | the retry loop's outcome, log and attempt count under any rivals in any window |
| Service.Service.LoadSnapshotted | crates/streamlet/src/service.rs:275-302 | the snapshot's state with only the later events folded onto it |
| Service.Service.SaveSnapshot | crates/streamlet/src/service.rs:305-322 | one document replaced in the aggregate's snapshot collection, or nothing on an encode failure; that collection is no other type's by CollectionsDiffer |
| Service.Service.ExecuteSnapshotting | crates/streamlet/src/service.rs:329-354 | the new log, documents and outcome of one snapshotting command, commit-then-error included |
| Protocol.LegalAt | crates/streamlet/src/service.rs:113-125 | in a legal history every entry has the outcome and the effect its command has run alone at that place |
| Protocol.ReplayExtends | crates/streamlet/src/store/memory.rs:116-141 | each entry of a history continues one stream and leaves all others alone |
| Linearizability.InvHolds | crates/streamlet/src/service.rs:85-354 | the inductive invariant of the protocol in every reachable state: what clients hold, where they took effect, the windows of their refused appends in order with a write inside each, and a sound cache |
| Concurrency.RunsAreSequential | crates/streamlet/src/service.rs:85-125 | linearizability: in every interleaving the log is one sequential run of the commands, each with the outcome it has alone; every finished client is in it exactly once with what it reported, unless it reported a conflict, and then never |
| Concurrency.RunPersists | crates/streamlet/src/store/mod.rs:28-32 | later steps only extend the history, never move an effect or change a result |
| Concurrency.OrderRespectsRealTime | crates/streamlet/src/service.rs:85-125 | a command that took effect before another was issued comes first in the sequential order |
| Concurrency.ReportedEventsWereCommitted | crates/streamlet/src/service.rs:208-261 | a client that reports events appended exactly those, once, decided from the stream right before them, within its allowed attempts, and they are still there |
| Concurrency.SnapshotsAreTransparent | crates/streamlet/src/service.rs:269-322 | in every interleaving, late saves included, each stored snapshot is the render of that many first events, and the snapshot path returns what a full load would at its tail read |
| Concurrency.ConflictsAreCharged | crates/streamlet/src/service.rs:217-225 | every refused append of every client has its own window between that attempt's load and append, the windows follow one another within the client's call, and inside each another client or writer wrote to the stream |
| Concurrency.ConflictNeedsRivals | crates/streamlet/src/service.rs:217-225 | a conflict is returned only after every allowed retry, and after at least one more write by others, between the client's start and its last refused append, than it had retries |
| Concurrency.EnoughRetriesNeverConflict | crates/streamlet/src/service.rs:200-226 | a client with at least as many retries as other clients of its stream that took effect since it started, with no other writer there since, never ends with a conflict |
| Concurrency.TooFewRetriesCanConflict | crates/streamlet/src/service.rs:200-226 | the bound is exact: for every max, max + 1 rivals can make a client with max retries end with a conflict |
| Refinement.RetryIsSteps | crates/streamlet/src/service.rs:208-226 | the protocol's client, scheduled with rivals inside each attempt's window, leaves the log, outcome and attempt count of the retry loop |
| Refinement.SnapshottingIsSteps | crates/streamlet/src/service.rs:329-354 | the protocol's client advanced alone leaves the log, documents and outcome of the imperative snapshotting call after at most four store calls, whatever the cache holds |
| Projections.PageAdvances | crates/streamlet/src/store/projection.rs:72-84 | folding one page of any size moves a projection to a later position at which it again agrees with the log |
| Projections.ContinuedIsReplayed | crates/streamlet/src/store/projection.rs:66-90 | from any projection that agrees with the log, reading on comes to the full replay |
| Projections.PageContinues | crates/streamlet/src/store/projection.rs:72-84 | folding one page of any size and reading on from there comes to the same, from any projection |
| Projections.CaughtUpIsReplayed | crates/streamlet/src/store/projection.rs:73-78 | a projection with nothing left to read is the full replay |
| Projections.BadPageFailsReplay | crates/streamlet/src/store/projection.rs:33-35 | an undecodable event beyond the position fails the replay from scratch too |
| Projections.ReplayView | crates/streamlet/src/store/projection.rs:26-45 | the batched loop computes the fold of all matching events, with the last position, for every batch size |
| Projections.CatchUpView | crates/streamlet/src/store/projection.rs:55-90 | whatever is stored and whatever the batch size: the events beyond its position folded onto it, saved exactly when the position moved, nothing changed on any failure |
| Projections.CatchUpIsReplay | crates/streamlet/src/store/projection.rs:55-90 | from a sound stored view it returns what a full replay returns, fails exactly when that fails or the moved view cannot be written, writes nothing unless the view moved, and leaves a sound view stored |
| Projections.RacingCatchUpsAreSound | crates/streamlet/src/store/projection.rs:55-90 | in every interleaving of catch-ups and appends, older saves over newer ones included, the stored view is the fold up to its own position, and each returned one was the full replay at some moment of its call |
| Projections.AloneIsCatchUp | crates/streamlet/src/store/projection.rs:55-90 | a caller of the step machine that advances alone ends within three steps more than the log has events, with the result and documents of the imperative catch-up |
| Subscriptions.LoadCheckpoint | crates/streamlet/src/subscription.rs:40-46 | the stored position, 0 when there is none |
| Subscriptions.SaveCheckpoint | crates/streamlet/src/subscription.rs:48-56 | replaces the subscription's own document, or fails and changes nothing |
| Subscriptions.CheckpointMoves | crates/streamlet/src/subscription.rs:40-56 | a saved checkpoint loads back, and no other document changes |
| Subscriptions.Pump | crates/streamlet/src/subscription.rs:68-97 | the hand-overs, documents, count and result of one run, each failure at the point where it occurs; the publisher and reactor loops at lines 133-147 and 226-240 are the same |
| Subscriptions.PumpDelivers | crates/streamlet/src/subscription.rs:61-97 | a completed run hands over every due event once, in order, and reports how many; an interrupted one has processed the first few, handed over one more at most, left the checkpoint at the last one processed, and was interrupted only by a failing handler, an unwritable checkpoint or an undecodable page |
| Consumers.NothingBelowCheckpointIsLost | crates/streamlet/src/subscription.rs:80-96 | at least once: with any number of consumers of one name, failures, crashes and appends anywhere, nothing at or below the checkpoint is unhandled, even after it moved backwards; each consumer, overlapping or not, hands over in order without gap or repeat; a completed run reports the events between the checkpoint it loaded and the position it reached |
| Consumers.DeliveriesAreInOrder | crates/streamlet/src/subscription.rs:11-14 | over any series of single runs the hand-overs without adjacent repeats are a prefix of the matching log reaching at least the checkpoint, with no more repeats than interrupted runs |
| Consumers.CompletedRunMovesCheckpoint | crates/streamlet/src/subscription.rs:80-96 | a single run that completes has reached the stored checkpoint and reports the matching events between the checkpoint it loaded and that one |
| Consumers.AloneIsPump | crates/streamlet/src/subscription.rs:68-97 | a consumer of the step machine that runs alone ends as the imperative run does with a handler failing on the same invocations: same hand-overs, documents and result |
| Idempotency.AlreadyProcessed | crates/streamlet/src/subscription.rs:244-251 | whether a marker is found under the joined key |
| Idempotency.MarkProcessed | crates/streamlet/src/subscription.rs:255-262 | stores the marker, or fails and changes nothing |
| Idempotency.FoundIffKeyMarked | crates/streamlet/src/subscription.rs:244-262 | after any writes a marker is found exactly when some pair with the same joined key was marked |
| Idempotency.MarkerKeyIsInjective | crates/streamlet/src/subscription.rs:249-260 | joined keys are equal exactly when scope and id are, for ids without a colon |
| Idempotency.MarkersAreExact | crates/streamlet/src/subscription.rs:243-262 | for ids without a colon a pair is reported processed exactly when it was marked |
| Idempotency.ColonsCollide | crates/streamlet/src/subscription.rs:249-260 | whenever an id with a colon is marked, a different pair looks processed, whatever else was written |
| Idempotency.ColonFreeIff | crates/streamlet/src/subscription.rs:249-260 | an id has no colon exactly when no other pair whose id has none shares its key |
| Idempotency.ExactIffNoColon | crates/streamlet/src/subscription.rs:243-262 | against marks of any shape, a pair is reported processed exactly when it was marked if and only if neither its scope nor its id has a colon |
| Deduplication.EffectsAreBounded | crates/streamlet/src/subscription.rs:11-14 | a consumer that checks the marker, takes effect and marks, on any deliveries interrupted anywhere, takes effect at most once more than it was interrupted between effect and mark, and exactly that often once its handling succeeded |
| Isolation.CollectionsDiffer | crates/streamlet/src/snapshot.rs:45-48 | snapshot collections differ exactly when the aggregate types do, and none is the collection of checkpoints or of markers |
| Isolation.AggregatesAreIsolated | crates/streamlet/src/service.rs:275-354 | whatever snapshotting commands one aggregate type executes, the loads, held snapshot versions and cache soundness of another stay what they were |
| Isolation.RunsAreIsolated | crates/streamlet/src/subscription.rs:40-97 | a run of one subscription moves no other subscription's checkpoint, no marker and no snapshot |
| Isolation.MarksAreIsolated | crates/streamlet/src/subscription.rs:255-262 | a mark moves no checkpoint and no snapshot |
| BankAccount.NamesAreDerived | examples/bank-account/src/main.rs:27-34 | each event's stable name is the prefix and its variant name in snake case |
| BankAccount.LiveAccount.ApplyEvent | examples/bank-account/src/main.rs:96-103 | the in-place update is the fold's step, with wrap-around |
| BankAccount.LiveAccount.ApplyEach | examples/bank-account/src/main.rs:96-103 | applying a list of events in place is their fold |
| BankAccount.RenderAccount | crates/streamlet/src/service.rs:85-98 | loading an account from the store and rendering it in place gives the state its events fold to |
| BankAccount.DecidersPermit | examples/bank-account/src/main.rs:106-159 | an event is permitted in a state exactly when some command yields it there, and every accepted command yields one permitted event |
| BankAccount.HandleIff | examples/bank-account/src/main.rs:106-159 | a command is accepted exactly when the event it asks for is permitted, and yields exactly that event; and which rejection comes back when, with which amounts |
| BankAccount.CommandDoesAsAsked | examples/bank-account/src/main.rs:106-159 | run on the store a command is rejected with the decider's reason, fails on encoding, or adds exactly the event it asks for at the end of its own account, and touches no other account |
| BankAccount.AmountsAreAsAsked | examples/bank-account/src/main.rs:117-145 | an accepted withdrawal lowers the rendered balance by exactly the amount asked for, and an accepted deposit that does not overflow raises it by exactly that |
| BankAccount.BalanceIsNetWrapped | examples/bank-account/src/main.rs:96-103 | every history, safe or not, renders to deposits minus withdrawals up to wrap-around |
| BankAccount.OpenIffOpenedLast | examples/bank-account/src/main.rs:96-103 | every history renders to an open account exactly when it was opened and not closed since |
| BankAccount.SafeBooks | examples/bank-account/src/main.rs:96-159 | deposits minus withdrawals is the balance plus a full range per overflowing deposit, and an account that is not open is empty |
| BankAccount.SafeCounts | examples/bank-account/src/main.rs:96-159 | in a safe history there is one opening more than closings exactly while the account is open |
| BankAccount.SafeNeverUnderflows | examples/bank-account/src/main.rs:100 | no prefix of a safe history subtracts below zero |
| BankAccount.BalanceIsNetIff | examples/bank-account/src/main.rs:96-126 | the balance is deposits minus withdrawals exactly when no deposit overflowed |
| BankAccount.CheckedRenderIff | examples/bank-account/src/main.rs:96-103 | in a build that checks arithmetic, rendering a safe history stops exactly when some deposit overflows, and otherwise gives the same state |
| BankAccount.OverflowIsAccepted | examples/bank-account/src/main.rs:117-126 | an accepted deposit that overflows and empties the account |
| BankAccount.AccountsAreSafe | examples/bank-account/src/main.rs:86-159 | in every interleaving of service clients every event of every account was permitted in the state it met |
| BankAccount.AcceptedAsAsked | examples/bank-account/src/main.rs:106-159 | in every interleaving a client that reports success has had recorded exactly the event its command asked for |
| BankAccount.LiveLedger.ApplyEvent | examples/bank-account/src/main.rs:190-197 | the in-place update is the projection's step |
| BankAccount.LiveLedger.ApplyEach | examples/bank-account/src/main.rs:190-197 | folding events into the ledger in place is their fold |
| BankAccount.ReplayLedger | crates/streamlet/src/store/projection.rs:26-45 | the paged loop over the live ledger computes the replay of the ledger view |
| BankAccount.LedgerIsSum | examples/bank-account/src/main.rs:190-197 | the one global projection's total is the sum over accounts of deposits minus withdrawals, and its count the sum of their openings |
| BankAccount.LedgerConservation | examples/bank-account/src/main.rs:180-198 | at every position of every reachable log the replayed total is the sum of rendered balances plus a full range per overflow, equal to that sum exactly when there was none, never negative, and within i128 below 2^63 events; and the accounts opened are those open now and one for every closing |
| CaseConversion.SplitWords | crates/streamlet-derive/src/lib.rs:264-287 | the loop over characters computes the scanner's words |
| CaseConversion.SplitKeepsLetters | crates/streamlet-derive/src/lib.rs:264-287 | splitting loses nothing but separators and case, and yields non-empty words without either |
| CaseConversion.JoinedSplitsBack | crates/streamlet-derive/src/lib.rs:270-293 | words joined by '_', '-' or ' ' split into the same words, for every list of words |
| CaseConversion.SeparatedCasesAreLossless | crates/streamlet-derive/src/lib.rs:289-308 | snake and kebab case keep the words, so converting on from them to any case is converting from the original |
| CaseConversion.SeparatedForms | crates/streamlet-derive/src/lib.rs:292-293 | snake case has no upper case and no separator but '_', kebab case none but '-', and each holds the letters and one separator between any two words |
| CaseConversion.SolidCasesAreIdempotent | crates/streamlet-derive/src/lib.rs:299-300 | lower and upper case are idempotent |
| CaseConversion.RaisedForms | crates/streamlet-derive/src/lib.rs:294-300 | upper snake case is snake case raised, lower case the identifier's letters lowered, upper case that raised, with nothing of the wrong case left |
| CaseConversion.CapitalizedIsOneWord | crates/streamlet-derive/src/lib.rs:310-316 | a capitalized word is one word, and snake case lowers its capital |
| CaseConversion.HumpForms | crates/streamlet-derive/src/lib.rs:301-316 | Pascal and camel case are lower case raised at the start of every word, camel case not at the very start, letter by letter |
| CaseConversion.AlphabetPairs | crates/streamlet-derive/src/lib.rs:280 | capitals and small letters pair up as in the alphabet and nothing else changes |
| CaseConversion.HumpsRoundTripIff | crates/streamlet-derive/src/lib.rs:301-306 | Pascal and camel case keep the words exactly when every word boundary shows |
| CaseConversion.PascalRoundTripIff | crates/streamlet-derive/src/lib.rs:301 | for identifiers Pascal case keeps the words exactly when every word but the first starts with a letter and none but the last is a lone letter |
| CaseConversion.ScreamingRoundTripIff | crates/streamlet-derive/src/lib.rs:294-298 | upper snake case keeps the words exactly when no word has a letter right after a digit |

## Left out

- The SQL store (`crates/streamlet/src/store/libsql.rs`): its behaviour is that of a database engine.
- The Restate backend and its examples: wrappers around an external runtime.
- Macro expansion, compile-time command typing, and the typed `submit` and `dispatch` entry points: they run the same load, decide, append as `execute`, with another decider; the four account handlers are one decider over four commands.
- `run_publisher`, `run_reactor` and the contents of `InMemoryPublisher`: the loop is `Pump`, and what a handler does with an event is left to it.
- Event ids, timestamps, metadata, the text of error messages, and the error kinds that the in-memory store never returns. A conflict carries the expected revision itself and not its description.
- 64-bit bounds on versions, positions and the `accounts_opened` counter: these are natural numbers here.
- MemoryStore.MemoryStore.Append: does not carry event ids, timestamps and metadata, which pass through unread and take part in no result.
- BankAccount.LiveAccount.ApplyEvent: wraps around as an optimized build does; when a build with overflow checks stops instead is stated by CheckedRenderIff.
- Concurrency.SnapshotsAreTransparent: assumes that only the service writes the aggregate's snapshot collection and that snapshots read back as written.
- Consumers.DeliveriesAreInOrder: assumes runs one after the other; with overlapping runs the hand-overs of different consumers repeat and interleave, and `NothingBelowCheckpointIsLost` is what remains.
- Deduplication.EffectsAreBounded: assumes that one handler at a time works within its scope; two at once can both miss the marker.
- Subscriptions.Pump: like the catch-up of a view, terminates with the log held fixed; with appends that never stop the loop need not end, and the step machines cover those runs.
- CaseConversion.SplitWords: ASCII letters only; other letters have no case here.
- Reading the name of a case from an attribute: a fixed table of seven words.
- Mutex poisoning, the asynchronous runtime and tracing.
- Upcasting and `load_raw`, document listing, and the store's `len` and `is_empty`: easy next to the rest.
- The counter examples: their decrement is unchecked, so they promise no invariant.
