# Verified model of Event Horizon

Event Horizon is a toolkit for command/query separation and event sourcing in
Go. This project models the protocols that keep its append-only log, its global
order, its delivery and its derived views correct under concurrency, retries and
redelivery, and proves what they promise. `dafny verify dfyconfig.toml` checks
everything.

## How the model is built

Protocols between processes are step systems. One database operation, one handler
call or one critical section is one action; a run is any sequence of actions; an
action that is not enabled changes nothing. Statements "over every run" are
therefore statements about every sequence of actions, of any number of clients and
workers. Code that works in place (batches, the removal loops of the in-memory
outbox, aggregates, repositories, the projector's retry) is modelled by classes and
loops, and its contracts equate it with the functions that the step systems use.

| file | models |
|---|---|
| `Base.dfy` | events, records, the log of one aggregate |
| `EventLog.dfy` | the save protocol of the MongoDB event store, both position strategies, any mix of clients |
| `Positions.dfy` | global positions over whole runs |
| `EventStore.dfy` | the store's loops and operations, Replace and RenameEvent |
| `Aggregates.dfy` | replay, snapshots, event numbering |
| `Commands.dfy` | the command loop: snapshot, load, decide, save, take a snapshot; serializability |
| `AggregateTypes.dfy` | when snapshots keep aggregate types apart, and a run in which they do not |
| `CommandHandler.dfy` | the aggregate store and the command handler when nobody disturbs them |
| `Outbox.dfy` | the distributed outbox |
| `MemoryOutbox.dfy`, `MemoryRuns.dfy` | the in-memory outbox: its objects, and its runs as runs of the distributed one |
| `EndToEnd.dfy` | event store and outbox together |
| `Projector.dfy` | the projector's event handler and the version-checking repository |
| `Filter.dfy` | matchers, subscription filters, their parser and meaning |
| `Todo.dfy`, `TodoCommands.dfy`, `TodoReadModel.dfy` | the todo list aggregate, what each command does to it, and its read model |
| `GuestList.dfy`, `GuestRaces.dfy` | the invitation aggregate and the response saga; overlapping calls of the saga |
| `Scheduler.dfy` | the durable command scheduler |
| `CachedRepo.dfy`, `CacheRaces.dfy` | the in-memory repository behind the caching repository; overlapping calls of it |

MongoDB is a set of maps and sequences with atomic conditional updates. A
transaction is a snapshot attempt: it commits only if the documents it writes are
unchanged, and its body is run again otherwise. Time is an integer, codecs are
identities, and handlers, projectors and aggregates are deterministic functions
that may fail; whatever else an outcome depends on is a parameter of the action.

## Findings

Where the code does not meet a property in general, the model keeps the code and
states when it does.

- Loading does not compare the type of a snapshot with the type asked for
  (`aggregatestore/events/aggregatestore.go:121-125`). `Aggregates.SnapshotLoadIff`
  says on every log exactly when the result still equals full replay, and
  `Commands.SnapshotRefinement` the same of every reachable state.
  `Commands.Serializability` is an equivalence over all runs: the log is that of a
  sequential client if and only if no aggregate has events of two types.
  `AggregateTypes.SnapshotMixesTypes` is a run in which a snapshot mixes two, and
  `AggregateTypes.DisciplinedIsOneTyped` names two ways of use in which that cannot
  happen: one type per ID, or no snapshots.
- Positions reserved outside the transaction follow versions if clients load
  before they save. `Positions.UnloadedSaveReorders` is a run in which they do not,
  and `Positions.CommitKeepsOrderIff` the exact condition on one commit.
- An event type called `aggregate_type` overwrites the attribute that carries the
  aggregate type (`eventbus/gcp/eventbus.go:168-171`), and matching events are lost.
  `Filter.MatchersAgreeIff` gives the exact condition.
- The in-memory outbox processes an entry taken from its watch channel even if a
  sweep has deleted it meanwhile (`outbox/memory/outbox.go:207-211`), so handlers can
  be called again; and its sweep takes entries never taken before at once, because
  the zero time is before every other (`outbox/memory/outbox.go:228-231`), where the
  distributed one waits for the cleanup age.
- The response saga looks up a guest, compares the number of guests with the limit
  and records the guest in separate steps
  (`examples/guestlist/domains/guestlist/saga.go:54-71`). Everything promised holds
  for calls one after another. `GuestRaces.LimitHoldsIff` says that the limit holds
  exactly if no two calls overlap (or nobody is let in), and
  `GuestRaces.ConfirmedOnceIff` and `GuestRaces.NeverBothIff` that a guest gets one
  answer exactly if no two calls for the same guest do.
- Save and Remove of the caching repository bust the cache and write in separate
  critical sections, and Find reads and caches in separate ones
  (`repo/cache/repo.go:85-92`, `repo/cache/repo.go:115-132`). The cache is right in
  every state if these never overlap for one entity (`CacheRaces.DisjointIsCoherent`);
  for a read against a write that changes the entity, among any other calls, it is
  right afterwards if and only if they do not (`CacheRaces.CoherentIffDisjoint`).
- A scheduled command may bring its own ID, and a command saved under a used ID
  replaces the stored one (`middleware/commandhandler/scheduler/middleware.go:207-228`).
  `Scheduler.CommandsAreLostIff` says that a run can lose one of two commands exactly
  if they are different ones with the same ID.

## Model

| member | source | states |
|---|---|---|
| `EventLog.RunKeepsInv` | eventstore/mongodb_v2/eventstore.go:375-581 | In every reachable state, under both position strategies and any mix: each aggregate's versions are exactly 1..n, its stream document says n and the position of event n; committed and outstanding positions partition 1..`$all`; metadata repeats positions; reserved ranges are disjoint |
| `EventLog.CommitKeepsShapeOf` | eventstore/mongodb_v2/eventstore.go:443-469 | The compare-and-set on the stream document lets a commit extend a log only at its end |
| `EventLog.KeysAlwaysFree` | eventstore/mongodb_v2/eventstore.go:432-440 | An undisturbed attempt never inserts a position that is already a key |
| `EventLog.StepKeepsInv` | eventstore/mongodb_v2/eventstore.go:892-934 | Every single action of any client keeps the log and position invariant |
| `EventLog.StreamsAreTyped` | eventstore/mongodb_v2/eventstore.go:410-430 | Over every run, a stream document carries the type of its aggregate's first event |
| `EventLog.PlaceStores` | eventstore/mongodb_v2/eventstore.go:971-999 | A placed record keeps kind, type, ID, version and every metadata entry of its event, and adds its position |
| `EventLog.ValidBatchIff` | eventstore/mongodb_v2/eventstore.go:299-342 | A batch is accepted exactly if it is not empty and its events have one ID, one type and versions continuing the original one |
| `EventLog.CheckEventTells` | eventstore/mongodb_v2/eventstore.go:299-342 | The error tells the fault: the ID first, then the type, then the version |
| `EventLog.DisturbedIsRetried` | eventstore/mongodb_v2/eventstore.go:393-396 | An attempt whose documents were changed meanwhile leaves the save to be tried again |
| `EventLog.ConflictEndsSave` | eventstore/mongodb_v2/eventstore.go:443-469 | A conflict ends the save and leaves the store |
| `EventLog.AbortAndFail` | eventstore/mongodb_v2/eventstore.go:393-396 | An aborted attempt leaves the save as it was, ready for another; a failed save is over |
| `Positions.AllIsConserved` | eventstore/mongodb_v2/eventstore.go:871-888 | `$all` is the number of committed events plus the number of positions reserved but not committed, and ranges held by saves in progress are disjoint |
| `Positions.PositionsFollowCommitOrder` | eventstore/mongodb_v2/eventstore.go:393-430 | With positions taken inside the transaction, whatever aborts and reruns, committed positions are exactly 1..`$all` in commit order, also in the metadata |
| `Positions.CommitKeepsOrderIff` | eventstore/mongodb_v2/eventstore.go:545-569 | A commit keeps positions increasing within its aggregate if and only if the stream document's position precedes the batch |
| `Positions.PositionsFollowVersions` | eventstore/mongodb_v2/eventstore.go:498-569 | If every client loads the version it saves against first, positions strictly increase with versions in every aggregate, over every run |
| `Positions.UnloadedSaveReorders` | eventstore/mongodb_v2/eventstore.go:498-529 | A run in which a save against a guessed version puts version 2 before version 1 |
| `EventStore.BuildRecords` | eventstore/mongodb_v2/eventstore.go:285-342 | The validation loop accepts exactly the batches of one aggregate and type with consecutive versions, and otherwise reports the first fault |
| `EventStore.AssignPositions` | eventstore/mongodb_v2/eventstore.go:410-430 | Positions and metadata are assigned in place, consecutively after the previous position |
| `EventStore.PlaceBatch` | eventstore/mongodb_v2/eventstore.go:393-430 | However often the body runs on the same records, only the last attempt's positions remain |
| `EventStore.VerifyInsertedPositions` | eventstore/mongodb_v2/eventstore.go:585-616 | The check succeeds exactly when every position is among the inserted IDs |
| `EventStore.UndisturbedSave` | eventstore/mongodb_v2/eventstore.go:375-581 | A save that nobody disturbs is one pass through the protocol, under either strategy, with the same committed store |
| `EventStore.EventStore.SaveBatch` | eventstore/mongodb_v2/eventstore.go:375-581 | The transaction commits exactly when the stream document is at the original version; a conflict keeps the store, apart from positions given up |
| `EventStore.EventStore.Save` | eventstore/mongodb_v2/eventstore.go:285-354 | Save succeeds exactly on valid batches against the current version, says conflict on any other version and otherwise the first fault, and keeps the log sound in every outcome |
| `EventStore.OutcomeIsSound` | eventstore/mongodb_v2/eventstore.go:443-469 | Committed or not, a save leaves a sound log with distinct positions up to `$all` |
| `EventStore.FromIsTail` | eventstore/mongodb_v2/eventstore.go:633-644 | The query of LoadFrom is the tail of the log from that version, whatever the version |
| `EventStore.EventStore.LoadFrom` | eventstore/mongodb_v2/eventstore.go:646-711 | LoadFrom returns exactly the tail, in version order and with every stored field and metadata entry, and not-found exactly when it is empty |
| `EventStore.SaveLoadRoundTrip` | eventstore/mongodb_v2/eventstore.go:646-711 | After a successful save, loading from the next version gives the saved events back, field by field, with their metadata and the stored position |
| `EventStore.ReplaceLoadRoundTrip` | eventstore/mongodb_v2/eventmaintenance.go:48-97 | After Replace, loading from that version gives the new event back, with its metadata and the old position |
| `EventStore.ReplaceOutcome` | eventstore/mongodb_v2/eventmaintenance.go:48-77 | Replace succeeds exactly for versions 1..n of a stored aggregate, and tells a missing aggregate from a missing event |
| `EventStore.ReplaceKeepsLog` | eventstore/mongodb_v2/eventmaintenance.go:79-97 | Replace stores every field of the new event at the old position, changes no other event, and keeps every log invariant |
| `EventStore.RenameKeepsLog` | eventstore/mongodb_v2/eventmaintenance.go:112-130 | RenameEvent leaves no event of the old type, changes nothing but types, and keeps every log invariant |
| `Aggregates.FullLoad` | aggregatestore/events/aggregatestore.go:128-147 | Without a snapshot, Load is the fold of the whole log, at version n |
| `Aggregates.SnapshotLoad` | aggregatestore/events/aggregatestore.go:108-148 | Through a snapshot of the right type, Load gives the state, version and errors of full replay |
| `Aggregates.SnapshotLoadIff` | aggregatestore/events/aggregatestore.go:110-126 | On every log, loading through a snapshot agrees with full replay if and only if the type is right, or an event after the snapshot has another type than the requested one, or those events cannot be applied |
| `Aggregates.ReplaysIff` | aggregatestore/events/aggregatestore.go:232-246 | A tail replays exactly if every event has the requested type and every one can be applied in turn |
| `Aggregates.ReplaySplit` | aggregatestore/events/aggregatestore.go:232-246 | Applying a log is applying a prefix and then the rest |
| `Aggregates.Stamp` | aggregatestore/events/aggregatebase.go:110-120 | Events numbered from the aggregate's version on form a batch that Save accepts |
| `Aggregates.AggregateBase.AppendEvent` | aggregatestore/events/aggregatebase.go:110-120 | Appending keeps the numbering, so the uncommitted events are always a valid batch |
| `Aggregates.AggregateBase.ClearUncommittedEvents` | aggregatestore/events/aggregatebase.go:103-107 | Nothing is left uncommitted |
| `Aggregates.AggregateBase.ApplyEvents` | aggregatestore/events/aggregatestore.go:232-246 | The loop computes the replay, fails on the first wrong type or error, and ends at the last version |
| `Commands.Serializability` | commandhandler/aggregate/commandhandler.go:57-80 | In every interleaving with crashes, aborts and retries, the committed events are, in commit order, exactly those of one client handling the committed commands one after another, if and only if no aggregate has events of two types |
| `Commands.SerialIsOneTyped` | aggregatestore/events/aggregatestore.go:232-237 | A sequential client never puts events of two types on one aggregate |
| `AggregateTypes.DisciplinedIsOneTyped` | aggregatestore/events/aggregatestore.go:108-126 | Runs that use an ID with one type, and runs that take no snapshots, keep every aggregate to one type and are serializable |
| `AggregateTypes.UndisturbedCommand` | commandhandler/aggregate/commandhandler.go:57-80 | Under either position strategy, the steps of a command that nobody disturbs commit its decision on what the newest snapshot and the events after it give |
| `AggregateTypes.SnapshotWhenDue` | aggregatestore/events/aggregatestore.go:194-230 | After a save a snapshot of the new state is taken exactly when due, given the newest one, the version and the time |
| `AggregateTypes.LostOrAborted` | commandhandler/aggregate/commandhandler.go:57-80 | A client lost in a save commits nothing and is free again; an aborted attempt can be begun again |
| `AggregateTypes.ConflictFreesClient` | commandhandler/aggregate/commandhandler.go:79-80 | A save that meets a conflict commits nothing and frees its client |
| `AggregateTypes.UndecidedEnds` | commandhandler/aggregate/commandhandler.go:68-77 | A command that cannot be loaded, is refused or emits nothing ends without a save |
| `AggregateTypes.SnapshotMixesTypes` | aggregatestore/events/aggregatestore.go:121-125 | In every application where one type accepts a command on the state of another, a run from the empty store commits events of both types and is not serializable |
| `AggregateTypes.MixedCounters` | aggregatestore/events/aggregatestore.go:121-125 | A concrete application and run in which that happens |
| `Commands.StepIsStoreRun` | commandhandler/aggregate/commandhandler.go:57-80 | Every step of the command loop is a run of the save protocol |
| `Commands.LoadIsFold` | aggregatestore/events/aggregatestore.go:87-148 | Through whatever snapshot was found, what is loaded is at the last version of the log; without one, or on a log of the requested type, it is the fold of the log |
| `Commands.CommitIsCurrent` | aggregatestore/events/aggregatestore.go:163-176 | At the commit, the version decided on is still the last one, and the state the fold of a log of its type |
| `Commands.BatchIsResponse` | commandhandler/aggregate/commandhandler.go:68-79 | On a log of its type, the committed batch is what HandleCommand emits on the fold of everything before it |
| `Commands.CommandPositions` | eventstore/mongodb_v2/eventstore.go:498-569 | In every reachable state of the command loop: log shape, conservation of positions, and positions increasing with versions |
| `Commands.NewestIsGood` | eventstore/mongodb_v2/eventstore.go:713-721 | The newest snapshot is a stored one, was taken after an event of its type, and is the replay of a prefix of a log of its type |
| `Commands.SnapshotRefinement` | aggregatestore/events/aggregatestore.go:87-148 | In every reachable state, loading through the newest snapshot equals full replay if and only if the log has only the requested type, or there is no snapshot, or the events after it have another type or cannot be applied |
| `Commands.RunKeepsRecent` | aggregatestore/events/snapshotstrategy.go:44-48 | With a snapshot every n events, after a successful Save the newest snapshot is fewer than n versions behind |
| `Commands.ReplayIsBounded` | aggregatestore/events/aggregatestore.go:194-230 | A load after a successful Save replays fewer than n events, plus those others committed since |
| `Commands.HistoryWasBegun` | commandhandler/aggregate/commandhandler.go:57-80 | Every committed command was begun by some client |
| `Commands.EventsWereEmitted` | commandhandler/aggregate/commandhandler.go:68-79 | In every reachable state, every committed event was emitted for a committed command on its aggregate |
| `Commands.SerialLogs` | commandhandler/aggregate/commandhandler.go:68-79 | Whatever every command keeps holds of every log that commands produce in sequence |
| `Commands.CommandLogs` | commandhandler/aggregate/commandhandler.go:57-80 | And of every log in every reachable state of the concurrent system that has no event of another type |
| `CommandHandler.AggregateStore.LoadAggregate` | aggregatestore/events/aggregatestore.go:87-148 | The load calls compute the newest snapshot continued by the events after it |
| `CommandHandler.StoredIsFold` | aggregatestore/events/aggregatestore.go:108-148 | That is at the last version of the log, and the fold of it on a log of the requested type or without a snapshot |
| `CommandHandler.AggregateStore.SaveAggregate` | aggregatestore/events/aggregatestore.go:152-192 | The batch is appended exactly if nobody saved in between, applied in memory, and a snapshot of the new state taken when due; snapshots stay sound |
| `CommandHandler.AggregateStore.TakeSnapshot` | aggregatestore/events/aggregatestore.go:194-230 | A snapshot is taken exactly when the strategy says so, given the newest one |
| `CommandHandler.AggregateStore.HandleCommand` | commandhandler/aggregate/commandhandler.go:57-80 | Load, decide and save append exactly the decision on what is stored, which on a log of the requested type is the response of the sequential specification, and meet no conflict |
| `CommandHandler.AnsweredIsResponse` | commandhandler/aggregate/commandhandler.go:68-79 | On a log of the requested type, deciding through the newest snapshot is the response of the sequential specification |
| `Outbox.Matching` | outbox/mongodb/outbox.go:207-213 | An event is queued for exactly the registered handlers that match it |
| `Outbox.MatchingOneMore` | outbox/mongodb/outbox.go:207-213 | Handlers are listed in the order in which they were added |
| `Outbox.AddHandlerTells` | outbox/mongodb/outbox.go:154-175 | A new handler type is added after all the others; a used one is refused |
| `Outbox.AddHandlerKeepsDistinct` | outbox/mongodb/outbox.go:154-175 | Handler types stay distinct, so an entry never lists a handler twice |
| `Outbox.RunKeepsInv` | outbox/mongodb/outbox.go:353-468 | Over every run with stale copies, expired leases and dying workers: every queued handler has succeeded or is still stored, nothing is delivered that was not queued, and every worker's copy contains the stored list |
| `Outbox.DroppedOnlyAfterSuccess` | outbox/mongodb/outbox.go:438-465 | What a pull or a delete removes has succeeded before |
| `Outbox.PullAllMembers` | outbox/mongodb/outbox.go:448-452 | A pull removes exactly the processed handlers |
| `Outbox.SettleTells` | outbox/mongodb/outbox.go:438-465 | A job that processed its whole copy deletes the entry, any other pulls exactly what it processed; nothing else changes |
| `Outbox.FreeTells` | outbox/mongodb/outbox.go:395-403 | An entry is free if never taken or taken more than 15 seconds ago; one never taken is swept after 10 minutes |
| `Outbox.InsertAndDie` | outbox/mongodb/outbox.go:215-226 | A new entry is pending for all its handlers; a worker that dies leaves the entry |
| `Outbox.SweptIsFree` | outbox/mongodb/outbox.go:360-365 | A sweep fetches only entries free to be taken, and leaves only young ones never taken |
| `Outbox.SoloJob` | outbox/mongodb/outbox.go:395-465 | Take, calls and finish together: the whole new state, with the entry deleted if all succeeded and the successful ones pulled otherwise |
| `Outbox.LeaseBound` | outbox/mongodb/outbox.go:395-411 | Over every run, takes of an entry are stamped more than the sweep age apart, so a window has at most window / age + 1 |
| `EndToEnd.AtLeastOnce` | eventstore/mongodb_v2/eventstore.go:471-479 | In every reachable state, each committed event was queued and has, for each handler that matched then, a success or a pending entry |
| `EndToEnd.OnlyCommittedEvents` | outbox/mongodb/outbox.go:198-229 | What aborted, rerun and failed attempts wrote never reaches the outbox, and only committed, matching events are delivered |
| `EndToEnd.CommitQueues` | eventstore/mongodb_v2/eventstore.go:471-479 | Once the handler was called on every event, the attempt commits and exactly its entries are queued |
| `EndToEnd.HandlingAdvances` | eventstore/mongodb_v2/eventstore.go:471-479 | The handler is called on the events of a batch in turn and lists every registered handler that matches |
| `EndToEnd.EndedAttemptLeavesNothing` | eventstore/mongodb_v2/eventstore.go:471-479 | Whatever ends an attempt without a commit discards what it wrote to the outbox |
| `EndToEnd.WorkersAct` | outbox/mongodb/outbox.go:386-468 | Workers work on the outbox as they do without the store |
| `EndToEnd.RunKeepsInv` | eventstore/mongodb_v2/eventstore.go:471-479 | Over every run, entry i of the outbox is event i of the store, and uncommitted entries belong to an attempt under way, in the order of its events |
| `EndToEnd.ClientSide` | eventstore/mongodb_v2/eventstore.go:471-479 | Outbox and workers do not disturb clients, so every theorem about commands holds with the outbox attached |
| `MemoryOutbox.Compact` | outbox/memory/outbox.go:279-286 | The in-place loop leaves exactly the other handlers, in order, at the front of the same array |
| `MemoryOutbox.Entry.Remove` | outbox/memory/outbox.go:278-287 | The slice that remains is the pull of the one handler |
| `MemoryOutbox.Entry.RemoveAll` | outbox/memory/outbox.go:278-287 | All removal loops together are the pull of the processed handlers |
| `MemoryOutbox.Entry.CallHandlers` | outbox/memory/outbox.go:250-273 | Every handler is called whatever the others do, and the successful ones are collected in order |
| `MemoryOutbox.Entry.Process` | outbox/memory/outbox.go:239-289 | A held lease changes nothing; a free one is stamped and the successful handlers go |
| `MemoryOutbox.MemoryOutbox.ProcessOutboxEvent` | outbox/memory/outbox.go:239-289 | On the whole collection this is the step of the in-memory runs; a deleted entry changes nothing stored |
| `MemoryRuns.LiveStepRefines` | outbox/memory/outbox.go:239-289 | Processing a stored entry is fetching, taking, calling and finishing it in the distributed outbox |
| `MemoryRuns.GoneStepStutters` | outbox/memory/outbox.go:207-211 | Processing a deleted entry again delivers nothing that was not delivered before |
| `MemoryRuns.AllSucceed` | outbox/memory/outbox.go:275-277 | An entry whose handlers all succeed is deleted; the watch channel still holds it with all of them and its lease |
| `MemoryRuns.GoneIsProcessedAgain` | outbox/memory/outbox.go:207-211 | A deleted entry is processed again exactly once its lease has expired, with its handlers called and a new lease stamped |
| `MemoryRuns.QueueTells` | outbox/memory/outbox.go:116-157 | A queued event is pending for all its handlers |
| `MemoryRuns.MemoryRefines` | outbox/memory/outbox.go:239-289 | Every run of the in-memory outbox is a run of the distributed one |
| `MemoryRuns.MemoryLosesNothing` | outbox/memory/outbox.go:239-289 | Over every run a queued handler has succeeded or is still stored, and nothing else is delivered |
| `MemoryRuns.MemoryLeaseBound` | outbox/memory/outbox.go:242-248 | Over every run, deleted entries included, a window has at most window / age + 1 takes of an entry |
| `MemoryOutbox.PullLeavesFailures` | outbox/memory/outbox.go:278-287 | With distinct handlers, exactly those that did not succeed remain, in order |
| `MemoryOutbox.MemorySweepsEverythingFree` | outbox/memory/outbox.go:227-234 | The in-memory sweep processes every free entry; it agrees with the distributed one except on young entries never taken |
| `Projector.ProjectionIsSafe` | eventhandler/projector/eventhandler.go:206-343 | With racing workers and events duplicated, reordered or lost, a stored model of version v is the projection of events 1..v |
| `Projector.HandleExtendsPrefix` | eventhandler/projector/eventhandler.go:245-310 | What is saved extends the found prefix by exactly the event |
| `Projector.VersionsCanGoBack` | eventhandler/projector/eventhandler.go:324-332 | A run in which a slow worker takes the stored version back |
| `Projector.EventHandler.HandleEvent` | eventhandler/projector/eventhandler.go:177-346 | The handler retries exactly on a version mismatch and at most once, over either repository, and writes the decision on what it last found |
| `Projector.OutcomeTells` | eventhandler/projector/eventhandler.go:206-332 | When each outcome arises: ignored, model not set, model removed, incorrect version, removal, and a failed projection exactly on an error, a wrong version or a wrong ID |
| `Projector.WriteTells` | eventhandler/projector/eventhandler.go:312-343 | A save stores the model under the event's ID, a removal takes it away, and nothing else changes |
| `Projector.DeliveriesFollowProgress` | eventhandler/projector/eventhandler.go:245-283 | With one worker the stored model is always the projection of the events delivered in turn |
| `Projector.ProgressGrows` | eventhandler/projector/eventhandler.go:250-253 | The stored version never decreases |
| `Projector.RedeliveryChangesNothing` | eventhandler/projector/eventhandler.go:250-253 | An event delivered again is ignored and changes nothing |
| `Projector.ProjectionConverges` | eventhandler/projector/eventhandler.go:245-332 | Any delivery sequence containing events 1..n in order ends at the projection of all n |
| `Projector.FindWithMinVersion` | repo/version/repo.go:56-98 | Without a deadline the first try decides; with one, the first view that is new enough is returned, and a timeout only if there is none |
| `Projector.VersionedRepoStoresTheSame` | repo/version/repo.go:56-121 | Without a deadline, over every sequence of deliveries with their retries and whatever others do during each wait, the version-checking repository stores the same |
| `Projector.ReceivedIsDeliveries` | eventhandler/projector/eventhandler.go:177-346 | What the handler stores for a lone worker, over either repository, is what the deliveries stand for |
| `Projector.HandlerConverges` | eventhandler/projector/eventhandler.go:177-346 | So the handler converges, with or without retry, over either repository |
| `Projector.RetryHelps` | eventhandler/projector/eventhandler.go:255-283 | With the retry, an event that came too early is applied after all if its predecessors arrive during the wait; without it nothing is stored |
| `Projector.RemovedModelIsGone` | eventhandler/projector/eventhandler.go:333-343 | An event whose projection returns no model, delivered after all before it, leaves no model in the repository, with or without retry, over either repository |
| `Projector.ConvergesTo` | eventhandler/projector/eventhandler.go:245-332 | Deliveries that contain events 1..n in order, and no later ones, end at the projection of the first n |
| `Projector.WorkerRemoves` | eventhandler/projector/eventhandler.go:333-343 | With racing workers too, a worker that found the model one version behind such an event removes it |
| `Filter.FilterIsRead` | eventbus/gcp/eventbus.go:332-365 | The printed filter of a complete matcher parses, with no unparenthesised mix of AND and OR, to the matcher's expression |
| `Filter.FilterParsesIff` | eventbus/gcp/eventbus.go:332-365 | A printed filter parses if and only if every node is built in and non-empty |
| `Filter.FilterPreservesMeaning` | eventbus/gcp/eventbus.go:332-365 | On the published attributes, the parsed filter evaluates exactly to Match |
| `Filter.FilterAdmitsMatches` | matcher.go:24-77 | A filter lets through everything the matcher matches, also with the reserved name in the matcher |
| `Filter.HandledIffMatch` | eventbus/gcp/eventbus.go:305-327 | With the second check, an event is handled if and only if it matches, for empty and custom top-level matchers too |
| `Filter.UnfilteredIsHandled` | eventbus/gcp/eventbus.go:332-365 | An empty MatchAll receives every event, the other empty matchers none, and a matcher of another type what it says itself |
| `Filter.MatchNothing` | matcher.go:24-77 | Everything matches all of nothing, and nothing matches any of nothing |
| `Filter.MatchOneMore` | matcher.go:24-77 | One more alternative or one more condition: with the empty case, what every built-in matcher matches |
| `Filter.TypeText` | eventbus/gcp/eventbus.go:334-347 | The filter text of an event type and of an aggregate type |
| `Filter.TwoTypesText` | eventbus/gcp/eventbus.go:334-347 | Several types are joined with OR |
| `Filter.AnyText` | eventbus/gcp/eventbus.go:348-354 | Alternatives are parenthesised and joined with OR |
| `Filter.AllText` | eventbus/gcp/eventbus.go:355-361 | Conditions are parenthesised and joined with AND |
| `Filter.SubscribeIff` | eventbus/gcp/eventbus.go:202-205 | A subscription is refused exactly for a filter of 256 characters or more, or one with an incomplete part |
| `Filter.MatchersAgreeIff` | eventbus/gcp/eventbus.go:160-173 | Handling agrees with all matchers for an event if and only if its event type is not the reserved name or its aggregate type is empty |
| `Todo.FindItem` | examples/todomvc/backend/domains/todo/aggregate.go:78-84 | The search finds the first item of an ID, or none |
| `Todo.RemoveFirst` | examples/todomvc/backend/domains/todo/aggregate.go:176-181 | Exactly the first item of an ID is removed |
| `Todo.DescribeAll` | examples/todomvc/backend/domains/todo/aggregate.go:187-191 | Every item of the ID, and no other, gets the description |
| `Todo.CheckAll` | examples/todomvc/backend/domains/todo/aggregate.go:197-201 | Every item of the ID, and no other, gets the completed flag |
| `Todo.Aggregate.EmitRemovals` | examples/todomvc/backend/domains/todo/aggregate.go:91-98 | One removal for each completed item, in order |
| `Todo.Aggregate.EmitChecks` | examples/todomvc/backend/domains/todo/aggregate.go:137-146 | One check for each item that differs, in order |
| `Todo.Aggregate.HandleCommand` | examples/todomvc/backend/domains/todo/aggregate.go:53-151 | The loops emit exactly the decision on the state and change nothing else |
| `Todo.Aggregate.ApplyEvent` | examples/todomvc/backend/domains/todo/aggregate.go:155-206 | The edits in place compute the effect of the event; an invalid event changes nothing |
| `Todo.ApplyKeepsWellFormed` | examples/todomvc/backend/domains/todo/aggregate.go:161-201 | Item IDs stay distinct and below the next one |
| `Todo.RemoveCompletedItemsIsExact` | examples/todomvc/backend/domains/todo/aggregate.go:91-98 | Applying all events of RemoveCompletedItems leaves exactly the uncompleted items in order; repeating it emits nothing |
| `Todo.CheckAllItemsIsExact` | examples/todomvc/backend/domains/todo/aggregate.go:137-146 | Applying all events of CheckAllItems sets every item and changes nothing else; repeating it emits nothing |
| `TodoCommands.CheckItemIsExact` | examples/todomvc/backend/domains/todo/aggregate.go:118-136 | CheckItem sets exactly the item's flag and is refused exactly if there is no such item; repeating it emits nothing |
| `TodoCommands.SetItemDescriptionIsExact` | examples/todomvc/backend/domains/todo/aggregate.go:99-117 | SetItemDescription sets exactly the item's description and is refused exactly if there is no such item; repeating it emits nothing |
| `TodoCommands.RemoveItemIsExact` | examples/todomvc/backend/domains/todo/aggregate.go:77-90 | RemoveItem removes exactly the item and is refused exactly if there is none |
| `TodoCommands.AddItemIsExact` | examples/todomvc/backend/domains/todo/aggregate.go:72-76 | AddItem appends one uncompleted item with the description under the next ID |
| `TodoCommands.CreateIsExact` | examples/todomvc/backend/domains/todo/aggregate.go:68-69 | Create makes the list created and changes nothing else |
| `TodoCommands.DeleteIsExact` | examples/todomvc/backend/domains/todo/aggregate.go:70-71 | Delete makes it not created and changes nothing else |
| `TodoCommands.CreatedOrNot` | examples/todomvc/backend/domains/todo/aggregate.go:53-66 | A list is created once, and every other command needs it created |
| `TodoCommands.AddedItemTells` | examples/todomvc/backend/domains/todo/aggregate.go:161-171 | An added item keeps the ID of its event, and one more ID is used up |
| `TodoCommands.ApplyFailsIff` | examples/todomvc/backend/domains/todo/aggregate.go:155-206 | An event cannot be applied exactly if it is unknown or its data is of another type |
| `Todo.GoodLogsAreInductive` | examples/todomvc/backend/domains/todo/aggregate.go:53-151 | Every command keeps item IDs well formed, and a log starts with Created and repeats it only after Deleted |
| `Todo.ReachableTodosAreWellFormed` | examples/todomvc/backend/domains/todo/aggregate.go:53-206 | So for every log of todo list events in every reachable state of the concurrent system |
| `TodoReadModel.Model.ProjectEvent` | examples/todomvc/backend/domains/todo/projector.go:36-101 | The edits in place compute the projection; a failed or removing one leaves the model alone |
| `TodoReadModel.ListFollowsAggregate` | examples/todomvc/backend/domains/todo/projector.go:36-101 | Up to the first Deleted, the projected list has the aggregate's items in order and a version equal to the number of events |
| `TodoReadModel.StoredListShowsAggregate` | examples/todomvc/backend/domains/todo/projector.go:36-101 | With commands and projection workers racing, a stored list of version v shows the aggregate, a log of todo list events, after v of them |
| `TodoReadModel.DeletedListIsGone` | examples/todomvc/backend/domains/todo/projector.go:49-51 | Once the first Deleted is delivered in its turn, the list is gone from the repository |
| `TodoReadModel.ProjectTells` | examples/todomvc/backend/domains/todo/projector.go:43-96 | A projection removes the model exactly for Deleted, and fails exactly on data of the wrong type or an unknown event |
| `GuestList.InvitationAggregate.HandleCommand` | examples/guestlist/domains/guestlist/aggregate.go:66-135 | The method emits exactly the decision on the state |
| `GuestList.InvitationAggregate.ApplyEvent` | examples/guestlist/domains/guestlist/aggregate.go:138-157 | The edits in place compute the effect of the event |
| `GuestList.CreateInviteIsExact` | examples/guestlist/domains/guestlist/aggregate.go:68-76 | An invitation takes the name and age it is created with, and keeps the rest |
| `GuestList.AcceptInviteIsExact` | examples/guestlist/domains/guestlist/aggregate.go:78-92 | An existing invitation is accepted unless it was declined; accepting again emits nothing |
| `GuestList.DeclineInviteIsExact` | examples/guestlist/domains/guestlist/aggregate.go:94-108 | An existing invitation is declined unless it was accepted; declining again emits nothing |
| `GuestList.AnswersAreExact` | examples/guestlist/domains/guestlist/aggregate.go:110-132 | Exactly an accepted invitation can be confirmed or denied, which sets that and nothing else |
| `GuestList.ApplyIgnores` | examples/guestlist/domains/guestlist/aggregate.go:138-157 | Unknown events and creations without data change nothing |
| `GuestList.AnsweredOnce` | examples/guestlist/domains/guestlist/aggregate.go:78-132 | In every reachable state no log of invitation events holds both accepted and declined, either at most once, and confirmed or denied only with accepted |
| `GuestList.ResponseSaga.RunSaga` | examples/guestlist/domains/guestlist/saga.go:51-79 | One call is one reaction of the saga, keeping the guest map |
| `GuestList.GuestLimitHolds` | examples/guestlist/domains/guestlist/saga.go:51-79 | Over every sequence of notices with duplicates, at most the limit is confirmed, each guest once, nobody is both confirmed and denied, and denials come only when full |
| `GuestList.EveryAcceptanceIsAnswered` | examples/guestlist/domains/guestlist/saga.go:51-79 | Every acceptance leads to a confirmation or a denial |
| `GuestList.OrdersAnswerAcceptances` | examples/guestlist/domains/guestlist/saga.go:51-53 | The saga orders nothing but answers to acceptances |
| `GuestList.RoomLeftConfirms` | examples/guestlist/domains/guestlist/saga.go:67-75 | While there is room, a guest who accepts for the first time is confirmed |
| `GuestList.ConfirmedWasRequested` | examples/guestlist/domains/guestlist/aggregate.go:110-120 | In every reachable state, confirmed events come only from committed commands to confirm |
| `GuestList.AtMostLimitConfirmed` | examples/guestlist/domains/guestlist/saga.go:51-79 | If only the saga issues commands to confirm, at most the limit of invitation logs hold confirmed, in every reachable state |
| `GuestRaces.UndividedCallIsReact` | examples/guestlist/domains/guestlist/saga.go:54-75 | Lookup, comparison and insertion together, undivided, are one call |
| `GuestRaces.OverlapIsBounded` | examples/guestlist/domains/guestlist/saga.go:54-71 | Over every run of divided calls with at most m under way, fewer than limit + m guests are let in |
| `GuestRaces.OverlapReachesBound` | examples/guestlist/domains/guestlist/saga.go:60-71 | For every positive limit and m there is a run that lets in limit + m - 1 guests |
| `GuestRaces.LimitHoldsIff` | examples/guestlist/domains/guestlist/saga.go:60-71 | For every limit, it holds over all runs with at most m overlapping calls if and only if m is at most one or the limit lets nobody in |
| `GuestRaces.OwnCallsAnswerOnce` | examples/guestlist/domains/guestlist/saga.go:54-75 | If calls for one guest do not overlap, then over every run, however others overlap, each guest is confirmed once and never both confirmed and denied |
| `GuestRaces.ConfirmedOnceIff` | examples/guestlist/domains/guestlist/saga.go:54-75 | Each guest is confirmed once over all runs with at most m calls per guest, if and only if m is at most one or nobody is let in |
| `GuestRaces.NeverBothIff` | examples/guestlist/domains/guestlist/saga.go:54-75 | And the same for nobody being both confirmed and denied |
| `Scheduler.LoadLoop` | middleware/commandhandler/scheduler/middleware.go:135-157 | Load fills the queue in order and fails exactly when something is left over |
| `Scheduler.SchedulerIsDurable` | middleware/commandhandler/scheduler/middleware.go:135-358 | Over every run of scheduling, also under used IDs, full queues, firing, cancelling, stop, start, load and loss of the process, each saved ID is stored, or was called, or its cancellation was taken, and no call is early |
| `Scheduler.NoCommandIsLost` | middleware/commandhandler/scheduler/middleware.go:197-241 | In every run, a command whose ID is used for no other is itself stored, called or cancelled |
| `Scheduler.CommandsAreLostIff` | middleware/commandhandler/scheduler/middleware.go:207-228 | A run can lose one of two commands if and only if they are different ones with the same ID |
| `Scheduler.StoppedIsQuiet` | middleware/commandhandler/scheduler/middleware.go:174-180 | When Stop returns no command is in flight and every unfinished one can be loaded again |
| `Scheduler.CanceledWasAsked` | middleware/commandhandler/scheduler/middleware.go:280-292 | Over every run, a cancellation is taken only for an ID whose cancellation was asked for |
| `Scheduler.CancelReachesOne` | middleware/commandhandler/scheduler/middleware.go:280-292 | Cancelling an ID lets exactly the goroutine registered for it take the cancellation |
| `Scheduler.CancelOtherwise` | middleware/commandhandler/scheduler/middleware.go:284-289 | Without a registered goroutine nothing is cancelled; cancelling twice takes the process down |
| `Scheduler.ScheduleTells` | middleware/commandhandler/scheduler/middleware.go:215-238 | A saved command is stored under its ID and queued if there is room; a failed save leaves no trace |
| `Scheduler.DequeueTells` | middleware/commandhandler/scheduler/middleware.go:302-310 | The loop takes the first command, in a new goroutine with an open cancel channel registered for its ID |
| `Scheduler.FireTells` | middleware/commandhandler/scheduler/middleware.go:313-320 | At its time and not before, a waiting goroutine calls its handler, once |
| `Scheduler.TakeCancelTells` | middleware/commandhandler/scheduler/middleware.go:336-349 | A cancelled goroutine calls nothing |
| `Scheduler.FinishTells` | middleware/commandhandler/scheduler/middleware.go:329-343 | A finished goroutine removes its own command and no other |
| `Scheduler.AbandonTells` | middleware/commandhandler/scheduler/middleware.go:317-318 | A goroutine stopped while it waits leaves the stored command |
| `Scheduler.StopTells` | middleware/commandhandler/scheduler/middleware.go:160-180 | Stop returns exactly when requested, the loop is over and no goroutine is left; then the scheduler can start again |
| `Scheduler.LoadTells` | middleware/commandhandler/scheduler/middleware.go:135-157 | Load queues the stored commands in order, as far as there is room |
| `Scheduler.CalledAtMostAsSaved` | middleware/commandhandler/scheduler/middleware.go:294-358 | Unless commands are loaded again, an ID is called and cancelled no more often than it was saved; saved once, it is called at most once and never both |
| `CachedRepo.StepRefines` | repo/cache/repo.go:65-132 | One operation, failing or not, does to index, map and cache what it does to an ordered map |
| `CachedRepo.RepoIsOrderedMap` | repo/memory/repo.go:70-204 | Every sequence of operations gives the answers of a plain ordered map; the index lists the keys without duplicates in first-save order and cached entries equal stored ones |
| `CachedRepo.FindTells` | repo/memory/repo.go:70-103 | In the ordered map, Find answers with the entity of the ID, or fails when there is none or no factory |
| `CachedRepo.SaveTells` | repo/memory/repo.go:137-174 | A saved entity is found again, in the place of the one it replaces or at the end; the others stay |
| `CachedRepo.SaveFails` | repo/memory/repo.go:137-152 | Saving without a factory or an ID fails and changes nothing |
| `CachedRepo.RemoveTells` | repo/memory/repo.go:177-204 | A removed entity is not found any more and the others stay in order; a missing one is an error |
| `CachedRepo.CacheTells` | repo/cache/repo.go:65-132 | Finding caches the entity; saving, removing and events bust exactly the one |
| `CachedRepo.FindAllFills` | repo/cache/repo.go:98-112 | FindAll caches everything it returns |
| `CachedRepo.FindIndex` | repo/memory/repo.go:184-192 | The search of Remove finds the index of the ID |
| `CachedRepo.MemoryRepo.FindAll` | repo/memory/repo.go:106-134 | The loop collects the stored entities in index order |
| `CachedRepo.MemoryRepo.Save` | repo/memory/repo.go:137-174 | Save replaces an entity in place or appends it to the index, or fails and changes nothing |
| `CachedRepo.MemoryRepo.Remove` | repo/memory/repo.go:177-204 | Remove takes the entity from map and index, or fails and changes nothing |
| `CachedRepo.CacheRepo.HandleEvent` | repo/cache/repo.go:65-71 | An event busts the cached entity |
| `CachedRepo.CacheRepo.Find` | repo/cache/repo.go:74-95 | Find answers from the cache or fills it |
| `CachedRepo.CacheRepo.FindAll` | repo/cache/repo.go:98-112 | FindAll caches every entity it returns |
| `CachedRepo.CacheRepo.Save` | repo/cache/repo.go:115-122 | Save busts the cache and saves, whatever the outcome |
| `CachedRepo.CacheRepo.Remove` | repo/cache/repo.go:125-132 | Remove busts the cache and removes, whatever the outcome |
| `CacheRaces.UndividedCallIsDo` | repo/cache/repo.go:65-132 | The critical sections of one call after another are the operation of the sequential model |
| `CacheRaces.DisjointIsCoherent` | repo/cache/repo.go:74-132 | With any number of callers whose reads and writes of an entity do not overlap, every cached entity equals the stored one in every state |
| `CacheRaces.CoherentIffDisjoint` | repo/cache/repo.go:74-132 | Among any other calls, a Find or FindAll against a Save or Remove that changes the entity leaves the cache right if and only if reading and caching end before the bust or begin after the write |
| `CacheRaces.OverlappingFindCachesStale` | repo/cache/repo.go:85-121 | The two ways to overlap, a late caching and a whole Find between bust and write, both leave the old entity in the cache |

## Left out

- MongoDB, Kafka, NATS, Redis, Pub/Sub and websocket clients, indexes, connections and codecs: foreign I/O, modelled by its effect.
- The after-save event handler of the event store (`eventstore/mongodb_v2/eventstore.go:356-366`): a loop of calls without state.
- Timestamps of events, streams and snapshots; the snapshot strategy is any function of versions and a clock, so the period strategy is an instance.
- The order of events from the database without the sorting option: the model reads in insertion order, which is shown to be version order.
- Maintenance (Replace, RenameEvent) is proved to keep the log's shape, not serializability or snapshots, which a changed event contradicts by intent.
- EventStore.Clear, the in-memory event store and the first MongoDB event store: they do not follow the protocol modelled here.
- The loop of the in-memory sweep over its map, which under its lock is a sequence of the steps modelled.
- Projector options for irregular versioning and entity lookup, and models without a version, for which the handler checks nothing.
- Escapes inside quoted names of a filter: names are taken to contain no quote, and lengths are counted in characters, not bytes.
- Starting a scheduler that is already started, which the code does not guard against and which runs two loops; blocking of its error channel.
- Liveness: that workers, sweeps, timers and retries eventually happen.
- Namespaces, tracing, the recorder and registries: wrappers that pass calls on or look names up, so their contracts would repeat the calls.
- HTTP handlers, the asynchronous, validating, observing and ephemeral middleware, and command checking: each is one branch around a call modelled here.
