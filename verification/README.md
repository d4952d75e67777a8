# ChargeGuard service core: a Dafny model

A model of the parts of ChargeGuard where several commits, callers or crashes meet, with proofs
of what each part guarantees. Every table is a map, every save or transaction one atomic step,
and crashes and other callers fall between steps.

- `EventLog`, `Subscription`, `BusModel`, `EventBus`: the event table, the streaming handler and
  the bus object. `Delivery` interleaves their steps as a protocol (append, push and evict are
  separate, as are opening, registering, reading the page, each send, leaving and unregistering;
  the process may restart anywhere). `Frames` says what each kind of step may change.
  `DeliveryGuarantees`, `OrderedDelivery`, `Checkpoints` and `Evictions` hold the theorems,
  `DeliveryLimits` and the end of `Evictions` runs that show why hypotheses are needed. `PushLoops`
  takes a push apart into its sends.
- `BatchModel`, `BatchSaga`, `BatchOutcome`, `BatchCrashes`, `BatchService`: processing a batch as a
  list of writes, whose prefixes are the crashes; the theorems about whole calls, what one call
  leaves in full, calls killed anywhere, and the service object that makes those writes.
- `DispositionModel`, `DispositionRaces`, `DispositionExecution`, `DispositionService`: requests and
  the index of active ones, with whole calls atomic, with calls split into reads and stale saves,
  with executions stopped between commits, and as the service object.
- `ShardLog`, `Recovery`, `RecoveryHistory`, `ShardStore`: framing of shard files, replay of their
  records, what histories of live writes leave in them, and the store object down to bytes.
- `HazardWorkflow`: clients that read a hazard, check the guards on their copy and commit by
  compare-and-swap; the store and service objects.
- `Auth`: the session cache in front of the session table, and the service object.

Each class follows the source object: its methods update its fields, and their contracts equate the
new state with a function of the old one. The theorems are about those functions, over every
sequence of steps.

## Reading notes

- A run is described by independent conditions: events pushed in the order of the log (`Ordered`)
  or publications that do not overlap at all (`Serial`), Last-Event-ID headers that name an event
  really sent (`Honest`), with a backlog of at most a page besides (`Careful`), and sessions of one
  subscriber that do not overlap (`Exclusive`). Each theorem asks only for those it needs. A starting
  id beyond the log needs no hypothesis.
- `Delivery` offers an event to all channels in one step, while the loop of a publication
  (`internal/service/eventbus.go:66-75`) holds only the read lock: the loops of several publications
  and any receive may interleave channel by channel. Registering, unregistering and evicting need the
  write lock, so within such a tangle the map does not change and a subscriber has one channel that
  loops offer to. By `LoopsAreWholePushes` that channel cannot tell the tangle from whole pushes made
  when each loop reaches it. So for one subscriber at a time there is a run of `Delivery` in which its
  sessions take, send, save and are evicted exactly as in the finer run, and every theorem about a
  session or a subscriber carries over.
- What fails without a condition has its exact condition beside it: lost events under overlapping
  publications (`LiveSentExactly`, `GapFreeInAnyRun`), falling checkpoints
  (`CheckpointNeverFallsExactly`), channels closed without eviction (`ClosedExactlyWhenShut`), stale saves (`AgreementExactlyWhenTimely`),
  changing assignees (`FixedExactlyWhen`), orphaned sessions (`CacheRefinesTable`), events a checkpoint
  leaves out (`UnsentExactly`), batches that cannot be resumed (`RerunExactly`), mails that a completed
  batch leaves behind (`CompletionLeavesExactlyTheStranded`, `KillStrandsExactly`).
- The checkpoint is written under the request context that has just been cancelled
  (`internal/service/subscription.go:93-95`), so the model lets that write land or not; no
  guarantee needs it to land.
- The scheduler moves `rolled_back` to `pending` (`internal/scheduler/tasks.go:80-81`), which is not
  an edge of the batch machine (`internal/domain/entities.go:147-153`). The model follows the scheduler.
- The repository's own README says a failed re-inspection sends a hazard back as rejected. No service
  operation does, and `RanksClimb` shows that no such state is reachable. It also says an operator can
  rectify only what is assigned to them; the code also lets an operator take an
  unassigned hazard. The accounts that the program creates all have identifiers, as
  `RectifiedAssigneeNeverChanges` asks; the table does not enforce it.
- Shards whose identifier has no route are listed under `.jsonl` but looked for under
  `.jsonl.jsonl` (`internal/storage/recovery.go:57-61`), so recovery reports them damaged; if the same
  date has a shard whose route is `.jsonl`, its file is replayed twice instead and nothing is reported.
- Identifiers that the program generates are parameters, required to be new where a run relies on it.
  A clock is kept only where sessions expire. JSON is an encoder and a decoder assumed to be inverse,
  with newline-free output; the password hash is an arbitrary function.

## Model

| member | source | states |
|---|---|---|
| `EventLog.EventsAfterMeaning` | internal/storage/sqlite_event_sub.go:30-55 | The replay query returns logged events past the given id, oldest first and as logged, and leaves one out only when the page of 100, or of the limit given up to 1000, is full, and then only behind everything returned |
| `EventLog.EventRepo.Append` | internal/storage/sqlite_event_sub.go:15-28 | Appending gives the next id and keeps every earlier event |
| `EventLog.EventRepo.ListAfter` | internal/storage/sqlite_event_sub.go:30-55 | The scan of the table, limit clamping included, returns the page that `EventsAfterMeaning` describes |
| `Subscription.SubscriberRepo.UpdateCheckpoint` | internal/storage/sqlite_event_sub.go:109-117 | Only the row of a stored subscriber changes; the statement may be cut off by the cancelled context |
| `Subscription.EnsureSubscriber` | internal/service/subscription.go:30-47 | A known subscriber keeps its checkpoint whatever the request asks for; a new one without an identifier is given one |
| `Subscription.ReceivedThen` | internal/service/subscription.go:91-108 | Whatever events the select yields before a signal that ends the session are its arrivals, and that signal its ending |
| `Subscription.HandleSSE` | internal/service/subscription.go:49-125 | A known subscriber gets the events that follow the later of its checkpoint and the id in its header, at most 500 and cut short only by a cancellation, then each arrival newer than that and than all before it; only a client that goes away leaves a checkpoint, the newest id of all |
| `Subscription.OutcomeStreams` | internal/service/subscription.go:80-125 | The same holds of the outcome with which `SessionsAreHandled` compares the sessions of every run |
| `Subscription.FollowClimbs` | internal/service/subscription.go:90-106 | Live ids climb strictly past the starting point and come only from the channel, whatever is pushed |
| `Subscription.FollowReachesMaximum` | internal/service/subscription.go:93-105 | The checkpoint written is the largest id among the start and all arrivals |
| `Subscription.SentIffNewest` | internal/service/subscription.go:102-106 | An arriving event is dropped exactly when its id does not exceed the start and every earlier arrival |
| `Subscription.AtMostTwice` | internal/service/subscription.go:87-106 | One client sees an event at most twice, and twice exactly when it was both on the page and sent live |
| `BusModel.PublishReachesAll` | internal/service/eventbus.go:60-87 | After an uninterrupted publication the remaining subscribers are exactly those that had room, with the event last in their queues; a full one is closed without it |
| `BusModel.MappedIsOpen` | internal/service/eventbus.go:16-58 | A subscriber in the map always has an open channel of its own, so closing it cannot close twice |
| `EventBus.SubscriberChannel.TrySend` | internal/service/eventbus.go:68-74 | The non-blocking send refuses exactly when 256 events wait |
| `EventBus.SubscriberChannel.CloseDone` | internal/service/eventbus.go:38-41 | Closing demands an open Done; every caller proves it |
| `EventBus.EventBus.Register` | internal/service/eventbus.go:35-49 | The object takes exactly the locked step of the bus value: the previous channel of this subscriber is closed and replaced |
| `EventBus.EventBus.Unregister` | internal/service/eventbus.go:51-58 | Removes and closes whatever channel the subscriber has at that moment |
| `EventBus.EventBus.PushAll` | internal/service/eventbus.go:66-75 | The loop over the map, in any order, offers the event to every current channel and collects exactly the full ones |
| `EventBus.EventBus.EvictAll` | internal/service/eventbus.go:76-85 | Drops the channels the collected subscribers have by then, skipping those already gone |
| `EventBus.EventBus.Deliver` | internal/service/subscription.go:102 | Receiving takes the head of the session's own channel and nothing else |
| `PushLoops.LoopsAreWholePushes` | internal/service/eventbus.go:66-75 | However the channel-by-channel loops of several publications and any receives interleave, what one channel accepts, what is taken from it and which events it refuses are those of whole pushes, each made when its loop reaches that channel |
| `PushLoops.LoneLoopIsPush` | internal/service/eventbus.go:66-75 | One loop that nothing interrupts is a whole push, whatever the order in which the map is visited |
| `PushLoops.RefusedIsListed` | internal/service/eventbus.go:69-74 | A push lists for eviction exactly the subscribers whose current channel refuses the event |
| `EventBus.EventBus.ReplayAfter` | internal/service/eventbus.go:95-97 | The page that `EventsAfterMeaning` describes, of the table behind the bus; the handler replays it |
| `EventBus.EventBus.Publish` | internal/service/eventbus.go:60-87 | Append, push and evict together are the publication of `PublishReachesAll` |
| `Delivery.SoundRun` | internal/service/subscription.go:72-108 | Under every interleaving of the bus's locked sections, session steps and restarts of the process, a channel is in the map exactly while its Done is open, queues stay within 256, and each session has sent a part of its page followed by the response to what it took |
| `Delivery.OpenStartsAtTheLater` | internal/service/subscription.go:80-86 | A session opens at its checkpoint or at the id its client names, whichever is later, with nothing sent |
| `Frames.LeavesExactlyWhen` | internal/service/subscription.go:90-101 | A running session leaves exactly when its client goes away after it registered, or when, live, it finds its Done closed |
| `Delivery.NoThirdCopy` | internal/service/subscription.go:87-125 | In every run no session sends an event three times; a second copy needs the event on the page and in the queue after registering |
| `Delivery.LiveSentExactly` | internal/service/subscription.go:102-125 | In every run, publications overlapping or not, a live session has sent an event exactly when it is on its page, or was taken newer than the start and than all taken before it |
| `Delivery.SessionsAreHandled` | internal/service/subscription.go:66-125 | In every run what a session has sent, and the checkpoint it writes if its client now leaves, are those of `HandleSSE` for the page it read and the events it took |
| `DeliveryGuarantees.InStepRun` | internal/service/eventbus.go:60-87 | While publications do not overlap, every channel has accepted an unbroken stretch of the log since registering, up to the last pushed event unless it is being evicted |
| `DeliveryGuarantees.GapFreeDelivery` | internal/service/subscription.go:72-125 | For a registered session with an open channel that is not about to be evicted, every logged event past its start is sent, still to be replayed, queued or not yet pushed, if and only if at most 500 such events had been pushed when it registered |
| `OrderedDelivery.InOrderRun` | internal/service/eventbus.go:60-87 | When an event is pushed only after every lower logged one, with appends and evictions overlapping freely, an open channel that no unfinished publication lists for eviction has accepted exactly the events pushed since its session registered |
| `OrderedDelivery.OrderedGapFree` | internal/service/subscription.go:72-125 | Under that condition on publishers alone, a registered session with an open channel that no unfinished publication lists has no gap if and only if at most 500 events past its start had been pushed when it registered |
| `OrderedDelivery.SerialIsOrdered` | internal/service/eventbus.go:60-87 | Publications that do not overlap push in that order |
| `DeliveryGuarantees.GapFreeInAnyRun` | internal/service/subscription.go:72-125 | In every run, publications overlapping or not, a live session has no gap exactly when each event past its start is on its page, was taken as the newest, is queued or is not yet pushed |
| `DeliveryGuarantees.GapFreeInFull` | internal/service/subscription.go:72-125 | For any registered session whose channel accepted an unbroken stretch of the log, evicted or not: no gap exactly when its page reaches everything pushed, or its backlog was small and its channel has accepted everything pushed since |
| `DeliveryGuarantees.NothingInFlightNothingMissing` | internal/service/eventbus.go:60-87 | Between publications every registered channel has accepted everything logged since it registered |
| `Checkpoints.SentUnlessSkipped` | internal/service/subscription.go:79-106 | While publications do not overlap, a session has sent exactly the events it got past, except those beyond its replay page that had been pushed before it registered |
| `Checkpoints.UnsentExactly` | internal/service/subscription.go:67-106 | Over every run without overlapping publications and with honest headers, across disconnects, evictions, replaced sessions and restarts: some session got past each event between a subscriber's initial and stored checkpoint, and such an event was never sent exactly if it lay beyond the 500-event page, and not above the base, of every session that got past it |
| `Checkpoints.CheckpointsAccountForEverything` | internal/service/subscription.go:80-101 | If moreover every session registers with at most a page of backlog, every event between a subscriber's initial and stored checkpoint was sent to it in some session |
| `Checkpoints.CheckpointsNeverFall` | internal/service/subscription.go:93-95 | When one subscriber's sessions do not overlap its stored checkpoint never decreases, however publications interleave |
| `Checkpoints.LoweredExactly` | internal/service/subscription.go:93-95 | In any state a step lowers a stored checkpoint exactly when a live session of that subscriber leaves from behind it and its write lands |
| `Checkpoints.CheckpointNeverFallsExactly` | internal/service/subscription.go:80-95 | In every run, overlapping sessions included, a stored checkpoint never decreases if and only if no session writes from behind it |
| `Checkpoints.ExclusiveIsNeverBehind` | internal/service/subscription.go:80-95 | Sessions that do not overlap meet that condition |
| `Evictions.ShutExactly` | internal/service/eventbus.go:35-87 | The open channel of a session that has not left is closed by exactly three steps: an eviction that lists its subscriber, another session of the subscriber registering, or one that had left unregistering late |
| `Evictions.ClosedExactlyWhenShut` | internal/service/eventbus.go:35-87 | Over every run, a registered session that has not left finds its channel closed exactly when one of those steps occurred |
| `Evictions.ClosedOnlyByEviction` | internal/service/eventbus.go:35-87 | When a subscriber's sessions do not overlap, its channel is closed exactly when it was evicted |
| `Evictions.EvictedOrGapFree` | internal/service/subscription.go:72-125 | With pushes in the order of the log and no overlapping sessions of a subscriber, a registered session that has not left was evicted, is on the list of an unfinished publication, or has no gap exactly if its backlog was at most a page |
| `Evictions.LateUnregisterLosesAnEvent` | internal/service/subscription.go:73 | A run from the start where a live session with no backlog, never evicted, is closed by its predecessor's late unregistering and misses the only event |
| `DeliveryLimits.OverlappingPublicationsLoseAnEvent` | internal/service/subscription.go:102-106 | Two overlapping publications pushed out of id order make a live session drop the older event for good: it was taken, but not newest, as `LiveSentExactly` demands |
| `DeliveryLimits.OverlappingSessionsLowerTheCheckpoint` | internal/service/subscription.go:67-95 | An older overlapping session that leaves last writes the checkpoint backwards |
| `DeliveryLimits.StaleUnregisterClosesSuccessor` | internal/service/subscription.go:73 | A replaced session that unregisters closes its successor's channel |
| `BatchModel.ForwardIs` | internal/service/batch.go:94-110 | The forward loop over any listing has an outcome that mentions only the set of items: each mail arrives, one version later per item naming it, each item is succeeded or failed |
| `BatchModel.CompensateIs` | internal/service/batch.go:123-131 | The compensation loop sends each mail of a processed item back once and marks exactly the processed items rolled back |
| `BatchSaga.AttemptIs` | internal/service/batch.go:74-150 | The writes of a whole call, in order, amount to an outcome described without any order |
| `BatchOutcome.AttemptInFull` | internal/service/batch.go:74-177 | Every item, mail and batch record after a whole call, told by what it found: state, version, error and counts, completed or rolled back |
| `BatchOutcome.BatchRecordSaves` | internal/service/batch.go:83-148 | The record is saved as processing first, and last as succeeded and then completed, or as rolled back, with these counts and versions |
| `BatchOutcome.CreatesItems` | internal/service/batch.go:56-70 | Creation stores one pending item for each mail before the first missing one, and nothing else |
| `BatchSaga.OrderDoesNotMatter` | internal/storage/sqlite_batch_ledger.go:73-77 | Any two listings of a batch's items give the same mails with versions, items and batch record |
| `BatchSaga.RolledBackMail` | internal/service/batch.go:124-131 | A rolled-back attempt leaves each mail it touched in transit, one version later per processed item and one for the compensation |
| `BatchSaga.RollbackRestoresExactly` | internal/service/batch.go:165-177 | A rolled-back attempt leaves every mail state as found if and only if no item still to be processed names an arrived mail, however many items share a mail |
| `BatchSaga.RollbackUndoesOnlyItsOwn` | internal/service/batch.go:92-131 | A failing retry leaves succeeded exactly the items that were succeeded before it |
| `BatchSaga.AttemptCounts` | internal/service/batch.go:111-147 | A rolled-back attempt counts as failed exactly the items whose mail was missing or could not be processed, and all others as succeeded; a completed one keeps an earlier failure count |
| `BatchSaga.StatesAgreeForever` | internal/service/batch.go:74-150 | Over any run of creations, complete calls, requeues and outside mail changes, an item is stored as succeeded exactly when its batch is completed |
| `BatchSaga.RecoversFromCrashes` | internal/service/batch.go:79-121 | Kill processing any number of times before the batch is saved as succeeded; one call run to the end completes it with all items succeeded and all mails arrived |
| `BatchSaga.CrashBeforeCompletionIsFinal` | internal/service/batch.go:111-119 | Killed between its last two saves, a batch is stored as succeeded: the next call is refused and a requeue leaves it alone |
| `BatchCrashes.SucceededIsForever` | internal/service/batch.go:74-86 | From there no run of creations, calls, requeues and mail changes ever touches that batch record again |
| `BatchCrashes.CompletionLeavesExactlyTheStranded` | internal/service/batch.go:94-121 | A call that completes the batch leaves the mail of an item not arrived exactly if, when it began, that item was stored as succeeded, its mail had not arrived, and no item still to be processed names that mail |
| `BatchCrashes.KillStrandsExactly` | internal/service/batch.go:92-150 | Kill a call after any number of writes, the compensation loop included, in a store where no item is stranded so: stranded are then exactly the items on the mail that the very last write sent back, if it sent one back |
| `BatchCrashes.FirstKillStrandsExactly` | internal/service/batch.go:74-150 | So for one killed call after any run of whole calls from the empty store, where nothing is stranded before it |
| `BatchCrashes.KilledCompensationLeavesAMailBehind` | internal/service/batch.go:123-131 | From the empty store: a call killed between sending a mail back and saving its item; a later call completes the batch with that mail still in transit |
| `BatchSaga.RerunExactly` | internal/service/batch.go:79-121 | A killed call can be made again if and only if it was killed before the batch was saved as succeeded; otherwise the batch stays succeeded or completed |
| `BatchSaga.RequeueLeavesTheMachine` | internal/scheduler/tasks.go:79-86 | A requeue that changes a batch takes no edge of the batch machine, and lets the same calls through as before |
| `BatchService.BatchService.ListItems` | internal/storage/sqlite_batch_ledger.go:73-77 | Every item of the batch once, in some order, with a copy of each record |
| `BatchService.BatchService.ProcessItem` | internal/service/batch.go:152-163 | A mail in transit or arrived is saved as arrived; any other is reported with the reason and nothing is written |
| `BatchService.BatchService.ForwardAll` | internal/service/batch.go:92-110 | The loop makes exactly the writes of the forward loop, and leaves in memory what is stored |
| `BatchService.BatchService.CompensateItem` | internal/service/batch.go:165-177 | Only an arrived mail is sent back |
| `BatchService.BatchService.CompensateAll` | internal/service/batch.go:123-131 | The loop makes exactly the compensating writes, through freshly fetched items |
| `BatchService.BatchService.Count` | internal/service/batch.go:132-141 | Counts the records in memory, which compensation did not touch |
| `BatchService.BatchService.ProcessBatch` | internal/service/batch.go:74-150 | Refused exactly for an unknown, succeeded or completed batch, without a write; any other call makes exactly the writes of `BatchSaga.Attempt` over some listing, leaves what `AttemptInFull` says, and returns the stored record |
| `BatchService.BatchService.CreateBatch` | internal/service/batch.go:33-72 | Stores the batch with its vehicle, date, route and count, a pending item for each mail before the first missing one, and reports that one |
| `BatchService.BatchService.RequeueRolledBack` | internal/scheduler/tasks.go:69-90 | Exactly the rolled-back batches become pending, one version later; all else stays |
| `DispositionModel.SaveKeepsAgreement` | internal/storage/sqlite_disposition.go:39-54 | A save keeps the index in full agreement with the rows if and only if the request is inactive, or its mail is free or indexed for that very request |
| `DispositionModel.AgreementForever` | internal/service/disposition.go:36-227 | Over any run of whole calls, executions stopped after any commit included, the index maps a mail to a request exactly when that request names the mail and is active |
| `DispositionModel.AtMostOneActive` | internal/storage/sqlite_disposition.go:86-98 | So a mail has at most one active request |
| `DispositionModel.JoinAnswersExactly` | internal/storage/sqlite_disposition.go:108-130 | The join of index and rows answers exactly the active requests of a mail |
| `DispositionModel.SubmissionLosesExactly` | internal/service/disposition.go:59-77 | An accepted submission is lost exactly if a stored request for its mail is pending, under review, issued or executing |
| `DispositionModel.FirstSubmissionWins` | internal/service/disposition.go:59-89 | Of any submissions on any mails exactly those are pending that find their mail free and are the first accepted for it; every other accepted one is lost |
| `DispositionRaces.SoundForever` | internal/service/disposition.go:99-227 | With every call split into reads and possibly stale saves, interleaved arbitrarily, each index entry still points at an active request for its mail |
| `DispositionRaces.UninterruptedSave` | internal/service/disposition.go:99-164 | A review or withdrawal that nothing interrupts is the atomic call |
| `DispositionRaces.UninterruptedExecution` | internal/service/disposition.go:179-219 | So is an execution, through all its accesses and however it ends |
| `DispositionRaces.LostOnlyToARival` | internal/service/disposition.go:59-77 | A submission is answered lost only while an active rival exists |
| `DispositionRaces.StepKeepsAgreementIff` | internal/service/disposition.go:99-227 | One interleaved step keeps full agreement exactly when what it saves is timely |
| `DispositionRaces.AgreementExactlyWhenTimely` | internal/service/disposition.go:99-227 | An interleaving agrees throughout exactly when every active request it saves finds its mail free or indexed for that request |
| `DispositionRaces.CurrentCopiesAreTimely` | internal/service/disposition.go:99-227 | A caller whose copy is current always saves in time |
| `DispositionRaces.StaleApprovalLeavesTwoActive` | internal/service/disposition.go:99-134 | Two reviewers, one withdrawal, one rival: the stale approval leaves two active requests for one mail, one of them unindexed |
| `DispositionExecution.ExecuteSurvivesCrashes` | internal/service/disposition.go:179-219 | Stopped any number of times after at most two of its three commits, with any calls on other requests and mails between, execution ends with the same mail and completed request as uninterrupted, up to versions |
| `DispositionExecution.ExecutionCarriesOut` | internal/service/disposition.go:179-219 | An uninterrupted execution does to the mail what its kind says, to no other mail anything, and completes the request two versions later |
| `DispositionExecution.RivalsLose` | internal/service/disposition.go:179-219 | Meanwhile every accepted rival submission for that mail is lost |
| `DispositionExecution.CompletedStays` | internal/service/disposition.go:184-186 | After the last commit, executing again is refused and changes nothing |
| `DispositionExecution.CompletionFreesTheMail` | internal/service/disposition.go:208-213 | Completion frees the mail: the next valid submission for it is pending |
| `DispositionService.DispositionService.Save` | internal/storage/sqlite_disposition.go:23-54 | Row and index entry change together, or, on a number another request has, not at all |
| `DispositionService.DispositionService.CountActiveByMail` | internal/storage/sqlite_disposition.go:100-106 | The number of index entries of the mail |
| `DispositionService.DispositionService.Submit` | internal/service/disposition.go:36-90 | Every column of the stored request: the number given or generated, the mail's own number, kind and target as asked, pending if no request for the mail is indexed and otherwise lost with the reason; each error exactly when it applies, without a change |
| `DispositionService.DispositionService.Review` | internal/service/disposition.go:99-134 | An approval issues and a rejection rejects a pending or reviewed request, with reviewer, note and, on approval, issuer; any other state or decision is refused without a change |
| `DispositionService.DispositionService.Withdraw` | internal/service/disposition.go:142-164 | A pending, issued, executing or withdrawn request is withdrawn with actor and reason; any other is refused without a change |
| `DispositionService.DispositionService.Execute` | internal/service/disposition.go:179-227 | On success the mail is intercepted, redirected to the target if there is one, or returned, as the kind says, with the request's mark and one more version, no other mail changes, and the request is completed; a missing mail leaves it executing; the commits are those that `ExecuteSurvivesCrashes` cuts short |
| `DispositionService.DispositionService.GetActiveByMail` | internal/storage/sqlite_disposition.go:108-130 | Returns the requests the index names for the mail |
| `ShardLog.PiecesJoin` | internal/storage/recovery.go:199-214 | Cutting at newlines and joining with newlines gives the file back |
| `ShardLog.JoinPieces` | internal/storage/recovery.go:199-214 | Joining newline-free pieces and cutting gives the pieces back |
| `ShardLog.SplitLines` | internal/storage/recovery.go:199-214 | The index loop returns exactly the non-empty pieces |
| `ShardLog.CountLines` | internal/storage/shard.go:112-123 | The counting loop counts all lines, a last unterminated one included |
| `ShardLog.CountSeesEmptyLines` | internal/storage/shard.go:112-123 | For arbitrary bytes the two counts differ by the number of empty lines |
| `ShardLog.FramingRoundTrip` | internal/storage/shard.go:33-60 | Splitting what was appended gives exactly the records if and only if each is one non-empty line |
| `ShardLog.TornAppend` | internal/storage/shard.go:52-58 | A file cut short in its last append yields every whole record and then the torn one |
| `ShardLog.TornRecordSpoilsOne` | internal/storage/shard.go:52-58 | A torn append spoils only the next record, to which it is glued |
| `ShardLog.Split` | internal/domain/support.go:60-67 | The loop cuts at the first underscore |
| `ShardLog.SplitUndoesCompose` | internal/domain/support.go:56-67 | Splitting undoes composing exactly when the date has no underscore |
| `ShardLog.ComposeUndoesSplit` | internal/domain/support.go:56-67 | Composing undoes splitting exactly when the identifier has an underscore |
| `ShardLog.RecoveryOpensWhatItLists` | internal/storage/recovery.go:53-73 | Recovery opens the file it listed for a shard if and only if the shard has a route |
| `ShardLog.RoutelessIsMisread` | internal/storage/recovery.go:57-61 | For a shard without a route it opens the file of the shard whose route is `.jsonl` |
| `Recovery.ReplayIs` | internal/storage/recovery.go:71-197 | Closed form of replay: a row ends as its stored (or else its first logged) columns with the carried columns of its last record |
| `Recovery.SameCarriedMeaning` | internal/storage/recovery.go:151-197 | The carried columns: state, version, handover and disposition ids of a mail, state and version of a disposition, all of a ledger entry |
| `Recovery.ReplayIsNoOpIff` | internal/storage/recovery.go:71-197 | Replay over any tables changes nothing if and only if the last record of every logged row carries what the row holds |
| `Recovery.ReplayIsIdempotent` | internal/storage/recovery.go:71-197 | Replaying twice is replaying once |
| `Recovery.ShardOrderDoesNotMatter` | internal/storage/recovery.go:43-67 | Shards can be replayed in any order, and any number of times, when no row's records span two of them |
| `RecoveryHistory.RebuildIsNoOp` | internal/storage/sqlite.go:140-159 | After any serial history of repository writes, replaying any shards, in any order and however often, over the live tables changes nothing |
| `RecoveryHistory.RebuildFromEmpty` | internal/storage/recovery.go:71-166 | Into empty tables: exactly the rows with a record in the shards replayed, with first-record columns and live carried columns, ledger entries as live; from all shards that is every mail and ledger entry and the dispositions saved again after submission |
| `RecoveryHistory.LostAppend` | internal/storage/sqlite.go:154-157 | A crash between commit and append leaves replay a no-op if and only if the row has no record, or the lost write left its carried columns alone |
| `ShardStore.FileRoundTrip` | internal/storage/shard.go:33-60 | A file of appended rows reads back as exactly those rows |
| `ShardStore.EachLineCounts` | internal/storage/recovery.go:81-92 | Whatever stands around it, a line adds its row if it decodes to one; a damaged, handover or unknown line adds none, and is an error unless unknown |
| `ShardStore.TornFileRecovers` | internal/storage/shard.go:33-60 | After a crash in the middle of an append recovery gives every row appended before it, and later every further row but the one glued to the torn record |
| `ShardStore.RecoverIsReplay` | internal/storage/recovery.go:32-112 | For any listing of files that hold the logged rows, recovery replays exactly the rows of the files it opens, in that order |
| `ShardStore.RecoveryOverLiveTables` | internal/storage/recovery.go:32-112 | From bytes up: after a serial history, recovery of any listing over the live tables leaves every row as it is |
| `ShardStore.RecoveryIntoEmptyTables` | internal/storage/recovery.go:32-112 | From bytes up, into empty tables: exactly the rows with a record in a file that recovery opens come back |
| `RecoveryHistory.WriteKeeps` | internal/storage/sqlite.go:140-159 | An orderly write keeps the world in which replay is a no-op |
| `ShardStore.Store.Append` | internal/storage/shard.go:33-60 | Adds one line to the file of the shard, in the directory of its date under its route, and returns where it starts |
| `ShardStore.Store.Commit` | internal/storage/sqlite_entities.go:33-59 | A mail takes every column saved but its first registration time, a disposition or ledger entry is stored as saved, no other row changes; a second ledger entry under one key is refused |
| `ShardStore.Store.Save` | internal/storage/sqlite.go:140-168 | The same, then one line in the file of the shard that the row names: the logged write of the histories, and the files keep holding exactly the logged rows |
| `ShardStore.Store.SaveTx` | internal/storage/sqlite_disposition.go:39-54 | The unlogged write of the histories |
| `ShardStore.Store.ReplayRecord` | internal/storage/recovery.go:114-149 | Inserts a row, or gives a stored mail its state, version, handover and disposition and a stored disposition its state and version; a handover record fails |
| `ShardStore.Store.RecoverShard` | internal/storage/recovery.go:71-112 | Whatever a file holds, its decodable rows are replayed in order and every line is counted as replayed or as an error |
| `ShardStore.Store.RecoverFromShards` | internal/storage/recovery.go:32-69 | Files are replayed one after another, unopenable ones reported; over files that hold the logged rows this is the replay of the rows in the files opened, which changes nothing in a well-kept world |
| `HazardWorkflow.CurrentCopyIsTheRow` | internal/storage/sqlite_charging.go:76-87 | A copy whose version is still the row's equals the row, so guards checked on the copy hold of the row when the swap wins |
| `HazardWorkflow.HistoriesAreLinear` | internal/charging/service.go:76-126 | For any interleaving of clients each version of a row is what an allowed call makes of the version before, and the version is one plus the number of commits |
| `HazardWorkflow.OneWinnerPerVersion` | internal/storage/sqlite_charging.go:76-87 | Once a commit over a version has won, no later commit over that version wins |
| `HazardWorkflow.RanksClimb` | internal/charging/service.go:76-126 | Each version stays in its state or moves to the next of open, assigned, rectified, verified; rejected is never reached |
| `HazardWorkflow.VerifiedOnlyInOrder` | internal/charging/domain.go:75-91 | Verified is reached only through assigned and then rectified, and is never left |
| `HazardWorkflow.AssignedAsLastNamed` | internal/charging/service.go:76-88 | Until it is rectified a hazard is assigned to the operator whom the last naming assignment named, or else to whomever its report named |
| `HazardWorkflow.RectifiedByTheAssignee` | internal/charging/service.go:90-109 | The first rectification is by that operator, and its evidence is stored |
| `HazardWorkflow.RectifiedIsAccountedFor` | internal/charging/service.go:90-126 | A rectified or verified hazard has evidence and is assigned to the user of its last rectification |
| `HazardWorkflow.FixedExactlyWhen` | internal/charging/service.go:90-126 | Every call allowed on a rectified or verified hazard keeps its assignee if and only if it names one or is verified |
| `HazardWorkflow.AssigneeIsFixed` | internal/charging/service.go:90-126 | From then on it is kept over all later versions |
| `HazardWorkflow.RectifiedAssigneeNeverChanges` | internal/charging/service.go:90-126 | When every rectifying user has an identifier, the assignee of a rectified or verified hazard never changes again |
| `HazardWorkflow.UnnamedAssigneeIsTakenOver` | internal/charging/service.go:102-109 | A history from the empty table in which a user without an identifier rectifies a hazard assigned to nobody, and another operator then takes it over |
| `HazardWorkflow.CallIsReadThenCommit` | internal/charging/service.go:76-126 | An uninterrupted service call is a read directly followed by its winning commit |
| `HazardWorkflow.HazardStore.CreateHazard` | internal/storage/sqlite_charging.go:57-60 | Inserts a new row and refuses an identifier already stored |
| `HazardWorkflow.HazardStore.TransitionHazard` | internal/storage/sqlite_charging.go:76-87 | Compare-and-swap: a conflict changes nothing, a win changes state, version and whichever of assignee and evidence is given |
| `HazardWorkflow.ChargingService.ReportHazard` | internal/charging/service.go:51-74 | Stores the hazard open at version one in the reporter's name, due in two days unless stated, in exactly the stated cases |
| `HazardWorkflow.ChargingService.AssignHazard` | internal/charging/service.go:76-88 | A regulator or prosecutor assigns an open, assigned or rejected hazard to the operator named, or leaves the assignee if none is; each error exactly when it applies, without a change |
| `HazardWorkflow.ChargingService.RectifyHazard` | internal/charging/service.go:90-109 | An operator with evidence rectifies an assigned or rectified hazard that is theirs or nobody's, which then is theirs with that evidence; otherwise nothing changes |
| `HazardWorkflow.ChargingService.VerifyHazard` | internal/charging/service.go:111-126 | An inspector or regulator with evidence verifies a rectified or verified hazard, whose evidence is then that one; otherwise nothing changes |
| `Auth.CacheRefinesTable` | internal/auth/service.go:113-136 | In every run a token is answered as the table alone would answer if and only if it is not the orphan of a login that could not be persisted |
| `Auth.RestartChangesNoAnswer` | internal/auth/service.go:113-136 | Emptying the cache changes the answers of those orphans and of no other token |
| `Auth.LogoutIsForever` | internal/auth/service.go:138-154 | After a successful logout, even one killed before it reached the cache, every later answer is "revoked", across restarts |
| `Auth.RefusedForever` | internal/auth/service.go:113-136 | A persisted token once refused is never accepted again |
| `Auth.SessionLasts` | internal/auth/service.go:83-154 | From its login on, in any run across restarts and crashes, a token is answered "revoked" once a logout succeeded, or a new process began if it was never persisted; otherwise accepted with that user and role exactly while the clock is below login time plus lifetime, and "expired" from then on |
| `Auth.ExpiredForever` | internal/auth/service.go:132-134 | Once the clock has reached that time the token is never accepted |
| `Auth.SessionTable.SaveSession` | internal/storage/sqlite_auth.go:23-31 | Inserts a row; a failure or a token already stored leaves the table alone |
| `Auth.SessionTable.RevokeSession` | internal/storage/sqlite_auth.go:59-69 | Updates exactly a stored session not yet revoked |
| `Auth.AuthService.Login` | internal/auth/service.go:83-111 | The session is cached before it is persisted: a failed login leaves an orphan in the cache; a successful one answers the session of that user and role, for the lifetime |
| `Auth.AuthService.Authenticate` | internal/auth/service.go:113-136 | Cache first, table only for tokens the cache lacks: accepted exactly if found, not revoked and not yet expired, "revoked" exactly if not found or revoked, "expired" exactly otherwise |
| `Auth.AuthService.Logout` | internal/auth/service.go:138-154 | Succeeds exactly for an accepted token with an unrevoked row; revokes table and cache together and touches no other session, or changes nothing |
| `Auth.AuthService.RequireRole` | internal/auth/service.go:161-172 | Passes exactly an authenticated session with one of the allowed roles |

## Left out

- HTTP handlers, SSE formatting, command line, configuration and logging: sending is appending to a sequence.
- Failing database statements, except a failed session insert: SQLite transactions are taken to commit.
- The connection limiter, the circuit breaker around Execute, SLA classes, scheduler backoff, paging and CSV import: simple next to the core.
- Pruning of events: the event table of this model only grows.
- Timestamps of mails, requests, batches and hazards; rows are compared without them, except a mail's registration time and a hazard's due date.
- Requests whose context is already cancelled when Login or Authenticate begins, and the cache of open shard files.
- Audit records, and the ledger entries and events that services add after their commits.
- `UpdateStateTx`, which no service calls, and the handover service.
- Handover rows in recovery: their insert has 20 placeholders for 19 columns (`internal/storage/recovery.go:170-173`), so such a record is modelled as one that fails.
- Renamed mail and request numbers in recovery: replay inserts first-record columns, and a number that has moved between rows could meet the UNIQUE constraint; the model has no such constraint there.
- Checksums and shard metadata: they take part in no other result.
- Date or route parts that contain path separators, and shards with an empty date, whose files recovery does not list.
- The order of `created_at` in listings: items and batches are listed in any order, which covers it.
- Sessions without a repository (the in-memory demo mode), and a failing random source.
- A submission's mail read and its transaction are one step: mails are never deleted by the program, and the transaction holds the only connection.
- DispositionService.DispositionService.Submit: a generated request number is a parameter, so its uniqueness is not part of the contract.
- Subscription.HandleSSE: registering and unregistering on the bus are not in its contract, because other callers use the bus in between; `EventBus` states those steps and `Delivery` interleaves them.
- DispositionService.DispositionService.Save: the shard record it appends is the logged write of `ShardStore.Store.Save`, and its shard metadata is left out.
- ShardStore.Store.Save: the shard metadata row it touches is left out.
- ShardStore.Store.SaveTx: the index entry of the disposition is in `DispositionService.DispositionService.Save`; shard metadata is left out.
- ShardStore.Store.RecoverShard: the checksum and the shard metadata row it writes are left out.
