# signal-purple delivery engine: a Dafny model

signal-purple connects a Purple host (a C plugin) to Signal through a Rust backend. This project
models the part of it that moves messages and must not lose, duplicate or misreport them: the
bounded event queue between backend and host, the replay, projection and acknowledgement protocol
behind it, the worker's state machines, and the bounded GIF recogniser that exists once in Rust and
once in C. `dafny verify dfyconfig.toml` checks everything.

## How it is organised

| file | models |
|---|---|
| `Delivery.dfy` | the whole path of a message, from durable store to durable "projected" mark, with crashes |
| `MessageEvents.dfy`, `Contents.dfy` | what one received message becomes for the host |
| `Projection.dfy`, `ProjectionObjects.dfy` | delivery ids, deduplication, replay queue |
| `Acknowledgment.dfy` | the acknowledgement inbox and the threads that use it |
| `EventQueue.dfy`, `EventQueueThreads.dfy` | the event queue, its producers, its wake byte and the host's poll loop |
| `GroupDeparture.dfy` | leaving a group against sending to it, under one operation lock |
| `Attachments.dfy`, `AttachmentOutcomes.dfy` | admission, cancellation, completion and cleanup of outgoing attachments |
| `DeliveryReceipts.dfy`, `Outbox.dfy` | the two retry machines |
| `Session.dfy` | connection phases, group authority, recovery backoff |
| `Timestamps.dfy`, `GroupIndex.dfy` | the timestamp allocator, the identifier index |
| `GroupTables.dfy` | the host's per-group tables and the snapshot sweep |
| `Gif.dfy`, `GifRecognisers.dfy` | the GIF89a grammar with encoder and parser, and both recognisers |

Objects that the source mutates are classes whose methods are proved against functions on values;
the properties are proved about those functions. Concurrent protocols are state machines: a label
names one atomic step (a lock section, an atomic access, or the code between two suspension points),
`IsRun` describes every interleaving, and a theorem speaks about an arbitrary state of an arbitrary
run. What the network, the store, the clock and the scheduler do is a free choice in the labels.

## Where the code does less than one might expect

- An event is acknowledged once the host has dispatched it, whether or not dispatching accepted it;
  "shown" means dispatched throughout.
- A cancellation can win its exchange and still be followed by an error event, exactly when it falls
  between the check and the claim of the interruption path (`CancelledRequestCanGetError`,
  `CancelledErrorIffRaced`).
- A cancellation that wins after the network accepted the message is answered with SENT
  (`CancelledRequestCanBeSent`).
- An outbox attempt that shutdown cuts off before its outcome is recorded does not count towards the
  five (`InterruptionAddsAttempt`, `AttemptsAreBounded`).
- The acknowledgement inbox releases its lock before it notifies, so for a moment queued work has no
  stored permit (`PermitLagsBehindQueue`, `ReadyIsAnnounced`).
- A successful send marks its stored row as projected without any event. The row is looked up by
  thread and timestamp and not by sender, so a message from somebody else with the same two is
  marked unseen and not replayed (`UnshownMarkIff`, `SendMarksAnyRow`).
- An attachment that the network took is reported as interrupted when its task is aborted inside the
  send, or when cleanup reaches its time limit before its Ok is passed on (`TakenOutcome`,
  `TakenRequestCanGetError`).
- Both GIF recognisers stop at the trailer and accept whatever follows it (`TrailingBytesIgnored`,
  `AcceptedBeyondTrailer`).
- A hard error on the wake-byte write leaves an accepted event unannounced
  (`HardWriteErrorHidesEvent`).
- Delivery ids and chat ids wrap; reuse breaks the tables exactly when the next id is still in use
  (`TrackCoupledIff`, `AllocationInverseIff`).

## Model

| member | source | states |
|---|---|---|
| `Delivery.ProjectedOnlyAfterShown` | rust/signal-core/src/backend/projection.rs:197-280 | in every interleaving of worker, event queue, host loop, sends, shutdown and crashes, a mark belongs to a received row and either was written by the send path, or the host dispatched every message and attachment event of one attempt, or the content has nothing to show: no data message, an empty or malformed one, or one for a group that was left; without an accepted send of the row's thread and time it is one of the last two |
| `Delivery.WhatWasShown` | rust/signal-core/src/backend/coordinator.rs:1851-2040 | what a fully shown attempt showed is the events of the data message that its content brings |
| `Delivery.UnshownMarkIff` | rust/signal-core/src/store/repository.rs:78-97 | in any reachable state, the next step can mark a message that was not shown if and only if the worker is between messages and an accepted send with its thread and time is not recorded yet, whoever sent the message |
| `Delivery.MarkedBySend` | rust/signal-core/src/backend/coordinator.rs:1077-1108 | the rows marked by the send path are exactly those its steps named |
| `Delivery.SendMarksAnyRow` | rust/signal-core/src/store/repository.rs:78-97 | for every message and thread, a run in which a send with that thread and time marks it: nothing was shown and the load after a restart does not bring it back |
| `Delivery.UnshownIsLoaded` | rust/signal-core/src/backend/coordinator.rs:1225-1248 | every load, at any moment, brings back every received message that was not shown and not marked by a send |
| `Delivery.CutOffMessagesAreReplayed` | rust/signal-core/src/backend/worker.rs:477-514 | a message received and not shown when the worker died is in the replay queue after the next load, with any steps in between but projecting, unless a send marked it |
| `Delivery.RestartShowsNothing` | rust/signal-core/src/backend/worker.rs:477-514 | from a crash to the first projection, nothing of any attempt is recorded or shown |
| `Delivery.MarksAreDurable` | rust/signal-core/src/backend/projection.rs:252-280 | received and projected sets never shrink along a run |
| `Delivery.PollShowsAll` | src/connection.c:1258-1311 | at the poll whose event makes the host owe an acknowledgement, all message and attachment events of that attempt have been dispatched |
| `Delivery.NothingTwice` | src/connection.c:1258-1311 | no event of an attempt enters the queue twice, so none is dispatched twice, over every run and across crashes |
| `Delivery.FinalAckIsLast` | rust/signal-core/src/backend/coordinator.rs:1899-2039 | an acknowledgeable event with a nonzero id carries the attempt's id and no acknowledgeable event follows it |
| `Delivery.CompleteHadNothing` | rust/signal-core/src/backend/coordinator.rs:217-232 | an attempt that completes without waiting had no acknowledgeable event and its content has nothing to show |
| `Delivery.TextGetsMarked` | rust/signal-core/src/backend/projection.rs:197-309 | every plain text message has a run that ends with its mark set, so the guarantee is not met by never marking |
| `MessageEvents.SingleFinalAck` | rust/signal-core/src/backend/coordinator.rs:1578-1691 | for any content and any answers of network and store: exactly the last acknowledgeable event carries the delivery id when the message waits, and there is none when it does not |
| `MessageEvents.DispositionIff` | rust/signal-core/src/backend/coordinator.rs:1578-1691 | content that brings a nonempty, well-formed data message (a message, an edit, or the copy of either from another device) waits exactly if it is direct or its group is active, is retried exactly while its group is being left or cannot be read, and completes exactly if the group was left; when it waits, its acknowledgeable events are those of that message |
| `MessageEvents.CompleteIff` | rust/signal-core/src/backend/coordinator.rs:1578-1691 | content completes unseen exactly if it has nothing to show |
| `MessageEvents.NoticesIff` | rust/signal-core/src/backend/coordinator.rs:1663-1690 | typing notices and receipts are emitted for exactly their contents; an undecryptable message makes one report |
| `MessageEvents.DataMessageSingleAck` | rust/signal-core/src/backend/coordinator.rs:1851-2040 | the same for a data message with any text, attachments, download and inlining outcomes |
| `MessageEvents.NothingHidden` | rust/signal-core/src/backend/coordinator.rs:1899-2039 | the files of an incoming message are exactly its usable attachments within the download limit, in its order; each is one event with its data, in that order; the text with one line per attachment that is not inlined makes one message event before them, absent exactly when there are no lines; the inlined ones are the usable ones that qualify |
| `MessageEvents.TextIsItsLines` | rust/signal-core/src/backend/coordinator.rs:1835-1849 | the shown text is the newline-join of the own text, if any, and one placeholder per attachment that is not inlined, in order |
| `MessageEvents.UsableIff` | rust/signal-core/src/backend/coordinator.rs:1910-1948 | exactly when a download is usable, and its length after cutting it to the announced size |
| `MessageEvents.FileOrReport` | rust/signal-core/src/backend/coordinator.rs:1899-1950 | every attachment within the download limit becomes a file or a report |
| `MessageEvents.FirstTwoTranscoded` | rust/signal-core/src/backend/coordinator.rs:1952-1964 | a file is transcoded exactly if it is a GIF video with fewer than two before it |
| `MessageEvents.NoGroupMessageWithoutAuthority` | rust/signal-core/src/backend/projection.rs:192-209 | content that may be projected without group authority never shows the host a group message |
| `MessageEvents.PlaceholderShown` | rust/signal-core/src/backend/coordinator.rs:1835-1849 | an attachment that is not shown inline leaves text to show |
| `MessageEmitter.EmitDataMessage` | rust/signal-core/src/backend/coordinator.rs:1851-2040 | the imperative emission produces the specified events and disposition, with the single final acknowledgement |
| `MessageEmitter.DownloadAttachments` | rust/signal-core/src/backend/coordinator.rs:1899-1950 | the download loop yields the usable attachments in order and one report for each refusal and for going over the limit |
| `MessageEmitter.TranscodeVideos` | rust/signal-core/src/backend/coordinator.rs:1952-1967 | at most two GIF videos are transcoded, the first two, everything else unchanged |
| `MessageEmitter.ProjectText` | rust/signal-core/src/backend/coordinator.rs:1835-1849 | the loop produces the own text followed by one line per attachment that is not inlined |
| `MessageEmitter.EmitAttachments` | rust/signal-core/src/backend/coordinator.rs:2022-2039 | one event per attachment, the delivery id on the last |
| `ProjectionRuns.DeduplicationWindow` | rust/signal-core/src/backend/projection.rs:41-65 | a completed identity is tracked again only after 4096 other, distinct identities completed in between |
| `ProjectionRuns.NeverTrackedTwiceWhilePending` | rust/signal-core/src/backend/projection.rs:96-127 | between two trackings of an identity it was released or completed |
| `ProjectionRuns.CompletedIsLatest` | rust/signal-core/src/backend/projection.rs:53-64 | the remembered identities are exactly the last 4096 completions |
| `ProjectionRuns.TracksIff` | rust/signal-core/src/backend/projection.rs:96-108 | content is tracked exactly while fewer than 64 are pending, its identity is not pending and not among the last 4096 completions |
| `ProjectionRuns.ProjectionCoupled` | rust/signal-core/src/backend/projection.rs:96-127 | after every operation sequence: registered ids are the pending keys, at most 64; pending identities are in bijection with pending contents and apart from the completed ones; the completed order lists the completed set without duplicates, at most 4096 |
| `ProjectionRuns.DeliveryIdsCount` | rust/signal-core/src/backend/projection.rs:96-108 | delivery ids are 1, 2, 3, ... short of wrap-around: nonzero, never given twice |
| `Projections.TrackCoupledIff` | rust/signal-core/src/backend/projection.rs:96-108 | tracking keeps the coupling if and only if the next id is not still pending |
| `Projections.FreshId` | rust/signal-core/src/backend/projection.rs:96-108 | short of wrap-around the next id is positive and unused |
| `Projections.CompleteNew` | rust/signal-core/src/backend/projection.rs:53-64 | completing an identity keeps the two sets apart and the order equal to the latest 4096 completions |
| `Projections.ReleaseCoupled` | rust/signal-core/src/backend/projection.rs:114-120 | releasing a delivery keeps the coupling |
| `Projections.CompleteCoupled` | rust/signal-core/src/backend/projection.rs:122-127 | completing a delivery keeps the coupling and appends its identity to the window |
| `ProjectionObjects.ProjectionIdentities.ReserveIdentity` | rust/signal-core/src/backend/projection.rs:42-47 | succeeds exactly for an identity neither pending nor remembered |
| `ProjectionObjects.ProjectionIdentities.Complete` | rust/signal-core/src/backend/projection.rs:53-64 | the eviction loop refines the specified completion |
| `ProjectionObjects.MessageProjection.TrackContent` | rust/signal-core/src/backend/projection.rs:96-108 | refines tracking; the id returned is the next one, or none |
| `ProjectionObjects.MessageProjection.ReleaseDelivery` | rust/signal-core/src/backend/projection.rs:114-120 | refines releasing; returns the content if it was pending |
| `ProjectionObjects.MessageProjection.CompleteDelivery` | rust/signal-core/src/backend/projection.rs:122-127 | refines completing; returns the content if it was pending |
| `Replays.PushAllSplits` | rust/signal-core/src/backend/projection.rs:137-151 | loading keeps store order; without authority group messages wait, in order, apart from the rest |
| `Replays.ReplayConserves` | rust/signal-core/src/backend/projection.rs:137-155 | holding group messages back and releasing them loses and duplicates nothing |
| `ProjectionObjects.MessageReplayQueue.PushContent` | rust/signal-core/src/backend/projection.rs:145-151 | a message joins the end of the ready or of the waiting queue |
| `ProjectionObjects.MessageReplayQueue.Replace` | rust/signal-core/src/backend/projection.rs:137-143 | the two queues together hold exactly the loaded messages |
| `ProjectionObjects.MessageReplayQueue.Activate` | rust/signal-core/src/backend/projection.rs:153-155 | waiting messages move behind the ready ones |
| `ProjectionObjects.MessageReplayQueue.PopReady` | rust/signal-core/src/backend/projection.rs:157-159 | the first ready message, if any, and the queue without it |
| `AcknowledgmentProtocol.AcknowledgmentsConserved` | rust/signal-core/src/acknowledgment.rs:44-109 | before shutdown an accepted id is in exactly one of ready, retry and the batch being recorded, once, and is registered |
| `AcknowledgmentProtocol.ReadyIsAnnounced` | rust/signal-core/src/acknowledgment.rs:52-100 | queued work has a stored wake permit, unless a notification is owed or the worker is already coming |
| `AcknowledgmentProtocol.PermitLagsBehindQueue` | rust/signal-core/src/acknowledgment.rs:52-66 | a run in which the notification is still owed: ready is nonempty and no permit is stored |
| `AcknowledgmentProtocol.DrainTerminates` | rust/signal-core/src/backend/projection.rs:301-309 | after shutdown each nonempty batch shrinks what is left and nothing is added |
| `Acknowledgments.ProcessedConserved` | rust/signal-core/src/backend/projection.rs:282-299 | recording a batch with retries loses no accepted id |
| `Acknowledgments.ProcessedBatch` | rust/signal-core/src/backend/projection.rs:282-299 | exactly the recorded ids of the batch leave the inbox |
| `Acknowledgments.SubmitConserved` | rust/signal-core/src/acknowledgment.rs:52-66 | submitting keeps every accepted id in exactly one place |
| `Acknowledgments.TakeConserved` | rust/signal-core/src/acknowledgment.rs:68-78 | taking a batch moves ids, it does not lose them |
| `Acknowledgments.DeferConserved` | rust/signal-core/src/acknowledgment.rs:80-85 | deferring moves the batch's first id to retry |
| `Acknowledgments.ActivateConserved` | rust/signal-core/src/acknowledgment.rs:87-96 | reactivating retries keeps conservation |
| `Acknowledgments.UnregisterConserved` | rust/signal-core/src/acknowledgment.rs:44-50 | withdrawing an id keeps the others where they are |
| `AcknowledgmentObject.AcknowledgmentInbox.UnregisterId` | rust/signal-core/src/acknowledgment.rs:44-50 | the id leaves both sets and both queues |
| `AcknowledgmentObject.AcknowledgmentInbox.SubmitId` | rust/signal-core/src/acknowledgment.rs:52-66 | queues a registered, not yet accepted id once and stores a permit exactly then; answers whether the inbox is open |
| `AcknowledgmentObject.AcknowledgmentInbox.TakeBatch` | rust/signal-core/src/acknowledgment.rs:68-78 | takes the oldest ids up to the maximum and renews the permit if some are left |
| `AcknowledgmentObject.AcknowledgmentInbox.Activate` | rust/signal-core/src/acknowledgment.rs:87-96 | retries join the ready queue and the permit is stored when there is work |
| `AcknowledgmentObject.AcknowledgmentInbox.CloseAll` | rust/signal-core/src/acknowledgment.rs:102-109 | closes the inbox with all retries made ready and a permit stored |
| `AcknowledgmentObject.AcknowledgmentInbox.ProcessBatch` | rust/signal-core/src/backend/projection.rs:282-299 | the loop over a batch refines its specification and counts the batch |
| `AcknowledgmentObject.AcknowledgmentInbox.Drain` | rust/signal-core/src/backend/projection.rs:301-309 | terminates with both queues empty after trying every queued id once |
| `EventQueueThreads.QueueRefinesFifo` | rust/signal-core/src/event_queue.rs:112-229 | for any number of producers: polled events followed by the channel are the accepted events in order; the byte counter is the exact sum; the count is within capacity; the sum is within budget unless the last event alone carries data |
| `EventQueueThreads.PolledGrows` | rust/signal-core/src/event_queue.rs:198-229 | what was polled or accepted is never taken back |
| `EventQueueThreads.EveryCallResolved` | rust/signal-core/src/event_queue.rs:112-175 | each producer's calls are its accepted ones in order, then the ones dropped because the queue closed |
| `EventQueueThreads.NoLostWakeup` | rust/signal-core/src/event_queue.rs:121-229 | for a parked producer the channel is full, or holds data that with its bytes exceeds the budget; so the queue is open and nonempty and the next poll wakes it |
| `EventQueueThreads.NobodyParkedAfterClose` | rust/signal-core/src/event_queue.rs:183-191 | after close no producer is parked and each finishes with its next attempt |
| `EventQueueThreads.WaitingCounterExact` | rust/signal-core/src/event_queue.rs:121-164 | the waiting counter is the number of producers inside the wait |
| `EventQueueThreads.ChannelAnnounced` | rust/signal-core/src/event_queue.rs:83-110 | absent a hard write error a nonempty channel keeps the pending flag set and the descriptor readable |
| `EventQueueThreads.HardWriteErrorHidesEvent` | rust/signal-core/src/event_queue.rs:83-110 | a run in which one hard write error leaves an accepted event unannounced |
| `EventQueues.OfferAccounted` | rust/signal-core/src/event_queue.rs:112-175 | admission keeps the byte accounting and both limits |
| `EventQueues.PollAccounted` | rust/signal-core/src/event_queue.rs:198-229 | polling keeps the byte accounting and both limits |
| `EventQueues.SentIff` | rust/signal-core/src/event_queue.rs:112-175 | an event is accepted exactly if the queue is open and below capacity and the event fits the budget beside the queued data, or finds none |
| `EventQueues.OfferKeepsBlocked` | rust/signal-core/src/event_queue.rs:121-164 | another producer's event never makes a blocked one admissible |
| `EventQueues.EmptyAdmits` | rust/signal-core/src/event_queue.rs:121-164 | an empty queue admits any event, even one over the budget |
| `EventQueueObject.EventQueue.NotifyLocked` | rust/signal-core/src/event_queue.rs:83-110 | the write loop ends pending unless the write failed for good |
| `EventQueueObject.EventQueue.TryEmit` | rust/signal-core/src/event_queue.rs:112-175 | one pass of the emit loop accepts, waits or drops, exactly in the numbers of the limits, and appends what it accepts |
| `EventQueueObject.EventQueue.DrainNotification` | rust/signal-core/src/event_queue.rs:232-243 | no wake byte is left |
| `EventQueueObject.EventQueue.PollOnce` | rust/signal-core/src/event_queue.rs:198-229 | the oldest event; on an empty channel the wake bytes and flag are cleared |
| `EventQueueObject.EventQueue.CloseQueue` | rust/signal-core/src/event_queue.rs:183-191 | nothing is admitted afterwards, what is queued stays |
| `EventQueueObject.PollBackend` | src/connection.c:1246-1314 | a callback keeps a prefix of at most 64 events, acknowledges exactly the kept ones that owe it, in order, and leaves the descriptor readable when more remain; each of its endings happens exactly in its case, and the event that ends it early is not acknowledged |
| `EventQueueObject.OwedConcat` | src/connection.c:1291-1309 | acknowledging is a filter over the kept events: order preserved, each event judged alone |
| `EventQueueObject.PumpUntilQuiet` | src/connection.c:1246-1314 | callbacks repeated while the descriptor is readable deliver the whole channel in order while the host keeps listening |
| `GroupOperations.NothingAfterDeparture` | rust/signal-core/src/backend/coordinator.rs:1368-1451 | with any number of attachment tasks, outbox sends and leaves, nothing is sent to a group after its leave was recorded as accepted |
| `GroupOperations.SendExcludesDeparture` | rust/signal-core/src/backend/coordinator.rs:1171-1200 | while a send from the outbox or from an attachment task is in progress its group has not departed and nobody can record a departure |
| `GroupOperations.DepartureIsPermanent` | rust/signal-core/src/backend/group_state.rs:63-86 | departed groups stay departed for the run |
| `GroupOperations.NothingLeavingAtLoopHead` | rust/signal-core/src/backend/worker.rs:540-563 | the leaving set is empty at every dispatch-loop head |
| `GroupOperations.NeverRequestsWhileHolding` | rust/signal-core/src/backend/outbox.rs:112-154 | nobody requests the operation lock while holding it |
| `GroupOperations.HolderAlwaysProgresses` | rust/signal-core/src/backend/coordinator.rs:1171-1200 | the holder of the lock always has a step, its steps lead towards the release, and no other step undoes that |
| `GroupOperations.LeaveHappens` | rust/signal-core/src/backend/coordinator.rs:1368-1451 | a run in which the outbox and an attachment task send to a group and its leave is then recorded |
| `DepartureStates.LeaveOutcomes` | rust/signal-core/src/backend/group_state.rs:26-86 | a failed leave restores the group, an accepted one settles it, other groups are untouched |
| `DepartureStates.StatesOfGroups` | rust/signal-core/src/backend/group_state.rs:26-49 | the three states and what they mean for content; a group that was left stays left, and its content complete, while another leave is handled |
| `DepartureStates.DepartedGroups.DepartureState` | rust/signal-core/src/backend/group_state.rs:37-49 | departed takes precedence over leaving |
| `DepartureStates.DepartedGroups.Begin` | rust/signal-core/src/backend/group_state.rs:63-69 | the group is being left |
| `DepartureStates.DepartedGroups.Cancel` | rust/signal-core/src/backend/group_state.rs:71-77 | the group is no longer being left |
| `DepartureStates.DepartedGroups.Mark` | rust/signal-core/src/backend/group_state.rs:79-86 | moves the group from leaving to departed |
| `AttachmentOutcomes.AtMostOneTerminalEvent` | rust/signal-core/src/backend/coordinator.rs:752-782 | every admitted request gets at most one terminal event |
| `AttachmentOutcomes.StartedGetsOneEvent` | rust/signal-core/src/backend/worker.rs:685-762 | a started, never cancelled request that nobody will report any more has been reported once |
| `AttachmentOutcomes.CleanupSettlesEveryone` | rust/signal-core/src/backend/worker.rs:1104-1156 | after cleanup, and when the worker is down, every started and never cancelled request has exactly one event |
| `AttachmentOutcomes.RefusedGetsOneError` | rust/signal-core/src/backend/worker.rs:1254-1274 | a request refused before it starts gets exactly one error event, unless it was cancelled by then |
| `AttachmentOutcomes.CancelledErrorIffRaced` | rust/signal-core/src/backend/worker.rs:1078-1091 | a request whose cancellation won gets an error event if and only if it won inside the window between check and claim |
| `AttachmentOutcomes.RaceIsInTheWindow` | rust/signal-core/src/backend/worker.rs:1078-1091 | that flag is raised by a winning exchange inside the window and by nothing else |
| `AttachmentOutcomes.CancelledRequestCanGetError` | rust/signal-core/src/backend/worker.rs:1078-1091 | a run in which a winning cancellation is followed by an error event |
| `AttachmentOutcomes.CancelledRequestCanBeSent` | rust/signal-core/src/backend/worker.rs:1288-1312 | a run in which a winning cancellation is answered with SENT |
| `AttachmentOutcomes.TakenOutcome` | rust/signal-core/src/backend/worker.rs:1104-1156 | a message that the network took is reported as sent if and only if the send returned Ok and that result was not lost; otherwise it is reported as failed, or not at all exactly if a cancellation won in time |
| `AttachmentOutcomes.LossIsAtTheLimit` | rust/signal-core/src/backend/worker.rs:1104-1156 | a result is lost exactly when the time limit, or shutdown between join and report, meets a request that still holds a delivery |
| `AttachmentOutcomes.TakenRequestCanGetError` | rust/signal-core/src/backend/worker.rs:1104-1113 | runs in which a message that the network took is reported as interrupted: its result was waiting at the time limit, or its task was aborted inside the send |
| `AttachmentOutcomes.SentMeansTaken` | rust/signal-core/src/backend/coordinator.rs:752-782 | only messages that the network took are reported as sent |
| `AttachmentOutcomes.CleanupNeverStuck` | rust/signal-core/src/backend/worker.rs:1115-1156 | until cleanup is over the worker or a task it waits for has a step |
| `AttachmentOutcomes.CleanupIsBounded` | rust/signal-core/src/backend/worker.rs:1115-1156 | cleanup takes at most as many steps as there was work when it began, whatever the host and the command queue do |
| `AttachmentOutcomes.CleanupProgresses` | rust/signal-core/src/backend/worker.rs:1115-1156 | each cleanup step leaves strictly less work and no other step adds any |
| `AttachmentCleanup.TaskResult` | rust/signal-core/src/backend/worker.rs:1288-1312 | a delivered attachment is reported delivered; a failed one fails only if it claims the cell, otherwise it is cancelled |
| `AttachmentCleanup.InterruptRemaining` | rust/signal-core/src/backend/worker.rs:1078-1102 | reports exactly the controls that were not cancelled when looked at; no control stays active, and one that the host cancels between check and claim ends cancelled |
| `AttachmentAdmissions.AdmissionExact` | rust/signal-core/src/attachment.rs:122-197 | over every history the byte total is the exact sum of the admitted sizes, within both limits |
| `AttachmentAdmissions.ReleaseUndoesReserve` | rust/signal-core/src/attachment.rs:192-243 | dropping a permit restores the admission as it was |
| `AttachmentAdmissions.AttachmentAdmission.Reserve` | rust/signal-core/src/attachment.rs:122-160 | admits exactly a new nonzero id with a size within its limit while fewer than two requests and the byte total allow it; otherwise refuses with the source's reason and changes nothing |
| `AttachmentAdmissions.AttachmentAdmission.DropPermit` | rust/signal-core/src/attachment.rs:192-243 | removes the request and its bytes, once |
| `AttachmentAdmissions.AttachmentControl.Cancel` | rust/signal-core/src/attachment.rs:61-77 | wins only from Active and then aborts the task |
| `AttachmentAdmissions.AttachmentControl.ClaimTerminal` | rust/signal-core/src/attachment.rs:83-93 | wins only from Active |
| `AttachmentAdmissions.FirstExchangeWins` | rust/signal-core/src/attachment.rs:61-93 | in any order of cancellations and claims the first decides for good |
| `ReceiptRuns.ReceiptsConserved` | rust/signal-core/src/backend/projection.rs:339-428 | the queue is what was enqueued and has not left: distinct identities, equal to the identity set, at most 4096, each with its original timestamp |
| `ReceiptRuns.InFlightIsTheTask` | rust/signal-core/src/backend/worker.rs:582-591 | an entry is in flight exactly when it is the live task's receipt |
| `ReceiptRuns.NotesMeanWhatTheySay` | rust/signal-core/src/backend/projection.rs:473-511 | a receipt leaves only by success or permanent failure, attempts reuse the enqueued receipt, and a refusal is reported exactly when it opens a saturation episode |
| `ReceiptRuns.EnqueuedIff` | rust/signal-core/src/backend/projection.rs:340-368 | a new receipt is queued, ready, exactly while fewer than 4096 are |
| `ReceiptRuns.RetryProgress` | rust/signal-core/src/backend/projection.rs:473-502 | after a closed socket or a lost task the receipt is ready at once; after a transient failure it is deferred |
| `ReceiptRuns.DeferredUntilTick` | rust/signal-core/src/backend/projection.rs:400-420 | a deferred receipt is not started until the retry timer ticks |
| `ReceiptRuns.TickReadies` | rust/signal-core/src/backend/projection.rs:414-420 | the tick makes it ready |
| `ReceiptRuns.ReadyStarts` | rust/signal-core/src/backend/projection.rs:370-380 | with no task running, the earliest ready receipt is the one that starts |
| `ReceiptQueues.EnqueueIndexed` | rust/signal-core/src/backend/projection.rs:340-368 | enqueueing keeps entries distinct, indexed and within the limit |
| `ReceiptQueues.CompleteIndexed` | rust/signal-core/src/backend/projection.rs:382-398 | completing keeps them so |
| `ReceiptObject.DeliveryReceiptQueue.Add` | rust/signal-core/src/backend/projection.rs:340-368 | refines enqueueing and its report |
| `ReceiptObject.DeliveryReceiptQueue.Start` | rust/signal-core/src/backend/projection.rs:370-380 | starts the first ready receipt, only in a ready session |
| `ReceiptObject.DeliveryReceiptQueue.Finish` | rust/signal-core/src/backend/projection.rs:382-398 | removes the receipt by identity and ends a saturation episode |
| `ReceiptObject.DeliveryReceiptQueue.RetryReceipt` | rust/signal-core/src/backend/projection.rs:400-412 | makes the receipt ready or waiting again |
| `ReceiptObject.DeliveryReceiptQueue.ResetAll` | rust/signal-core/src/backend/projection.rs:414-428 | the two loops that make waiting or lost receipts ready |
| `Outboxes.AttemptsAreBounded` | rust/signal-core/src/backend/outbox.rs:158-191 | attempts of a message are at most five plus the ones cut off by shutdown; the stored count is exact and below five; recording the fifth clears the message whatever its outcome |
| `Outboxes.AttemptsAreFaithful` | rust/signal-core/src/backend/outbox.rs:193-294 | attempts carry the enqueue timestamp; no group message is attempted without group authority |
| `Outboxes.AttemptsRise` | rust/signal-core/src/backend/outbox.rs:158-191 | a message stays exactly after a retryable failure before the fifth attempt, then with one attempt more, the due time of the delay table and its old timestamp; no other message changes |
| `Outboxes.InterruptionAddsAttempt` | rust/signal-core/src/backend/outbox.rs:193-245 | a run with six attempts of one message, one of them interrupted |
| `Outboxes.RetryDelayBounds` | rust/signal-core/src/backend/outbox.rs:65-70 | the delay starts at five seconds, doubles nine times, then stays, and never reaches its one-hour cap |
| `Outboxes.RetryPass` | rust/signal-core/src/backend/outbox.rs:193-245 | a pass tries exactly the due messages that are direct or have group authority, each once, and in the order in which they are due; the settled ones leave, the others get one attempt more and the due time of the delay table and keep their timestamp, and everything else is untouched |
| `SessionRuns.PhaseEventsAlternate` | rust/signal-core/src/backend/worker.rs:854-965 | READY and RECOVERING events strictly alternate |
| `SessionRuns.PhasesAreAnnounced` | rust/signal-core/src/backend/worker.rs:477-533 | while dispatching the last phase event is READY, and a worker waiting to reconnect has announced RECOVERING |
| `SessionRuns.ReadyMeansReady` | rust/signal-core/src/backend/worker.rs:477-563 | the visible flag and every dispatch iteration imply phase Ready; outside it there is no group authority |
| `SessionRuns.AuthorityIff` | rust/signal-core/src/backend/coordinator.rs:356-400 | group authority holds exactly if the latest group synchronization succeeded and no recovery came since |
| `SessionRuns.DebugAssertionsHold` | rust/signal-core/src/backend/coordinator.rs:381-405 | the debug assertions of the session object never fail |
| `SessionRuns.DelaysFollowTheTable` | rust/signal-core/src/backend/worker.rs:342-405 | recovery delays since the last reset start at one second, double up to 32 and stay there |
| `SessionRuns.DelaysCountWaits` | rust/signal-core/src/backend/worker.rs:342-405 | one delay per wait while recovering, starting over exactly when the receive queue was seen empty |
| `Sessions.SessionState.NoteGroup` | rust/signal-core/src/backend/coordinator.rs:367-371 | group content never changes authority |
| `Sessions.SessionState.MarkReady` | rust/signal-core/src/backend/coordinator.rs:381-384 | only the phase changes |
| `Sessions.SessionState.Recover` | rust/signal-core/src/backend/coordinator.rs:390-400 | always withdraws group authority; reports whether recovery was entered |
| `Sessions.SessionState.NextRecoveryDelay` | rust/signal-core/src/backend/coordinator.rs:402-405 | the next delay of the table, never zero |
| `Timestamps.TimestampsIncrease` | rust/signal-core/src/backend/coordinator.rs:77-99 | with any number of threads, values strictly increase in the order of the exchanges |
| `Timestamps.TimestampsRespectClockAndPast` | rust/signal-core/src/backend/coordinator.rs:82-99 | each is at least the caller's clock and above everything returned before the call began |
| `Timestamps.TimestampsAreTight` | rust/signal-core/src/backend/coordinator.rs:82-99 | each returned value is the clock reading or one more than the value returned before it |
| `Timestamps.FloorIsPast` | rust/signal-core/src/backend/coordinator.rs:82-99 | the recorded past bounds every value returned before the call |
| `Timestamps.PanicOnlyWhenExhausted` | rust/signal-core/src/backend/coordinator.rs:82-99 | a caller gives up only when the counter is at its maximum |
| `Timestamps.MessageTimestampAllocator.NextAt` | rust/signal-core/src/backend/coordinator.rs:82-99 | with any failed exchanges, spurious or lost to rivals: the result exceeds the old counter and every rival value, is the clock or the successor of the raised counter, and is missing exactly when that counter is exhausted |
| `GroupIndexes.IndexRefinesScan` | rust/signal-core/src/backend/coordinator.rs:2170-2194 | after every history of index, remove and lookup calls an indexed lookup equals a scan of all groups |
| `GroupIndexes.LookupRefinesScan` | rust/signal-core/src/backend/coordinator.rs:2170-2194 | one lookup, with stale entries and a store that changes between its two reads |
| `GroupIndexes.LookupTeaches` | rust/signal-core/src/backend/coordinator.rs:2190-2193 | a lookup that finds a group leaves its key in the index and changes no other entry |
| `GroupIndexes.ScanUnique` | rust/signal-core/src/store/repository.rs:203-212 | with unique keys and no collisions whatever row matches is the one the scan finds |
| `GroupIndexes.ScanFindsFirst` | rust/signal-core/src/backend/coordinator.rs:2186-2189 | the scan returns the first group with the identifier that the account belongs to |
| `GroupIndexes.HonestAfter` | rust/signal-core/src/backend/coordinator.rs:112-127 | the index only ever maps an identifier to a key with that identifier |
| `GroupIndexes.CollisionBreaksRefinement` | rust/signal-core/src/backend/coordinator.rs:2170-2194 | with colliding identifiers lookup and scan can disagree |
| `GroupIndexes.MetadataCache.ResolveActiveGroup` | rust/signal-core/src/backend/coordinator.rs:2170-2194 | the lookup and its repair of the index |
| `GroupTables.IdTablesInverse` | src/connection.c:248-271 | over every run of host events the key-to-id and id-to-key tables are inverse to each other, short of wrap-around |
| `GroupTables.IdsNeverReused` | src/connection.c:248-375 | an id once issued never names another group, short of wrap-around |
| `GroupTables.AllocationInverseIff` | src/connection.c:248-271 | allocating keeps the tables inverse if and only if the next id is not in use |
| `GroupTables.AuthoritativeSyncSweeps` | src/connection.c:696-784 | after an authoritative snapshot the active groups are exactly the announced ones, and a formerly active, unannounced group is gone from every table |
| `GroupTables.PreliminarySyncAdds` | src/connection.c:785-809 | a cached snapshot only adds active groups and does not complete |
| `GroupTables.SyncOpensJoins` | src/connection.c:773-809 | the end of a snapshot opens every pending join of a group that is then active; other joins are dropped by an authoritative snapshot and kept by a cached one |
| `GroupTables.JoinOutcomes` | src/connection.c:1902-1934 | exactly which join requests are opened, deferred or refused |
| `GroupTables.KnownEffect` | src/connection.c:248-271 | an id once given stays, a new key gets the next one, a nonempty title replaces the old, and nothing else changes |
| `GroupTables.SeenIsAnnounced` | src/contact_sync.c:22-61 | while a snapshot is in progress the mark set is the set of groups announced since it began |
| `GroupTables.DeactivatedKeeps` | src/connection.c:342-375 | a deactivated group is in no table; other groups keep their ids |
| `GroupTables.OpenedKeeps` | src/connection.c:812-834 | opening a group keeps the id tables inverse, gives away no issued id and leaves the active set alone |
| `GroupTables.OpenedTouchesOne` | src/connection.c:812-834 | a group that no table mentions stays unmentioned when another is opened |
| `GroupTableObjects.ContactSync.Begin` | src/contact_sync.c:22-30 | an empty mark set, active |
| `GroupTableObjects.ContactSync.Mark` | src/contact_sync.c:32-41 | marks a nonempty identifier while active |
| `GroupTableObjects.ContactSync.End` | src/contact_sync.c:53-61 | an empty mark set, inactive |
| `GroupTableObjects.ConnectionGroups.GroupId` | src/connection.c:248-271 | the id that the table then holds for the key, with the 32-bit counter |
| `GroupTableObjects.ConnectionGroups.OpenGroup` | src/connection.c:812-834 | refines opening a group |
| `GroupTableObjects.ConnectionGroups.RemovePendingReads` | src/connection.c:325-340 | the loop removes exactly the group's reads |
| `GroupTableObjects.ConnectionGroups.DeactivateGroup` | src/connection.c:342-375 | refines deactivation |
| `GroupTableObjects.ConnectionGroups.BeginGroupSync` | src/connection.c:578-587 | refines the start of a snapshot |
| `GroupTableObjects.ConnectionGroups.AddGroupEvent` | src/connection.c:589-632 | refines the announcement of a group |
| `GroupTableObjects.ConnectionGroups.AddGroupMemberEvent` | src/connection.c:634-650 | refines the announcement of a member |
| `GroupTableObjects.ConnectionGroups.StaleGroups` | src/connection.c:721-726 | lists exactly the active groups the snapshot did not mark |
| `GroupTableObjects.ConnectionGroups.TakeActiveJoins` | src/group_sync.c:186-210 | lists exactly the pending joins of active groups and clears all or just those |
| `GroupTableObjects.ConnectionGroups.EndGroupSync` | src/connection.c:696-810 | the loops of the sweep refine the end of a snapshot |
| `GroupTableObjects.ConnectionGroups.DeliverGroupEvent` | src/connection.c:902-926 | refines the delivery of group content |
| `GroupTableObjects.ConnectionGroups.ConfirmGroupLeave` | src/connection.c:1645-1684 | refines the confirmation of a leave |
| `GroupTableObjects.ConnectionGroups.JoinChatRequest` | src/connection.c:1902-1934 | refines a join request: opened, deferred or refused |
| `RustInlineGif.BoundedInlineGif` | rust/signal-core/src/backend/media.rs:209-310 | accepts exactly the byte strings that begin with the encoding of a well-formed GIF within all limits; terminates and reads in bounds |
| `RustInlineGif.SkipGifSubBlocks` | rust/signal-core/src/backend/media.rs:195-207 | succeeds exactly when a sub-block sequence parses and stops behind it |
| `RustInlineGif.AdvanceGifOffset` | rust/signal-core/src/backend/media.rs:187-193 | advances exactly when that stays inside the data |
| `RustInlineGif.GifU16` | rust/signal-core/src/backend/media.rs:182-185 | the little-endian word of the two bytes, exactly when both exist |
| `RustInlineGif.BoundedFrame` | rust/signal-core/src/backend/media.rs:257-306 | one image block: accepted exactly when it parses, fits the canvas and the frame budget, and the rest is acceptable |
| `RustInlineGif.BlocksAreBounded` | rust/signal-core/src/backend/media.rs:245-310 | the block loop decides the rest of the language |
| `CInlineGif.GifIsBounded` | src/inline_image.c:77-165 | accepts exactly the same language over a buffer and a size, and refuses a null buffer |
| `CInlineGif.AgreesWithBackend` | src/inline_image.c:77-165 | for every buffer the C and the Rust answers are equal |
| `CInlineGif.SkipSubBlocks` | src/inline_image.c:61-75 | succeeds exactly when a sub-block sequence parses and stops behind it |
| `CInlineGif.Advance` | src/inline_image.c:52-59 | advances exactly when that stays inside the buffer |
| `CInlineGif.ReadU16` | src/inline_image.c:46-50 | a little-endian word |
| `CInlineGif.HasPrefix` | src/inline_image.c:38-44 | prefix comparison that refuses null and short buffers |
| `CInlineGif.DimensionsAreSupported` | src/inline_image.c:173-180 | positive edges within the limits |
| `CInlineGif.FrameIsBounded` | src/inline_image.c:123-162 | one image block, as in the backend |
| `CInlineGif.BlocksAreBounded` | src/inline_image.c:112-165 | the block loop decides the rest of the language |
| `GifParser.ParseComplete` | rust/signal-core/src/backend/media.rs:209-310 | round trip: parsing an encoding gives back the image and what followed it |
| `GifParser.ParseSound` | rust/signal-core/src/backend/media.rs:209-310 | what parses is the encoding of a well-formed image |
| `GifParser.UniqueParse` | rust/signal-core/src/backend/media.rs:209-310 | no byte string begins with two different images |
| `GifParser.ParseDecides` | rust/signal-core/src/backend/media.rs:209-310 | the parser decides the accepted language |
| `GifParser.WalkDecides` | rust/signal-core/src/backend/media.rs:209-310 | the language in the order the implementations look at it, with the frame budget as a quotient |
| `GifParser.TrailingBytesIgnored` | rust/signal-core/src/backend/media.rs:245-310 | appending bytes to an accepted image keeps it accepted up to the size limit |
| `GifParser.EncodingIff` | rust/signal-core/src/backend/media.rs:245-310 | a string that parses is an image and nothing more exactly when nothing follows the trailer |
| `GifParser.AcceptedBeyondTrailer` | rust/signal-core/src/backend/media.rs:209-310 | a one-pixel image is accepted, and with any one byte appended it is still accepted and no longer an encoding |
| `GifFormat.PaletteIsPower` | rust/signal-core/src/backend/media.rs:236-243 | a colour table has three bytes for each of the two-to-the-(low bits plus one) colours |
| `GifParser.FullTableAccepted` | rust/signal-core/src/backend/media.rs:236-243 | an image with any 256-colour table of 768 bytes is accepted |

## Left out

- Presage, libsignal, SQLCipher and the network: their answers are free choices in the labels, and the durable store is a set of received and of projected messages.
- Classification of errors by text or status code: a free choice between success, retryable and permanent failure.
- The C interface itself: pointer validation, struct layouts and the table of event values.
- Purple, GLib and GdkPixbuf: conversations, buddy list, titles of open windows, notifications, dialogs and transfers.
- The group-sync fallback timer (src/connection.c:836-855): it opens groups while it walks the table that opening changes, so its effect depends on GLib's iterator.
- Hashing, QR and PNG rendering, avatars, ffmpeg and MIME detection; the identifier function of a group is a parameter, and where a property needs it to be free of collisions it says so.
- Real time: intervals, sleeps and the cleanup deadline are steps that may happen at any moment; only the delay arithmetic is kept.
- Poisoned mutexes and panics of the worker; the exhaustion panic of the timestamp allocator is modelled.
- Message text: quotes, mentions and view-once labels are part of a given text, and only the attachment placeholders are built.
- The `select!` loop of the worker is not a class: each of its arms is a label of the state machines, in any order the guards allow.
- Memory ordering: atomic accesses are sequentially consistent, except that the timestamp allocator's loads and failed exchanges may return any earlier value.
- Attachment request ids are taken to be used once; the host's 64-bit request counter is not modelled.
- Delivery.ProjectedOnlyAfterShown: excepts rows marked by the send path, for which the claim is false (`SendMarksAnyRow`), and speaks about runs in which no worker has used up all 64-bit delivery ids; after such a wrap-around an id can be reused while pending (`TrackCoupledIff`).
- How the store files a row under a thread, and which of several rows with one thread and time it returns: free choices. The retries of the bookkeeping after a send: it may happen at any later moment between messages, or never.
- ProjectionRuns.ProjectionCoupled: the same limit, with the same exact condition.
- GroupTables.IdTablesInverse: speaks about fewer than 2^32 issued chat ids; `AllocationInverseIff` gives the exact condition beyond.
- AttachmentOutcomes.CancelledErrorIffRaced: the source's intent is that a winning cancellation never leads to an error event; the code does not meet it inside one window, and the lemma states exactly when.
- Outboxes.AttemptsAreBounded: at most five attempts holds for attempts whose outcome is recorded; store writes are taken to succeed unless shutdown cuts the attempt off.
- EventQueueThreads.ChannelAnnounced: excludes runs with a hard error on the wake-byte write, for which it is false.
- Sessions.SessionState.MarkReady: requires what the source's debug assertion demands; `DebugAssertionsHold` shows that every call meets it.
