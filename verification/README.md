# Verification of the Matrix JS SDK's stateful core

A Dafny 4.11 model of the parts of the SDK whose correctness depends on unbounded runs: what is
accumulated from /sync responses, the window over a chain of timelines, the tracking of device lists,
the send queues, and five smaller state machines. `dafny verify dfyconfig.toml` checks everything.

Each component comes in two layers. A *model* module says what every operation and every promise
callback does to the state, as functions on values, and defines runs: any sequence of steps, in any
interleaving. A *class* module has the source's own form, fields that methods and loops update in
place, and each of its methods is proved to be one step of the model. The theorems are about runs of
the model, and so they hold of the classes.

| files | component |
|---|---|
| `SyncModel`, `SyncAccumulator` | `src/sync-accumulator.js`: state, timeline, receipts, invites, groups, snapshots |
| `SyncInvariants`, `SyncClobber`, `SyncNewest`, `SyncTimeline`, `SyncReplay`, `SyncSnapshot` | its theorems: consistency, invited and joined rooms, what clobbering keeps, what is newest, timeline bound and contiguity, replay and roll-back, snapshot round trip |
| `WindowModel`, `TimelineWindow` | `src/timeline-window.js` over `src/models/event-timeline.js`: cursors, window, refinement of a slice |
| `DeviceProtocol`, `DeviceFreshness`, `DeviceList` | `src/crypto/DeviceList.js`: tracking status, downloads and the query serialiser |
| `DeviceKeys` | `src/crypto/DeviceList.js`: identity-key index and stored device keys |
| `SchedulerModel`, `SchedulerQueue`, `Scheduler` | `src/scheduler.js`: queues, retries, back-off |
| `TimerModel`, `RealtimeCallbacks` | `src/realtime-callbacks.js`: the suspended-clock timer list |
| `CrossSigningModel`, `CrossSigning` | `src/crypto/CrossSigning.js`: the chain of keys and trust |
| `KeyRequestModel`, `KeyRequests`, `KeyRequestManager` | `src/crypto/OutgoingRoomKeyRequestManager.js` over a compare-and-set store |
| `MegolmModel`, `Megolm` | `src/crypto/OlmDevice.js`: inbound group sessions and message indexes |

Conventions. `Option` stands for a JavaScript value that may be falsy. The order in which a JavaScript
object lists its members is arbitrary: the loops pick members with `:|` and the specifications do not
depend on the order. Clocks, random seeds, the answers of the server and of Olm are parameters or steps.

## Where the code is not what it says, or not always right

- A room's snapshot replays to the accumulated state exactly if, for each key that the emitted timeline
  touches, the newest event that came for the key, be it in a timeline or in a `state` section, is the last
  one of that timeline (`SyncReplay.Replay`). One response keeps it so exactly if its `state` section agrees
  with the part of the timeline that is carried over, on keys that its own timeline does not touch
  (`SyncReplay.StepReplaysExactly`). `SyncReplay.StateAfterTimeline` is a run that replays or not depending
  on one event.
- A snapshot survives a round trip exactly if no room is both invited and joined
  (`SyncSnapshot.SnapshotRoundTrip`).
- The timeline limit is met after pruning exactly if one of the last entries has a token
  (`SyncTimeline.PruneMeetsLimit`).
- An event that is added at an end of a timeline through which a window runs shows up in the window, while
  `_eventCount` stays one short; otherwise the window stays as it is (`TimelineWindowClass.Deliver`, by
  `WindowModel.AppendShows` and `WindowModel.PrependShows`).
- After a failed key query the queued batch is not started (`DeviceFreshness.StrandedExactly`).
- `downloadKeys` joins a download that is recorded for a user even if its query was sent before the last
  invalidation, so that a caller may be served with a list that is known to be outdated
  (`DeviceFreshness.CallerIsServed` says exactly when, `DeviceFreshness.JoinsOlderDownload` is a run).
- What the user decides about a device while a response is processed is lost when the copy is written back;
  the device stays pinned to its signing key (`DeviceKeys.PinnedWhileDeciding`, `DeviceKeys.DecisionLost`).
- Removing the event that is being sent makes the scheduler drop the next one, unless the reply leads to a
  retry (`SchedulerQueue.RemovalIsSafeExactly`).
- The comment above `binarySearch` in `src/realtime-callbacks.js` speaks of the last element for which the
  function is positive; the code returns the first one.
- A `setKeys` that throws leaves the keys alone but may have changed `firstUse`
  (`CrossSigningModel.ThrowingSetKeys`), so that `firstUse` also goes off for a key that was never accepted
  (`CrossSigningModel.FirstUseIffOneKey`). A `resetKeys` for signing keys that is overtaken by a new master
  key stores keys that do not verify under it (`CrossSigningModel.ResetKeepsChainExactly`).
- The diagram in `src/crypto/OutgoingRoomKeyRequestManager.js` lacks the moves from CANCELLATION_PENDING to
  SENT and to CANCELLATION_PENDING_AND_WILL_RESEND. A late reply to a request can mark a record as SENT
  although its new request was never sent (`KeyRequests.TruthfulExactly`, `KeyRequests.LateReply`).
- A call that queues a room key request, with or without resending, is lost in two races
  (`KeyRequests.QueueTakesEffect` says exactly when it takes effect). It reads UNSENT, for which it has
  nothing to do, while a cancelling call deletes the record (`KeyRequests.QueueAfterUnsentLost`); or it reads
  CANCELLATION_PENDING, and the record is deleted before the compare-and-set, whose result is not looked at
  (`KeyRequests.QueueAfterCancellationLost`).
- A call that cancels one is lost if it reads UNSENT and the request is marked as SENT before it deletes
  the record, which it then does not (`KeyRequests.CancelTakesEffect`, `KeyRequests.CancelLost`).
- A request that is to be resent while its cancellation is pending already is sent under the transaction id
  under which the server has accepted it before; only from state SENT it gets a new one
  (`KeyRequests.ResentAnewExactly`).
- A megolm session loses its room exactly if a better one is offered without a room
  (`Megolm.RoomChangesExactly`); it never gets another one (`Megolm.OneRoomPerSession`).

## Model

| member | source | states |
|---|---|---|
| SyncTimeline.BoundAndContiguity | src/sync-accumulator.js:321-362 | on every run in which responses are within the limit and carry tokens, the kept timeline is within the limit, is everything since some response with no limited one after it, cannot reach further back, and holds the whole newest response |
| SyncTimeline.StartsAtToken | src/sync-accumulator.js:479-490 | the whole kept timeline is emitted and starts with the first event of the response whose token is the emitted `prev_batch` |
| SyncTimeline.TimelineIsFit | src/sync-accumulator.js:334-362 | pruning by jumping between tokens keeps exactly the longest suffix of whole responses that fits |
| SyncTimeline.PruneMeetsLimit | src/sync-accumulator.js:347-362 | without assumptions: pruning meets the limit if and only if there was nothing to prune or a late enough entry has a token |
| SyncReplay.Replay | src/sync-accumulator.js:321-362 | on any run, despite roll-back, limited resets and pruning: the emitted state rolled forward over the emitted timeline is the current state if and only if no `state` section brought the newest event for a key of that timeline, other than the timeline's own last one |
| SyncReplay.StepReplaysExactly | src/sync-accumulator.js:321-362 | one response, limited or not and with pruning, keeps a room replaying if and only if its `state` section and the carried-over timeline end with the same events on keys that both touch and its timeline does not |
| SyncReplay.AvoidingRunReplays | src/sync-accumulator.js:325-345 | every run replays in which `state` sections leave the keys of the kept timeline alone |
| SyncReplay.StateAfterTimeline | src/sync-accumulator.js:329-345 | a timeline event followed by a `state` event on the same key replays if and only if they are the same event |
| SyncReplay.StartThenTimeline | src/sync-accumulator.js:214-226 | the state at the start of the kept timeline, followed along a run whose `state` sections leave that timeline's keys alone, rolls forward to the current state |
| SyncReplay.RollBackOnAnyRun | src/sync-accumulator.js:492-525 | on any run with truthful `prev_content` and `prev_sender`, a key that the emitted timeline touches is emitted with the content and sender it had when the first emitted event on it came |
| SyncReplay.RollBackIsRight | src/sync-accumulator.js:492-525 | and if `state` sections leave the kept timeline alone, every key that had a value at the start of the emitted timeline is emitted with that value's content and sender |
| SyncReplay.RollBackIsFirst | src/sync-accumulator.js:495-515 | reverse clobbering keeps for each key what the first event on it replaced |
| SyncReplay.Commute | src/sync-accumulator.js:325-345 | event lists on different keys can be applied in either order |
| SyncSnapshot.SnapshotRoundTrip | src/sync-accumulator.js:417-541 | a fresh accumulator that is fed a snapshot has exactly the same snapshots if and only if no room is both invited and joined |
| SyncSnapshot.RunRoundTrip | src/sync-accumulator.js:138-174 | which holds on every run that follows the transition diagram |
| SyncSnapshot.RoomRoundTrip | src/sync-accumulator.js:437-527 | one room: a fresh room that is fed what a room emits emits the same |
| SyncSnapshot.ReceiptsRoundTrip | src/sync-accumulator.js:304-315 | inverting the receipt map to event-keyed form and accumulating it again gives the same map |
| SyncSnapshot.TimelineRoundTrip | src/sync-accumulator.js:479-490 | the emitted timeline and token, fed to an empty room, are kept and emitted unchanged |
| SyncSnapshot.Fed | src/sync.js:693-700 | what a fresh accumulator holds after a stored snapshot is processed like a response |
| SyncSnapshot.SnapshotReplays | src/sync-accumulator.js:516-525 | processing a room's part of any snapshot of a run gives the state accumulated for the room, under exactly the condition of `SyncReplay.Replay` |
| SyncInvariants.RunOk | src/sync-accumulator.js:90-95 | after any run, whatever the server sends: states and account data are filed under their own keys, the state covers the kept timeline, and a group is in one category |
| SyncInvariants.JoinedRoomIsItsRun | src/sync-accumulator.js:138-174 | a room is joined exactly if data was sent for it since its last join, and what is held for it depends on that data only; a leave that rejects an invitation does not count |
| SyncInvariants.InvitedRoomIsItsHistory | src/sync-accumulator.js:138-203 | a room is invited exactly if invite state was sent for it since its last join or leave; what is held is the first list in its order, then new keys as they arrived, with the newest event for each key |
| SyncInvariants.ResponseMoves | src/sync-accumulator.js:104-174 | which rooms are invited and joined after one response, from what it lists: a join accepts an invitation, also one of the same response, and a leave rejects an invitation or else leaves the room |
| SyncInvariants.DiagramSeparates | src/sync-accumulator.js:139-149 | on runs that follow the diagram no room is both invited and joined |
| SyncClobber.NewestAccountData | src/sync-accumulator.js:256-261 | of all account data the newest event of each type is kept, and other types are as before |
| SyncClobber.NewestReceipt | src/sync-accumulator.js:279-317 | a user's receipt is the newest one that any ephemeral event held for the user, or as before |
| SyncClobber.InviteOrder | src/sync-accumulator.js:186-202 | invite state keeps its order and one event for each type and state key |
| SyncClobber.NewestInvite | src/sync-accumulator.js:186-202 | for a key that was sent again the newest event is held |
| SyncClobber.OtherInvitesKept | src/sync-accumulator.js:186-202 | for all other keys the events are as before |
| SyncClobber.ClobberedIs | src/sync-accumulator.js:186-202 | the clobbered invite state in full: places and contents |
| SyncNewest.RoomHoldsNewest | src/sync-accumulator.js:251-317 | a joined room holds, of all that was sent since its join, the newest account data of each type, each user's newest receipt, the newest of each summary member (a count of zero does not replace one), and the newest unread counts |
| SyncNewest.RunHoldsNewest | src/sync-accumulator.js:90-102 | after any run: the newest account data of each type, each group in the category of the newest news about it and in no other, and the token of the newest response |
| SyncAccumulatorClass.SyncAccumulator.Accumulate | src/sync-accumulator.js:90-95 | one response updates rooms, groups, account data and token as the model says |
| SyncAccumulatorClass.SyncAccumulator.AccumulateRoom | src/sync-accumulator.js:138-174 | the room transitions, with an invitation withdrawn before a room is left |
| SyncAccumulatorClass.SyncAccumulator.AccumulateInviteState | src/sync-accumulator.js:176-203 | the nested loops clobber invite state by type and state key |
| SyncAccumulatorClass.SyncAccumulator.AccumulateJoinState | src/sync-accumulator.js:206-363 | the loops over account data, receipts, state and timeline compute the joined room of the model |
| SyncAccumulatorClass.SyncAccumulator.PruneTimeline | src/sync-accumulator.js:349-362 | the search for the first token within the limit |
| SyncAccumulatorClass.SyncAccumulator.AccumulateGroups | src/sync-accumulator.js:369-401 | a group moves to the category of its newest update |
| SyncAccumulatorClass.SyncAccumulator.GetJSON | src/sync-accumulator.js:417-541 | whatever the order of members, the result is a snapshot of the accumulator |
| SyncAccumulatorClass.EmitState | src/sync-accumulator.js:495-525 | the backward loop and the loop over the current state list the emitted state, each key once |
| SyncAccumulatorClass.EmitTimeline | src/sync-accumulator.js:480-490 | events before the first token are skipped and that token is emitted |
| SyncAccumulatorClass.EmitReceipts | src/sync-accumulator.js:456-477 | the receipts are listed by event, and only if there are any |
| WindowModel.BetweenIsSlice | src/timeline-window.js:385-418 | reading the timelines one by one between two cursors is slicing the flattened chain |
| WindowModel.AppendShows | src/models/event-timeline.js:330-336 | an event appended to a timeline leaves a window as it is if and only if the window does not run past the end of that timeline |
| WindowModel.PrependShows | src/models/event-timeline.js:330-339 | an event prepended to a timeline leaves a window as it is if and only if the window does not run into the start of that timeline |
| WindowModel.LinkAtEndShows | src/models/event-timeline.js:276-292 | a chain that is linked to the end of a window's chain does not show |
| WindowModel.LinkAtStartShows | src/models/event-timeline.js:276-292 | nor does one that is linked to its start |
| TimelineWindowClass.LinkedChain | src/models/event-timeline.js:276-292 | linking two chains makes one chain whose events are those of both, in order |
| WindowModel.AheadIs | src/timeline-window.js:472-514 | how far a cursor can move in one call: to the end of the timeline that holds the next event, wherever it stands; and it is zero exactly at the end of the chain |
| WindowModel.BehindIs | src/timeline-window.js:472-514 | the same towards the start |
| TimelineWindowClass.TimelineIndex.Advance | src/timeline-window.js:462-514 | the flattened position moves by exactly `delta`, or as far as there is room in the first timeline in that direction that has events, and the result is that number; it ends across empty timelines |
| TimelineWindowClass.TimelineIndex.Retreat | src/timeline-window.js:522-524 | the same in the other direction |
| TimelineWindowClass.TimelineWindow.Load | src/timeline-window.js:94-148 | throws exactly if the event is not in the timeline; else the window shows the part of the timeline around the event, or its newest events |
| TimelineWindowClass.TimelineWindow.Extend | src/timeline-window.js:180-204 | the window grows by exactly `size`, or by the room there is in one move, returns whether it grew, and drops exactly what exceeds the limit at the other end |
| TimelineWindowClass.TimelineWindow.Unpaginate | src/timeline-window.js:346-369 | drops exactly `delta` events at the chosen end; throws exactly if there are not that many, never for lack of progress |
| TimelineWindowClass.TimelineWindow.DropSome | src/timeline-window.js:355-368 | each round of the loop drops at least one event, and the start cursor stays at or before the end cursor |
| TimelineWindowClass.TimelineWindow.GetEvents | src/timeline-window.js:377-421 | returns the slice of the flattened chain between the cursors, `_eventCount` events |
| TimelineWindowClass.ReadChain | src/timeline-window.js:387-418 | the loop from timeline to timeline copies what lies between two cursors |
| TimelineWindowClass.EventTimelineSet.AddEvent | src/models/event-timeline.js:328-340 | adds the event at either end; at the start it raises the base index, so that relative indexes stay |
| TimelineWindowClass.EventTimelineSet.SetNeighbouringTimeline | src/models/event-timeline.js:276-292 | sets the neighbour in one direction, or throws exactly if there is one already |
| TimelineWindowClass.Deliver | src/models/event-timeline.js:300-340 | an event arriving anywhere in a window's chain: the window stays valid, with the same events, if and only if it does not run through that end of the timeline; else its count is one short |
| TimelineWindowClass.DeliverElsewhere | src/models/event-timeline.js:300-340 | an event arriving in a timeline outside the chain changes nothing for the window |
| TimelineWindowClass.LinkAtEnd | src/models/event-timeline.js:276-292 | linking another chain to the end of a loaded window's chain keeps the window valid, on the longer chain, with the same events |
| TimelineWindowClass.LinkAtStart | src/models/event-timeline.js:276-292 | the same at the start, where the window's place in the chain moves |
| DeviceFreshness.BecomesUpToDate | src/crypto/DeviceList.js:658-687 | in every interleaving a user becomes UP_TO_DATE only in the callback of a download whose query succeeded, was for the user, and was sent after the last invalidation or start of tracking |
| DeviceFreshness.ProcessesEveryUser | src/crypto/DeviceList.js:797-812 | if a query succeeded, exactly one step stored a result for each of its users, after it was sent and before it was completed |
| DeviceFreshness.UpToDateAfterResult | src/crypto/DeviceList.js:658-687 | in terms of the steps of a run: when a user becomes UP_TO_DATE a result was stored for this user, once, by a query sent after every invalidation of the user's list |
| DeviceFreshness.StaysFresh | src/crypto/DeviceList.js:494-587 | as long as a user is UP_TO_DATE no invalidation has come after such a query |
| DeviceFreshness.InProgressIsBacked | src/crypto/DeviceList.js:632-690 | IN_PROGRESS always means that the recorded promise belongs to a batch with the user that is queued, in flight, or settled with its callback to come |
| DeviceFreshness.OneQueryAtATime | src/crypto/DeviceList.js:739-830 | at most one query is being sent or processed, and the flag says whether there is one |
| DeviceFreshness.ResultsInOrder | src/crypto/DeviceList.js:693-701 | results are stored in the order in which their queries were sent |
| DeviceFreshness.SettlesWithAllUsers | src/crypto/DeviceList.js:739-761 | the query that settles a caller's promise was made for all the caller's users |
| DeviceFreshness.CallerIsServed | src/crypto/DeviceList.js:270-304 | for each user a caller of `downloadKeys` waits for, also by joining a download: when the promise settles a query was made for the user; and it was sent after the last invalidation before the call if and only if it was not sent before that invalidation |
| DeviceFreshness.JoinsOlderDownload | src/crypto/DeviceList.js:270-282 | a run in which a caller joins a download that is older than the last invalidation |
| DeviceFreshness.StrandedExactly | src/crypto/DeviceList.js:813-827 | a queued batch is left without a query ahead of it exactly after a failure with users queued, until a download is started |
| DeviceFreshness.NeverStranded | src/crypto/DeviceList.js:813-822 | never in runs without failures |
| DeviceFreshness.StatusDiagram | src/crypto/DeviceList.js:34-52 | in every step each user's status moves along the diagram only, and start, stop, invalidation and refresh have their effect |
| DeviceFreshness.DownloadKeysCovers | src/crypto/DeviceList.js:270-293 | after `downloadKeys` each user is up to date or has a download recorded, in any case if forced; recorded downloads stay, and no other one is started, not for a user who is UP_TO_DATE unless forced |
| DeviceFreshness.RefreshExactly | src/crypto/DeviceList.js:575-587 | a refresh starts one download for exactly the users whose lists are pending |
| DeviceFreshness.RestartKeeps | src/crypto/DeviceList.js:116-155 | what was saved after any run is loaded again, and only users in progress are pending |
| DeviceFreshness.RunKeeps | src/crypto/DeviceList.js:34-52 | the invariant of tracker and serialiser holds after every interleaving |
| DeviceListClass.DeviceListUpdateSerialiser.UpdateDevicesForUsers | src/crypto/DeviceList.js:739-761 | users join the queued batch, whose promise is returned; a query is sent if none is active |
| DeviceListClass.DeviceListUpdateSerialiser.DoQueuedQueries | src/crypto/DeviceList.js:763-784 | sends the queued batch; the "request active" guard is its precondition, which every caller meets |
| DeviceListClass.DeviceListUpdateSerialiser.Settled | src/crypto/DeviceList.js:813-827 | a query is done; only a success starts the queued batch |
| DeviceListClass.DeviceListUpdateSerialiser.ProcessUser | src/crypto/DeviceList.js:797-812 | one round of the loop over the users of a response |
| DeviceListClass.DeviceList.constructor | src/crypto/DeviceList.js:145-150 | downloads that were in progress when the client was shut down are pending again |
| DeviceListClass.DeviceList.StartTrackingDeviceList | src/crypto/DeviceList.js:494-512 | a user that is not tracked becomes pending |
| DeviceListClass.DeviceList.StopTrackingDeviceList | src/crypto/DeviceList.js:523-532 | a tracked user is not tracked any more; downloads go on |
| DeviceListClass.DeviceList.StopTrackingAllDeviceLists | src/crypto/DeviceList.js:540-545 | the loop stops tracking every user |
| DeviceListClass.DeviceList.InvalidateUserDeviceList | src/crypto/DeviceList.js:558-567 | the list of a tracked user becomes pending |
| DeviceListClass.DeviceList.RefreshOutdatedDeviceLists | src/crypto/DeviceList.js:575-587 | starts a download for exactly the users that are PENDING_DOWNLOAD |
| DeviceListClass.DeviceList.DownloadKeys | src/crypto/DeviceList.js:270-304 | starts a download for the users that have none recorded and are not up to date, or all of those if forced; and waits for that and for those it joins |
| DeviceListClass.DeviceList.DoKeyDownload | src/crypto/DeviceList.js:632-656 | records one promise for all users and moves the pending ones to IN_PROGRESS |
| DeviceListClass.DeviceList.OnFinished | src/crypto/DeviceList.js:658-687 | settles only users whose recorded promise is this one, and moves only those that are still IN_PROGRESS |
| DeviceKeys.RunSound | src/crypto/DeviceList.js:464-483 | over any run of replacements every entry of the index names an owner of the key |
| DeviceKeys.ReplaceComplete | src/crypto/DeviceList.js:597-615 | a replacement keeps the index complete if and only if no other user has a key that this user loses |
| DeviceKeys.RunIsLoaded | src/crypto/DeviceList.js:131-140 | while users' keys stay separate the index equals the one `load` builds from scratch |
| DeviceKeys.FromLoad | src/crypto/DeviceList.js:116-155 | from `load` on, over any run: every entry names an owner, and while users' keys stay separate the index is the one that `load` would build again |
| DeviceKeys.Pinned | src/crypto/DeviceList.js:970-982 | a device that stays keeps its fingerprint, verification and known flag through a response |
| DeviceKeys.NewIsSigned | src/crypto/DeviceList.js:913-965 | a device that appears had matching ids and a signature by the signing key that is stored |
| DeviceKeys.StaysExactly | src/crypto/DeviceList.js:892-904 | a stored device stays if and only if it is in the response; a new one is stored if and only if it is accepted |
| DeviceKeys.StoredExactly | src/crypto/DeviceList.js:888-992 | all that is stored for a device after a response: nothing, what was stored, or what the response says but for the user's decisions, each under its exact condition |
| DeviceKeys.PinnedForever | src/crypto/DeviceList.js:888-992 | over any number of responses, as long as the device is not dropped |
| DeviceKeys.PinnedWhileDeciding | src/crypto/DeviceList.js:839-860 | over any number of responses, each applied to a copy that is written back later, and decisions of the user at any time: a device that is never dropped stays pinned to its signing key, and what is stored about it is exactly what the decisions make of it other than those made between a copy and its writing back |
| DeviceKeys.DecisionLost | src/crypto/DeviceList.js:839-860 | such a decision is lost |
| DeviceKeys.NewestDecision | src/crypto/index.js:2106-2136 | after any decisions a device is blocked, verified and known as the newest decision that says something about it said, or as before |
| DeviceKeys.DeviceStore.constructor | src/crypto/DeviceList.js:131-140 | the loops of `load` index every defined key, each with one of its owners |
| DeviceKeys.DeviceStore.SetRawStoredDevicesForUser | src/crypto/DeviceList.js:597-615 | both loops: the user's old keys leave the index, the new ones join it |
| DeviceKeys.DeviceStore.CopyDevices | src/crypto/DeviceList.js:839-852 | the copy of the stored devices that a response is applied to |
| DeviceKeys.DeviceStore.FinishQueryResponse | src/crypto/DeviceList.js:852-860 | the updated copy replaces whatever is stored by then |
| DeviceKeys.DeviceStore.ProcessQueryResponseForUser | src/crypto/DeviceList.js:839-860 | both without interruption: from storage, through the update, back to storage |
| DeviceKeys.DeviceStore.SetDeviceVerification | src/crypto/index.js:2106-2136 | throws exactly if the device is unknown; else stores what was decided, through the index, if that changes anything |
| DeviceKeys.UpdateStoredDeviceKeysForUser | src/crypto/DeviceList.js:888-932 | the two loops: missing devices are dropped, accepted ones updated, all others kept |
| DeviceKeys.StoreDeviceKeys | src/crypto/DeviceList.js:939-992 | a device is changed, and reported as changed, exactly if it has a signing key that verifies it and is the one known |
| SchedulerQueue.Conservation | src/scheduler.js:194-282 | settled entries followed by queued ones are the enqueued minus the removed ones, in order, and no deferred is settled twice, for any retry algorithm |
| SchedulerQueue.NeverIdle | src/scheduler.js:194-227 | a queue is active exactly when one continuation is outstanding, and while there is a process function no queue with entries is idle |
| SchedulerQueue.RemovalIsSafeExactly | src/scheduler.js:79-94 | while an entry is being sent, a removal followed by any reply conserves the queue if and only if it spares that entry or the reply leads to a retry; and then the whole invariant holds |
| SchedulerQueue.InFlightLost | src/scheduler.js:236-242 | otherwise the removed entry is settled and the next one is gone without being sent |
| SchedulerQueue.RetryBound | src/scheduler.js:138-175 | over any run each entry backs off at most four times and 30000 ms in all, rate limits or not, and without them the process function is called at most five times |
| SchedulerQueue.BackoffBounded | src/scheduler.js:149-175 | the bound for any sequence of errors on one event |
| SchedulerQueue.RetriesExactly | src/scheduler.js:149-265 | over any run: a deferred is rejected exactly if the newest failure of its entry is permanent, or at least the fifth and without a waiting time from the server; every other failure waits for the server's time, or 2000, 4000, 8000 and 16000 ms; and there is one call for each failure, plus one that is under way or has succeeded |
| SchedulerQueue.RejectionExactly | src/scheduler.js:243-265 | what one rejection leads to, from the error and the number of failures before: the deferred is rejected and the next entry sent, or the queue stays and a timer is set for the promised time |
| SchedulerQueue.FiveCalls | src/scheduler.js:138-175 | an event with temporary failures only is given up after exactly five calls and 30000 ms of waiting |
| SchedulerQueue.RunAccounts | src/scheduler.js:243-265 | the attempts counter, the calls, the failures and the outcome of every entry agree, and giving up is final |
| Scheduler.MatrixScheduler.constructor | src/scheduler.js:41-53 | both algorithms are optional; the defaults are those of the source |
| Scheduler.MatrixScheduler.QueueEvent | src/scheduler.js:115-136 | the event joins the queue it is assigned to, and every inactive queue with entries is started |
| Scheduler.MatrixScheduler.RemoveEventFromQueue | src/scheduler.js:79-94 | the first entry with the event leaves its queue, and the result says whether there was one |
| Scheduler.MatrixScheduler.SetProcessFunction | src/scheduler.js:104-107 | with a process function every queue with entries is started; it may also be taken away |
| Scheduler.MatrixScheduler.StartProcessingQueues | src/scheduler.js:194-209 | the loop starts exactly the inactive queues with entries, once each |
| Scheduler.MatrixScheduler.ProcessQueue | src/scheduler.js:211-235 | sends the head or marks the queue inactive, and touches no other queue |
| Scheduler.MatrixScheduler.OnResolved | src/scheduler.js:236-242 | the head is shifted out and the deferred of the entry that was sent is settled |
| Scheduler.MatrixScheduler.OnRejected | src/scheduler.js:243-265 | the attempt is counted; the entry is settled if the retry algorithm gives up, else a timer is set |
| Scheduler.MatrixScheduler.CountFailure | src/scheduler.js:244-246 | one more attempt of the entry, for which the retry algorithm is asked |
| Scheduler.MatrixScheduler.OnTimer | src/scheduler.js:261-263 | a retry sends whatever is the head then |
| TimerModel.SortedAndArmed | src/realtime-callbacks.js:70-145 | after any sequence of steps the list is sorted by deadline and registration, and a non-empty list has a real timer armed for the first deadline or 1000 ms after arming |
| TimerModel.TakesExactlyTheDue | src/realtime-callbacks.js:147-162 | a run takes exactly the due callbacks, in order |
| TimerModel.CalledOnceUnlessCleared | src/realtime-callbacks.js:106-119 | every callback is called at most once, and never if it was cleared while listed |
| TimerModel.NoneForgotten | src/realtime-callbacks.js:169-177 | and once nothing is listed or being called, every key was called or cleared |
| TimerModel.CallbacksAreRegistered | src/realtime-callbacks.js:70-94 | every callback that is listed or called is one that was registered, with its function and with a deadline of its delay (none if negative) after the call, and is taken only when that has passed |
| TimerModel.CalledUnlessClearedInTime | src/realtime-callbacks.js:106-177 | a callback whose key was cleared while it was listed is never called; and once nothing is listed or being called, exactly the others were |
| TimerModel.AllCanBeCalled | src/realtime-callbacks.js:128-177 | nothing gets stuck: after any run, if time goes on, all callbacks that were not cleared in time get called |
| RealtimeCallbacks.Callbacks.SetTimeout | src/realtime-callbacks.js:70-99 | the callback is inserted behind those that are due no later, and the timer is armed again |
| RealtimeCallbacks.Callbacks.ClearTimeout | src/realtime-callbacks.js:106-125 | the callback with the key leaves the list; the timer is armed again only if it was the first |
| RealtimeCallbacks.Callbacks.RunCallbacks | src/realtime-callbacks.js:147-167 | the due callbacks are popped and the timer is armed for the rest before any is called |
| RealtimeCallbacks.Callbacks.CallNext | src/realtime-callbacks.js:169-177 | the callbacks that were taken are called in order, one at a time |
| RealtimeCallbacks.Callbacks.ScheduleRealCallback | src/realtime-callbacks.js:128-145 | arms the timer for the first callback, or for none if the list is empty |
| RealtimeCallbacks.BinarySearch | src/realtime-callbacks.js:186-204 | finds where the callbacks end that are due no later |
| CrossSigningModel.RunKeepsChain | src/crypto/CrossSigning.js:269-432 | over any run in which no reset of signing keys is overtaken by a new master key, the stored signing keys are the user's own and verify under the stored master key |
| CrossSigningModel.ResetKeepsChainExactly | src/crypto/CrossSigning.js:306-347 | the end of such a reset keeps the chain if and only if the master key is the one it began with |
| CrossSigningModel.DisturbedReset | src/crypto/CrossSigning.js:306-347 | a run in which it is not, and the chain is broken |
| CrossSigningModel.ThrowingSetKeys | src/crypto/CrossSigning.js:362-416 | a throwing `setKeys` leaves the keys as they were; exactly when it changes `firstUse` |
| CrossSigningModel.AcceptsExactlyChains | src/crypto/CrossSigning.js:362-432 | after any such run `setKeys` accepts offered keys if and only if there would be a master key and the keys would form a chain, and stores just these keys |
| CrossSigningModel.ResetsExactly | src/crypto/CrossSigning.js:269-353 | which keys `resetKeys` replaces: all, without a level, with the master key or if there is none yet; else those of the level, if the private master key is at hand; no others |
| CrossSigningModel.FirstUseIffOneKey | src/crypto/CrossSigning.js:371-378 | for a user whose keys are only set, accepted or not: `firstUse` holds if and only if all the user's master keys offered from the first accepted one on are the same key, which is then the stored one |
| CrossSigningModel.LatchStays | src/crypto/CrossSigning.js:434-440 | once a user was verified, that is remembered over any run |
| CrossSigningModel.UserTrustExactly | src/crypto/CrossSigning.js:497-523 | a user is reported as verified if and only if it is us or our master key signed our user-signing key and that the user's master key; as verified before if and only if it is us, or we have a user-signing key and the user was ever verified |
| CrossSigningModel.VerifiedIffChain | src/crypto/CrossSigning.js:492-564 | a device is reported as cross-signing verified if and only if there is an unbroken chain of signatures from our master key to it, or through our own identity |
| CrossSigning.CrossSigningInfo.SetKeys | src/crypto/CrossSigning.js:362-432 | throws exactly if the offered keys are not acceptable, and then leaves the keys alone; else a new master key takes all offered keys with it, and without one the offered signing keys replace the old ones |
| CrossSigning.CrossSigningInfo.ResetKeys | src/crypto/CrossSigning.js:269-353 | throws exactly if the app cannot save keys, or if the private master key is needed and not found |
| CrossSigning.CrossSigningInfo.FinishResetKeys | src/crypto/CrossSigning.js:294-347 | creates, signs and stores the keys of the level |
| CrossSigning.CrossSigningInfo.ClearKeys | src/crypto/CrossSigning.js:358-360 | all keys are unset |
| CrossSigning.CrossSigningInfo.UpdateCrossSigningVerifiedBefore | src/crypto/CrossSigning.js:434-440 | the latch is set or stays |
| KeyRequests.OneRecordPerBody | src/crypto/OutgoingRoomKeyRequestManager.js:135-146 | in every interleaving of any number of tabs there is at most one record for a request body |
| KeyRequests.MovesAlongDiagram | src/crypto/OutgoingRoomKeyRequestManager.js:33-60 | every step moves every record along the state machine: deletion only from UNSENT or CANCELLATION_PENDING, and from WILL_RESEND only to UNSENT |
| KeyRequests.ResendNotLost | src/crypto/OutgoingRoomKeyRequestManager.js:168-226 | a record that is to be resent stays so, for the same request, until it is UNSENT again, whatever is cancelled and whichever replies are late |
| KeyRequests.SentWasRequested | src/crypto/OutgoingRoomKeyRequestManager.js:418-440 | a record that is not UNSENT stands for a request the server accepted |
| KeyRequests.ForgottenAfterCancellation | src/crypto/OutgoingRoomKeyRequestManager.js:444-473 | a record that is not UNSENT is deleted, or made UNSENT again, only after the server accepted a cancellation |
| KeyRequests.SendRound | src/crypto/OutgoingRoomKeyRequestManager.js:378-473 | after any run, a round of the send loop marks an UNSENT record as SENT, deletes one whose cancellation is pending, and makes one that is to be resent UNSENT, with the message the server accepts; other records stay |
| KeyRequests.ResendIsSent | src/crypto/OutgoingRoomKeyRequestManager.js:378-473 | so whatever has happened, two rounds cancel and send again a request that is to be resent |
| KeyRequests.CancellationReplyExactly | src/crypto/OutgoingRoomKeyRequestManager.js:444-473 | in any interleaving the reply to a cancellation has its effect exactly if the record is still in the state in which it was taken up |
| KeyRequests.ResentAnewExactly | src/crypto/OutgoingRoomKeyRequestManager.js:153-198 | a request that is to be resent goes out under a new transaction id if and only if it was SENT when resending was asked for |
| KeyRequests.QueueTakesEffect | src/crypto/OutgoingRoomKeyRequestManager.js:135-226 | over all runs, however stale the reading: after a queueing call acts, a request is held (with `resend`, one still to be sent) if and only if one was held already, or none was found when adding, or the compare-and-set finds the state that was read (if not, a call that read SENT starts over) |
| KeyRequests.QueueLeaves | src/crypto/OutgoingRoomKeyRequestManager.js:139-226 | what a queueing call leaves behind: it adds one record with a new id exactly if none was found, takes back a pending cancellation if it does not ask for resending, and starts over exactly if it is to resend a request that was SENT and is not any more |
| KeyRequests.OnlyResendsOnRequest | src/crypto/OutgoingRoomKeyRequestManager.js:153-205 | a record becomes one to be resent only by a queueing call for its request that asks for resending |
| KeyRequests.QueueAfterUnsentLost | src/crypto/OutgoingRoomKeyRequestManager.js:148-152 | a run in which a call reads UNSENT, a cancellation deletes the record, and nothing is left and nothing will be sent, with or without `resend` |
| KeyRequests.QueueAfterCancellationLost | src/crypto/OutgoingRoomKeyRequestManager.js:153-166 | a run in which a call reads CANCELLATION_PENDING and the record is deleted before its compare-and-set |
| KeyRequests.CancelTakesEffect | src/crypto/OutgoingRoomKeyRequestManager.js:236-313 | over all runs, however stale the reading: after a cancelling call acts, no UNSENT or SENT record is left if and only if there was none or the record is still in the state that was read |
| KeyRequests.CancelLeaves | src/crypto/OutgoingRoomKeyRequestManager.js:239-312 | a cancelling call deletes the record if it is still UNSENT, makes its cancellation pending and goes on to send it if it is still SENT, and changes nothing else |
| KeyRequests.CancelLost | src/crypto/OutgoingRoomKeyRequestManager.js:249-264 | a run in which a call reads UNSENT, the request is sent and marked, and the cancellation has no effect |
| KeyRequests.TruthfulExactly | src/crypto/OutgoingRoomKeyRequestManager.js:432-439 | records that say SENT were sent under their current transaction id: every step keeps that but the marking on a late reply, which does only if the message was accepted under the current id as well |
| KeyRequests.RunTruthful | src/crypto/OutgoingRoomKeyRequestManager.js:432-439 | and so in every run without late replies |
| KeyRequests.LateReply | src/crypto/OutgoingRoomKeyRequestManager.js:378-440 | a run with a late reply after which a record says SENT and was not sent |
| KeyRequestManager.CryptoStore.GetOrAddOutgoingRoomKeyRequest | src/crypto/store/indexeddb-crypto-store-backend.js:57-88 | adds a record exactly if none has the body |
| KeyRequestManager.CryptoStore.UpdateOutgoingRoomKeyRequest | src/crypto/store/indexeddb-crypto-store-backend.js:271-297 | compare-and-set on the state: assigns the given members, or reports that there was nothing to update |
| KeyRequestManager.CryptoStore.GetOutgoingRoomKeyRequest | src/crypto/store/indexeddb-crypto-store-backend.js:123-151 | the cursor finds the record with the body, or there is none |
| KeyRequestManager.CryptoStore.GetOutgoingRoomKeyRequestByState | src/crypto/store/indexeddb-crypto-store-backend.js:163-204 | finds a record in the first of the given states that any record is in, or there is none in any of them |
| KeyRequestManager.CryptoStore.DeleteOutgoingRoomKeyRequest | src/crypto/store/indexeddb-crypto-store-backend.js:308-328 | deletes a record exactly if it is in the expected state |
| KeyRequestManager.Managers.OnQueueRead | src/crypto/OutgoingRoomKeyRequestManager.js:139-225 | every case of `queueRoomKeyRequest` once the record is read, with the retry after a race |
| KeyRequestManager.Managers.OnRead | src/crypto/OutgoingRoomKeyRequestManager.js:136-138 | a call reads the record with its request body, or learns that there is none |
| KeyRequestManager.Managers.OnCancelRead | src/crypto/OutgoingRoomKeyRequestManager.js:239-312 | every case of `cancelRoomKeyRequest` |
| KeyRequestManager.Managers.OnCommit | src/crypto/OutgoingRoomKeyRequestManager.js:434-472 | what follows the server's answer |
| KeyRequestManager.Managers.OnDelivered | src/crypto/OutgoingRoomKeyRequestManager.js:476-488 | the server has accepted a message |
| KeyRequestManager.Managers.SendOutgoingRoomKeyRequests | src/crypto/OutgoingRoomKeyRequestManager.js:378-405 | one round of the send loop, which takes up cancellations before new requests |
| Megolm.KnowsLowestIndex | src/crypto/OlmDevice.js:1026-1056 | over any run the stored session's first known index is the minimum over all accepted offers for it |
| Megolm.RoomChangesExactly | src/crypto/OlmDevice.js:967-974 | a step changes a session's room exactly if a better session is offered without a room |
| Megolm.RoomNeverChanges | src/crypto/OlmDevice.js:1002-1064 | over any run of offers with a room it never changes |
| Megolm.AcceptsExactly | src/crypto/OlmDevice.js:997-1024 | after any run an offer is accepted exactly if Olm takes it under the right id and it is for no room, for the room of the stored session, or the first that is accepted |
| Megolm.OnlyBetterReplaces | src/crypto/OlmDevice.js:1026-1060 | an accepted offer replaces the stored session, with room and data, exactly if it knows an earlier index than every accepted offer before |
| Megolm.OneRoomPerSession | src/crypto/OlmDevice.js:967-974 | over any run, and whatever is offered in between, all messages of a session that are decrypted for a room are decrypted for the same room |
| Megolm.OneEventPerIndex | src/crypto/OlmDevice.js:1189-1215 | all successful decryptions that report one index of one session have the same event id and timestamp |
| Megolm.OneEventPerIndexInSteps | src/crypto/OlmDevice.js:1189-1215 | the same in terms of the steps of a run that decrypt a message |
| Megolm.SuccessesAre | src/crypto/OlmDevice.js:1189-1215 | the recorded successes are exactly those steps |
| Megolm.ReplayExactly | src/crypto/OlmDevice.js:1189-1215 | for keys and session ids without bars, a message is rejected as a replay if and only if another event was decrypted under the same index of the same session |
| Megolm.DecryptsExactly | src/crypto/OlmDevice.js:1136-1239 | after any run a message is decrypted if and only if an offer of its session was accepted, the room is right, Olm decrypts it, and no other event had its index; and the newest reason for withholding is reported exactly if there is no session, or none that reaches back far enough |
| Megolm.WithholdingChangesNothing | src/crypto/OlmDevice.js:957-981 | a session that was withheld and is shared later works as if it had never been withheld |
| Megolm.IndexKeyInjective | src/crypto/OlmDevice.js:1107-1109 | the joined key determines sender key, session id and index |
| Megolm.OlmDevice.AddInboundGroupSession | src/crypto/OlmDevice.js:997-1064 | accepts an offer exactly for the right room and id, and replaces a session only by one that knows an earlier index |
| Megolm.OlmDevice.GetInboundGroupSession | src/crypto/OlmDevice.js:957-981 | throws exactly if a room is given and it is not the one of the stored session |
| Megolm.OlmDevice.AddInboundGroupSessionWithheld | src/crypto/OlmDevice.js:1075-1092 | the newest reason why a session is withheld is kept |
| Megolm.OlmDevice.DecryptGroupMessage | src/crypto/OlmDevice.js:1099-1239 | the outcome in every case, also for withheld sessions; nothing changes unless the message is decrypted |

## Left out

- `TimelineWindow.paginate` and `canPaginate`: requests for more events; what they add arrives as events and links.
- `EventTimeline.removeEvent` and the room state that timelines carry.
- TimelineWindowClass.TimelineWindow.Load: which timeline of the set holds the event, or is the live one, is a parameter.
- SyncAccumulatorClass.SyncAccumulator.AccumulateInviteState: the source shares the event array of the first response; the model copies it.
- SyncModel: summaries keep only the three members the accumulator merges, and receipt contents only `m.read`.
- `DeviceList.saveIfDirty`, storage of device lists and events that are emitted; an error while one user's keys are processed is not told apart from success, as in the source.
- DeviceListClass.DeviceListUpdateSerialiser.ProcessUser: the users of a response are processed in any order; the source takes them in the order of `Object.keys`.
- Cross-signing keys in key query responses: `setKeys` is modelled with `CrossSigningInfo`.
- Scheduler.MatrixScheduler.OnResolved: the values with which deferreds are settled are not modelled.
- CrossSigningModel: a key info holds one key; `saveCrossSigningKeys` does not throw; the private keys that are handed to it are left out.
- KeyRequestManager.Managers: one object stands for the managers of all tabs, request and transaction ids are unique among them, and equality of request bodies is taken as given.
- The delay timer and the running flags of `OutgoingRoomKeyRequestManager`: any send loop may run at any time, so several at once are covered.
- Olm, AES and IndexedDB themselves, HTTP, push rules, filters, WebRTC and the wrappers around them.
