# A model of autopush: stored-message delivery, registry, broadcasts, storage keys

Autopush keeps push messages for browsers. `autoconnect` holds a WebSocket session for each connected
browser, `autoendpoint` accepts messages from application servers, and both store them in DynamoDB or
Bigtable through `autopush-common`. This project models the parts on which it depends that no message is
silently lost, and proves properties of them.

## How it is built

- **Delivery of stored messages.** `Notifications`, `Storage` (one user's rows) and `Sessions` (the session
  machine as functions); `WebPushClient` is the session object, each method proved equal to its function.
  `PointerSafety` and `PointerLimits` are about runs of many sessions over one store, at the grain of one
  read of a batch; `Consistency` ties the methods to those runs; `Drain` is about one session that reads out
  its store, in one exchange after another; `TopicMessages` is about topic messages.
- **Registry and lifecycle.** `Registry` has the registry object and the end of a session; `Lifecycle` is
  about runs of any number of sessions over one registry, with the accounts of each.
- **Broadcasts.** `Broadcasts` (functions), `BroadcastTracker` (the objects), `BroadcastRuns` (runs of one
  tracker and many clients, with a history of versions by change count), `BroadcastPolling`.
- **Bigtable's chunk merger.** `Chunks` and `RowMerging` (what each state does with a chunk), `RowMerger`
  (the object and `process_chunks`), and theorems in `RowReading`, `RowRoundTrip`, `RowResets`, `RowKeys`,
  `RowLimits` and `RowStreams`.
- **Keys.** `Text`, `SortKeys`, `Records`, `MessageIds`; `KeyOrder`, `RangeQueries` and `Partitions` show that
  the databases' queries by ranges of strings are the numeric queries of `Storage`.
- **Migration.** `DualMigration` is about interleaved `get_user` calls; `DualClient` has the method.

`dafny verify dfyconfig.toml` checks everything.

## What the theorems assume

- New timestamp messages are stored above every timestamp read so far and under timestamps not yet taken
  (`AllFresh`). `LateWriteSkippedIff` and `SplitTieSkippedIff` show what happens otherwise.
- The clock does not go back. It stands still within one handler, and in runs within one read of a batch.
- A step of a store is atomic. A failing database or connection ends the session (`Close`); a row that
  expires in the database is a `Delete`.
- Numbers are unbounded where the program's cannot overflow in practice: counters below 2^32, and
  `timestamp + ttl` below 2^64. Keys and ids have their 64 and 128 bits.
- Every uid of a session is new, as a version 4 UUID is.

## What turned out not to hold

- A message stored late, at or below what a session has read, is passed by the pointer unread
  (`LateWriteSkippedIff`), and so is one behind a tie that the batch limit cuts (`SplitTieSkippedIff`,
  `BatchCompleteIffNoSplit`); `LateWriteHappens` and `SplitTieHappens` are runs from the first connection.
- The ack of a topic message deletes a newer message stored meanwhile under the same topic
  (`ReplacementSurvivesIff`).
- Without its registry row DynamoDB drops the first topic message (`FirstTopicIsReadIff`).
- A session can fail internally when others delete its rows (`CheckStorageFailsIff`).
- A broadcast called "errors" can be overwritten by the list of missing ids (`ResponseCarriesIff`).
- The merger refuses cells that are cut into several chunks as usual, since it asks for labels where its
  message complains of them (`SplitCellIff`, `SplitCellIsRefused`); labels pile up from cell to cell
  (`OwnLabelsIff`, `LabelIsPassedOn`); a family left out is the row's first, not the last, against the comment
  at merge.rs:83 (`FamiliesContinueIff`, `OmittedFamilyIsMisread`), and survives a reset (`ResetInvisibleIff`);
  keys that are not UTF-8 overwrite one another (`KeyAdvancesIff`, `InvalidKeysCollide`).
- On DynamoDB a message with more than 30 days to live, which the endpoint accepts up to 60, can outlive its
  row (`RowOutlivesMessageIff`); Bigtable keeps a row for the whole time to live.
- Timestamps of different widths are compared as text (`QueryIsNumericIff`, `FourteenDigitsAreMissed`).
- Direct notifications of one channel that are unacked when their session ends can fall on one row
  (`SavedRowsCollideIff`). Bigtable is sent them one after another, so the last stays; DynamoDB is sent them
  in one batch, and what it makes of two writes to one key is not part of this model.
- A migration that fails half way loses the user's channels, and a failing secondary reads as "no such user"
  (`ChannelsLostIff`, `MigrationIsSafe`).
- The comment at db/mod.rs:254 calls the timestamp of a key microseconds; the code stores milliseconds, and so
  does the model.

## Model

| member | source | states |
|---|---|---|
| `PointerSafety.PointerSafety` | autoconnect/autoconnect-ws/autoconnect-ws-sm/src/identified/on_server_notif.rs:65-164 | In every interleaving of stored writes, deletions, storage checks, direct notifications, any acks, session starts and ends, failures and clock steps, with fresh and distinct sort timestamps: each timestamp message at or below the persisted pointer was acked, deleted or has expired, and every other one is still stored where the next session will read |
| `PointerLimits.RecordIsEarned` | autoconnect/autoconnect-ws/autoconnect-ws-sm/src/identified/on_client_msg.rs:184-247 | The acks and deletions that the safety theorem counts are real: a message enters the record only through an ack that names it or a deletion of its key |
| `PointerLimits.AckingEverythingSettles` | autoconnect/autoconnect-ws/autoconnect-ws-sm/src/identified/on_client_msg.rs:291-315 | In any world, fresh writes or not, acking everything moves the pointer to the highest timestamp read and settles just what was on the unacked list |
| `PointerLimits.LateWriteSkippedIff` | autoconnect/autoconnect-ws/autoconnect-ws-sm/src/identified/on_server_notif.rs:138-147 | A message stored while a session waits for its last ack is passed by the pointer if and only if it is at or below the highest timestamp read; it is unsettled, and no session has it on its list |
| `PointerLimits.LateWriteFromStart` | autoconnect/autoconnect-ws/autoconnect-ws-sm/src/identified/on_server_notif.rs:54-164 | The same at the end of a run that begins with the first connection |
| `PointerLimits.LateWriteHappens` | autoconnect/autoconnect-ws/autoconnect-ws-sm/src/identified/on_server_notif.rs:138-147 | With a message at 5 read and one at 4 stored before the ack, the second is passed |
| `PointerLimits.SplitTieSkippedIff` | autoconnect/autoconnect-ws/autoconnect-ws-sm/src/identified/on_server_notif.rs:215-256 | The first message beyond a full batch, which is not sent, is passed by the pointer once the batch is acked if and only if the limit cut through equal timestamps |
| `PointerLimits.SplitTieFromStart` | autoconnect/autoconnect-ws/autoconnect-ws-sm/src/identified/on_server_notif.rs:215-256 | The same at the end of a run that begins with the first connection |
| `PointerLimits.SplitTieHappens` | autoconnect/autoconnect-ws/autoconnect-ws-sm/src/identified/on_server_notif.rs:230-234 | Of eleven messages with one timestamp the eleventh is passed |
| `Storage.BatchCompleteIffNoSplit` | autopush-common/src/db/dynamodb/mod.rs:445-501 | The timestamp a batch reports covers exactly what the batch holds if and only if the limit does not cut through equal timestamps |
| `Drain.DrainTheorem` | autoconnect/autoconnect-ws/autoconnect-ws-sm/src/identified/on_server_notif.rs:54-164 | From a storage check of any session that is not in an exchange, over a fixed store, whatever is acked in whatever order and grouping: what was sent is a prefix of the unexpired messages, topics first and each once; if they are within the message limit all are sent, and the session goes on, owing nothing, unless the user’s record is of an old version, which ends it in a reset; beyond the limit the user is reset; and a reset takes the user’s record away, nothing else does |
| `Drain.RoundsFinish` | autoconnect/autoconnect-ws/autoconnect-ws-sm/src/identified/on_client_msg.rs:180-248 | Wherever an exchange has got to, enough rounds of acks of everything end it |
| `Drain.RoundsServe` | autoconnect/autoconnect-ws/autoconnect-ws-sm/src/identified/on_client_msg.rs:180-248 | A client that acks each batch at once is sent everything it is owed, if that is within the limit, and is reset otherwise, or after everything if its record is of an old version |
| `Drain.NewClientIsServed` | autoconnect/autoconnect-ws/autoconnect-ws-sm/src/identified/mod.rs:92-134 | So is a client that has just connected, within the limit and under the flags that its session was given |
| `Drain.FinishedIsReady` | autoconnect/autoconnect-ws/autoconnect-ws-sm/src/identified/on_server_notif.rs:105-114 | A session that has finished an exchange without failing is ready for another one on the same terms: nothing is flagged, nothing unacked, and the count of sent messages has started again |
| `Drain.LaterExchangeServes` | autoconnect/autoconnect-ws/autoconnect-ws-sm/src/identified/on_server_notif.rs:54-164 | So each later exchange of a session serves the client as the first did, the limit counting afresh |
| `Drain.BatchSizes` | autoconnect/autoconnect-ws/autoconnect-ws-sm/src/identified/on_server_notif.rs:176-257 | The first batch has ten messages if none is expired, or eleven topic messages on Bigtable |
| `Drain.DiligentClientIsServed` | autoconnect/autoconnect-ws/autoconnect-ws-sm/src/identified/on_client_msg.rs:180-248 | The same for a client that acks in any order and in any groups, each ack message naming something unacked, once it has sent as many ack messages as it is owed messages |
| `Sessions.LoopStepProgress` | autoconnect/autoconnect-ws/autoconnect-ws-sm/src/identified/on_server_notif.rs:65-87 | Each turn of the loop that returns nothing stops checking, or leaves the topics for good, or deletes an expired topic message, or passes a timestamp message, so the loop ends |
| `Consistency.DebugAssertionsHold` | autoconnect/autoconnect-ws/autoconnect-ws-sm/src/identified/on_client_msg.rs:291-315 | The four debug assertions around the loop, which is entered with nothing unacked: messages to send mean it is still checking; none means it stopped, with nothing left to increment and still nothing unacked |
| `Consistency.LoopStepOutcome` | autoconnect/autoconnect-ws/autoconnect-ws-sm/src/identified/on_server_notif.rs:65-87 | What one turn of the loop leaves: within the limit, and with something unacked if it sends |
| `Consistency.RunsAreConsistent` | autoconnect/autoconnect-ws/autoconnect-ws-sm/src/identified/on_server_notif.rs:264-282 | In every run in which nobody else deletes rows, no session fails with the internal error of an increment without a timestamp, none exceeds its limit, and one that waits in mid-storage has something to be acked |
| `Consistency.CheckStorageFailsIff` | autoconnect/autoconnect-ws/autoconnect-ws-sm/src/identified/on_server_notif.rs:54-87 | A storage check fails internally if and only if an increment is pending and there is neither a row left nor a timestamp to start from |
| `Consistency.LoopResetsIff` | autoconnect/autoconnect-ws/autoconnect-ws-sm/src/identified/on_server_notif.rs:65-87 | The loop ends in a reset if and only if more was sent than the limit allows |
| `Consistency.LoopUser` | autoconnect/autoconnect-ws/autoconnect-ws-sm/src/identified/on_server_notif.rs:289-307 | A check of storage takes the user’s record away if and only if it ends in a reset |
| `Consistency.AckUser` | autoconnect/autoconnect-ws/autoconnect-ws-sm/src/identified/on_client_msg.rs:291-330 | And so does an ack message |
| `Consistency.AckResetsIff` | autoconnect/autoconnect-ws/autoconnect-ws-sm/src/identified/on_client_msg.rs:291-330 | Which it does if and only if more was sent than the limit allows, or the user’s record is of an old version and nothing is left to ack or to send |
| `Consistency.AckTakesFirst` | autoconnect/autoconnect-ws/autoconnect-ws-sm/src/identified/on_client_msg.rs:184-247 | One ack takes one message: the first direct notification it names, else the first stored message, else none |
| `Consistency.AcksAreCounted` | autoconnect/autoconnect-ws/autoconnect-ws-sm/src/identified/on_client_msg.rs:194-238 | The counts of acked messages go up by exactly what leaves the unacked lists |
| `Consistency.DeletedRowsCanFail` | autoconnect/autoconnect-ws/autoconnect-ws-sm/src/identified/on_server_notif.rs:264-282 | It does fail so when the only sent and unacked message has been deleted |
| `Consistency.CheckStorageIsARun` | autoconnect/autoconnect-ws/autoconnect-ws-sm/src/identified/on_server_notif.rs:54-87 | The storage check of the session object is the run of single steps that the safety theorem is about |
| `Consistency.AckIsARun` | autoconnect/autoconnect-ws/autoconnect-ws-sm/src/identified/on_client_msg.rs:180-330 | And so is its handling of an ack |
| `TopicMessages.FirstTopicIsReadIff` | autopush-common/src/db/dynamodb/mod.rs:418-443 | The first topic message is read if and only if the registry row precedes it (or the store is Bigtable): DynamoDB drops whatever row comes first |
| `TopicMessages.IncrementKeepsFirstTopic` | autopush-common/src/db/dynamodb/mod.rs:503-530 | Writing the pointer brings the registry row about, so that no topic message is dropped from then on and DynamoDB reports the pointer with the topics |
| `TopicMessages.ReplacementSurvivesIff` | autoconnect/autoconnect-ws/autoconnect-ws-sm/src/identified/on_client_msg.rs:203-225 | A newer message of the same topic stored while the older one is unacked survives the ack of the older if and only if its key differs |
| `TopicMessages.TopicLostOnlyIf` | autoconnect/autoconnect-ws/autoconnect-ws-sm/src/identified/on_server_notif.rs:105-136 | In every run, from any world: a stored topic message that is gone at the end left at a step that replaced it, deleted it, saw it expired, or acked a message sent under its key |
| `TopicMessages.TopicLeavesOnlyIf` | autoconnect/autoconnect-ws/autoconnect-ws-sm/src/identified/on_client_msg.rs:203-238 | The same of one step |
| `WebPushClients.Connect` | autoconnect/autoconnect-ws/autoconnect-ws-sm/src/identified/mod.rs:92-134 | A new session is the initial one of the specification, and has checked storage if its flags say so |
| `WebPushClients.WebPushClient.constructor` | autoconnect/autoconnect-ws/autoconnect-ws-sm/src/identified/mod.rs:107-121 | The fields of a new session |
| `WebPushClients.WebPushClient.OnServerNotif` | autoconnect/autoconnect-ws/autoconnect-ws-sm/src/identified/on_server_notif.rs:19-28 | Each server notification takes session and store where the specification says |
| `WebPushClients.WebPushClient.OnServerNotifShutdown` | autoconnect/autoconnect-ws/autoconnect-ws-sm/src/identified/on_server_notif.rs:33-38 | While the queue is drained a notification joins the unacked direct ones and everything else is dropped |
| `WebPushClients.WebPushClient.Notif` | autoconnect/autoconnect-ws/autoconnect-ws-sm/src/identified/on_server_notif.rs:41-48 | A direct notification with a time to live is kept as unacked |
| `WebPushClients.WebPushClient.CheckStorage` | autoconnect/autoconnect-ws/autoconnect-ws-sm/src/identified/on_server_notif.rs:54-59 | The method equals the specified check of storage |
| `WebPushClients.WebPushClient.CheckStorageLoop` | autoconnect/autoconnect-ws/autoconnect-ws-sm/src/identified/on_server_notif.rs:65-87 | The loop equals the specified one, on session, store and answer, and ends |
| `WebPushClients.WebPushClient.CheckStorageAdvance` | autoconnect/autoconnect-ws/autoconnect-ws-sm/src/identified/on_server_notif.rs:89-164 | One read of a batch equals the specified one, which `LaterExchangeServes`, `TopicMessages` and `PointerSafety` are about |
| `WebPushClients.WebPushClient.Retain` | autoconnect/autoconnect-ws/autoconnect-ws-sm/src/identified/on_server_notif.rs:105-132 | The in-place filter splits a batch into the unexpired messages and the expired topic messages |
| `WebPushClients.WebPushClient.DoCheckStorage` | autoconnect/autoconnect-ws/autoconnect-ws-sm/src/identified/on_server_notif.rs:176-257 | The choice between topics and timestamp messages, and of the timestamp to start from |
| `WebPushClients.WebPushClient.IncrementStorage` | autoconnect/autoconnect-ws/autoconnect-ws-sm/src/identified/on_server_notif.rs:264-282 | Writes the highest timestamp read as the pointer, or fails when there is none |
| `WebPushClients.WebPushClient.CheckMsgLimit` | autoconnect/autoconnect-ws/autoconnect-ws-sm/src/identified/on_server_notif.rs:289-307 | Removes the user exactly when more was sent than the limit allows |
| `WebPushClients.WebPushClient.Ack` | autoconnect/autoconnect-ws/autoconnect-ws-sm/src/identified/on_client_msg.rs:180-248 | The whole handling of an ack equals the specified one |
| `WebPushClients.WebPushClient.AckUpdate` | autoconnect/autoconnect-ws/autoconnect-ws-sm/src/identified/on_client_msg.rs:184-235 | One ack takes the first matching direct notification, else the first matching stored one, and deletes it if it is a topic message |
| `WebPushClients.WebPushClient.PostProcessAllAcked` | autoconnect/autoconnect-ws/autoconnect-ws-sm/src/identified/on_client_msg.rs:291-330 | What happens once everything is acked equals what is specified, of which `AckResetsIff`, `AckUser` and `DrainTheorem` say when it resets the user |
| `WebPushClients.WebPushClient.SaveUnackedDirectNotifs` | autoconnect/autoconnect-ws/autoconnect-ws-sm/src/identified/mod.rs:211-255 | The shutdown hands over every unacked direct notification, with a sort timestamp left to the clock and all else as it is (`SavedIsReadBackIff`), and keeps none |
| `Lifecycle.DirectConservation` | autoconnect/autoconnect-common/src/registry.rs:54-68 | In every run of any number of sessions, of the notifications with a time to live that were accepted for a session each is queued, unacked, acked or was unacked at its end, counted with multiplicity; after its end only the last two; no more count as acked than the acks of the run name; and what was unacked at the end was handed to be saved, each with all it holds but for the sort timestamp |
| `Lifecycle.PushReaches` | autoconnect/autoconnect-common/src/registry.rs:54-82 | In every run what is pushed to a registered user becomes the next item of the registered session’s queue and of no other, and counts as accepted if it is a notification; what is pushed to anybody else changes nothing |
| `Lifecycle.RegistryAnswers` | autoconnect/autoconnect-common/src/registry.rs:54-94 | In every run the registry accepts a push if and only if the user is registered, and confirms a departure if and only if the registration was the session’s own |
| `Lifecycle.NoTtlNoWaiting` | autoconnect/autoconnect-ws/autoconnect-ws-sm/src/identified/on_server_notif.rs:41-48 | In every run a notification without a time to live is not waited for |
| `Lifecycle.AckNamed` | autoconnect/autoconnect-ws/autoconnect-ws-sm/src/identified/on_client_msg.rs:184-202 | An ack message takes no more copies of a notification off the unacked list than it names |
| `Lifecycle.GhostingIsSafe` | autoconnect/autoconnect-common/src/registry.rs:34-51 | In every run a disconnect is the last item ever queued for a session; a registered session has none and is registered once; a running session that is no longer registered still has one to receive |
| `Lifecycle.OnlyOwnDepartures` | autoconnect/autoconnect-common/src/registry.rs:85-94 | A session leaves the registry only by its own departure or when its uaid is taken over, so a ghosted session never removes its successor |
| `Lifecycle.EndingHandsOverAll` | autoconnect/autoconnect-ws/src/handler.rs:71-86 | Leaving, closing, draining and shutting down hands over the unacked and then the queued notifications, each with all it holds, and counts them |
| `ClientRegistries.ClientRegistry.Connect` | autoconnect/autoconnect-common/src/registry.rs:34-51 | Takes over the uaid and tells the previous session to disconnect |
| `ClientRegistries.ClientRegistry.Notify` | autoconnect/autoconnect-common/src/registry.rs:54-68 | Queues the notification exactly when a reachable session is registered, which in every run is when the user is registered (`PushReaches`) |
| `ClientRegistries.ClientRegistry.CheckStorage` | autoconnect/autoconnect-common/src/registry.rs:71-82 | Queues the request exactly when a reachable session is registered |
| `ClientRegistries.ClientRegistry.Disconnect` | autoconnect/autoconnect-common/src/registry.rs:85-94 | Removes the entry exactly when it is of this session |
| `ClientRegistries.EndSession` | autoconnect/autoconnect-ws/src/handler.rs:70-80 | What is saved at the end is what was unacked, then what was queued |
| `ClientRegistries.DrainQueue` | autoconnect/autoconnect-ws/src/handler.rs:75-78 | The loop moves every queued notification, in order, to the unacked ones |
| `BroadcastRuns.Convergence` | autoconnect/autoconnect-common/src/broadcast.rs:168-322 | In every run of updates, Hellos, subscriptions and periodic deltas over many clients, a client that merges each delta holds, of every broadcast it is subscribed to, the version current at its change count |
| `BroadcastRuns.HearingMakesCurrent` | autoconnect/autoconnect-common/src/broadcast.rs:234-309 | In every run a client that hears from the tracker, by the reply to its Hello or to a subscription or by a periodic delta, then holds the current version of everything it is subscribed to |
| `BroadcastRuns.SubscribedIffRequested` | autoconnect/autoconnect-common/src/broadcast.rs:261-309 | Which is what it asked for and is known: a Hello begins afresh, a subscription adds, nothing else changes it |
| `BroadcastRuns.OutdatedIff` | autoconnect/autoconnect-common/src/broadcast.rs:261-309 | For its claims a client is sent, of each broadcast that is known and claimed in another version, the current one, and nothing else |
| `BroadcastPolling.NewTrackerHolds` | autoconnect/autoconnect-common/src/broadcast.rs:141-153 | A new tracker holds, at count zero, each of its first broadcasts under its id and version, the last given if an id is given twice, and no other |
| `BroadcastRuns.SubscribedOrMissing` | autoconnect/autoconnect-common/src/broadcast.rs:261-322 | Every requested broadcast is subscribed or reported missing, never both |
| `Broadcasts.ScanIsFilter` | autoconnect/autoconnect-common/src/broadcast.rs:234-257 | The reverse scan with its early exit returns exactly the subscribed broadcasts that changed after the client’s count, with current versions |
| `Broadcasts.ScanOnce` | autoconnect/autoconnect-common/src/broadcast.rs:234-257 | And each once |
| `Broadcasts.AddBroadcastsValid` | autoconnect/autoconnect-common/src/broadcast.rs:158-231 | Every update keeps the registry a bijection and the change list in order, ending at the change count |
| `BroadcastRuns.AddEffect` | autoconnect/autoconnect-common/src/broadcast.rs:168-231 | One update changes nothing, or one version and one place in the order of changes |
| `BroadcastPolling.AddAllEffect` | autoconnect/autoconnect-common/src/broadcast.rs:158-164 | Updates with distinct ids set each to its version, leave the rest and count exactly the news |
| `BroadcastPolling.PollingIsIdempotent` | autoconnect/autoconnect-common/src/broadcast.rs:158-231 | Polling the same updates twice leaves the tracker as once |
| `BroadcastPolling.PollingOrder` | autoconnect/autoconnect-common/src/broadcast.rs:158-231 | Any order of the updates gives the same versions and the same change count |
| `BroadcastPolling.ResponseCarriesIff` | autoconnect/autoconnect-ws/autoconnect-ws-sm/src/identified/on_client_msg.rs:154-177 | A reply carries an id’s version if and only if the id is not "errors" or nothing is missing |
| `BroadcastPolling.ErrorsListMissing` | autoconnect/autoconnect-ws/autoconnect-ws-sm/src/identified/on_client_msg.rs:162-172 | It has no other entries, and the entry "errors" names exactly the requested ids that are unknown, each as not found |
| `BroadcastPolling.ErrorsBroadcastIsLost` | autoconnect/autoconnect-ws/autoconnect-ws-sm/src/unidentified.rs:176-192 | So a broadcast called "errors" can be counted as sent and yet be overwritten |
| `BroadcastTrackers.BroadcastRegistry.AddBroadcast` | autoconnect/autoconnect-common/src/broadcast.rs:49-57 | The lookup object equals the specified registration |
| `BroadcastTrackers.BroadcastChangeTracker.constructor` | autoconnect/autoconnect-common/src/broadcast.rs:141-153 | The new tracker equals the specified one, of which `NewTrackerHolds` says what it holds |
| `BroadcastTrackers.BroadcastChangeTracker.AddBroadcasts` | autoconnect/autoconnect-common/src/broadcast.rs:158-164 | The loop equals the specified fold |
| `BroadcastTrackers.BroadcastChangeTracker.AddBroadcast` | autoconnect/autoconnect-common/src/broadcast.rs:168-183 | Updates a known broadcast, registers a new one |
| `BroadcastTrackers.BroadcastChangeTracker.UpdateBroadcast` | autoconnect/autoconnect-common/src/broadcast.rs:188-231 | The in-place update of counter, version and change list equals the specified one |
| `BroadcastTrackers.BroadcastChangeTracker.ChangeCountDelta` | autoconnect/autoconnect-common/src/broadcast.rs:234-257 | The scan with break equals the specified delta, and moves the client’s count |
| `BroadcastTrackers.BroadcastChangeTracker.BroadcastDelta` | autoconnect/autoconnect-common/src/broadcast.rs:261-284 | The first subscription of a client |
| `BroadcastTrackers.BroadcastChangeTracker.SubscribeToBroadcasts` | autoconnect/autoconnect-common/src/broadcast.rs:289-309 | Later subscriptions of a client |
| `BroadcastTrackers.BroadcastChangeTracker.MissingBroadcasts` | autoconnect/autoconnect-common/src/broadcast.rs:312-322 | The unknown ids among those requested |
| `RowRoundTrip.TableRoundTrip` | autopush-common/src/db/bigtable/bigtable_client/merge.rs:377-451 | Rows sent in key order, one whole cell a chunk, come back exactly and nothing else does, however the stream is cut into responses |
| `RowRoundTrip.RowComesBack` | autopush-common/src/db/bigtable/bigtable_client/merge.rs:286-364 | Cells spelled out under distinct qualifiers come back one by one |
| `RowReading.FirstOfRunsIs` | autopush-common/src/db/bigtable/bigtable_client/merge.rs:286-332 | Under each qualifier a row keeps the first cell of that qualifier’s last run of one family and qualifier |
| `RowReading.FirstOfRunsOnly` | autopush-common/src/db/bigtable/bigtable_client/merge.rs:286-332 | And it keeps nothing else |
| `RowReading.CellsKeptIff` | autopush-common/src/db/bigtable/bigtable_client/merge.rs:308-332 | A row comes back with as many cells as were sent if and only if no two share a qualifier, in whatever family, and the first is not nameless |
| `RowResets.ResetErasesRow` | autopush-common/src/db/bigtable/bigtable_client/merge.rs:91-129 | Anywhere in a stream, deleting an aborted row with its reset leaves the result as it is, provided the next row’s first chunk names its family |
| `RowResets.ResetInvisibleIff` | autopush-common/src/db/bigtable/bigtable_client/merge.rs:91-165 | Whatever follows, the reset is invisible if and only if the aborted row’s first chunk did not change the family last seen |
| `RowKeys.OneRowPerCommit` | autopush-common/src/db/bigtable/bigtable_client/merge.rs:400-437 | Through commits, resets and last scanned keys, with UTF-8 keys, no committed row is overwritten: one row for each commit |
| `RowKeys.FeedKeyed` | autopush-common/src/db/bigtable/bigtable_client/merge.rs:351-364 | Each commit adds its row under a key above all the others |
| `RowKeys.KeyAdvancesIff` | autopush-common/src/db/bigtable/bigtable_client/merge.rs:150-160 | A committed row, of one chunk or several, moves the last seen key up if and only if its own key is UTF-8 |
| `RowKeys.InvalidKeysCollide` | autopush-common/src/db/bigtable/bigtable_client/merge.rs:159 | Two rows whose keys are not UTF-8 become one |
| `RowLimits.FamiliesContinueIff` | autopush-common/src/db/bigtable/bigtable_client/merge.rs:193-202 | A cell without a family gets the last one named if and only if the row has not moved on from its first family |
| `RowLimits.OmittedFamilyIsMisread` | autopush-common/src/db/bigtable/bigtable_client/merge.rs:193-202 | A row whose third cell is read into its first family |
| `RowLimits.SplitCellIff` | autopush-common/src/db/bigtable/bigtable_client/merge.rs:236-283 | A cell cut into several chunks, within its row or at the end of it, is put together if and only if every piece after the first bytes carries labels |
| `RowLimits.SplitCellIsRefused` | autopush-common/src/db/bigtable/bigtable_client/merge.rs:265-269 | A value in two pieces that the whole stream fails on |
| `RowLimits.LabelIsPassedOn` | autopush-common/src/db/bigtable/bigtable_client/merge.rs:212-217 | A row whose second cell gets the label of its first |
| `RowLimits.OwnLabelsIff` | autopush-common/src/db/bigtable/bigtable_client/merge.rs:212-217 | Each cell of a row has its own labels if and only if none but the last was sent with any |
| `RowStreams.ChunkAcceptedIff` | autopush-common/src/db/bigtable/bigtable_client/merge.rs:91-348 | A chunk is accepted if and only if it keeps the conditions of the state it comes in, listed for a reset, for the beginning of a row or cell and for its continuation |
| `RowStreams.KeyChangeRefusedIff` | autopush-common/src/db/bigtable/bigtable_client/merge.rs:183-190 | A chunk with another row’s key within a row is refused if and only if a cell of a family with a name was read |
| `RowStreams.StreamAcceptedIff` | autopush-common/src/db/bigtable/bigtable_client/merge.rs:367-374 | A stream each chunk of which is accepted is accepted if and only if its last chunk, if there is any, commits or resets its row |
| `RowStreams.ScannedAcceptedIff` | autopush-common/src/db/bigtable/bigtable_client/merge.rs:400-408 | A last scanned key is accepted if and only if it is UTF-8 and above every key before it |
| `RowStreams.ScannedBars` | autopush-common/src/db/bigtable/bigtable_client/merge.rs:400-408 | From then on a row is accepted only from above it |
| `RowMergers.RowMerger.ResetRow` | autopush-common/src/db/bigtable/bigtable_client/merge.rs:91-129 | The reset and its error cases |
| `RowMergers.RowMerger.StartOfRow` | autopush-common/src/db/bigtable/bigtable_client/merge.rs:133-165 | The first chunk of a row and its error cases |
| `RowMergers.RowMerger.StartOfCell` | autopush-common/src/db/bigtable/bigtable_client/merge.rs:169-232 | The first chunk of a cell, what it takes out of the chunk, and its error cases |
| `RowMergers.RowMerger.MoreOfCell` | autopush-common/src/db/bigtable/bigtable_client/merge.rs:236-283 | A further chunk of a cell and its error cases |
| `RowMergers.RowMerger.EndOfCell` | autopush-common/src/db/bigtable/bigtable_client/merge.rs:286-348 | The end of a cell |
| `RowMergers.RowMerger.EndOfRow` | autopush-common/src/db/bigtable/bigtable_client/merge.rs:351-364 | The end of a row |
| `RowMergers.RowMerger.ReadCell` | autopush-common/src/db/bigtable/bigtable_client/merge.rs:422-429 | A chunk through the two states that read a cell |
| `RowMergers.RowMerger.Take` | autopush-common/src/db/bigtable/bigtable_client/merge.rs:410-448 | One chunk through the states that feed into one another |
| `RowMergers.ProcessChunks` | autopush-common/src/db/bigtable/bigtable_client/merge.rs:377-451 | The nested loops over responses and chunks equal the specified reading of the stream, errors included |
| `SortKeys.ParseUndoesPrintIff` | autopush-common/src/db/mod.rs:289-349 | Parsing a printed key gives it back if and only if its topic or version is nonempty and has neither colon nor white space, and its timestamp fits 64 bits |
| `SortKeys.ParsesIffSpells` | autopush-common/src/db/mod.rs:289-349 | Any text is parsed as a key if and only if it is the key’s prefix, its UUID in some spelling, and its topic, time or version, with colons between them |
| `SortKeys.PrintIsInjective` | autopush-common/src/notification.rs:46-65 | Two such keys never print alike, so the store’s rows are the specification’s keys |
| `SortKeys.ThirdPatternDecides` | autopush-common/src/db/mod.rs:290-302 | The first two key patterns accept nothing that the third does not |
| `Records.RecordRoundTripIff` | autopush-common/src/db/mod.rs:352-389 | A saved notification is read back, as storage makes it, if and only if its key can be parsed |
| `Records.RecordUnchangedIff` | autopush-common/src/db/mod.rs:352-389 | And just as it was saved if and only if a topic excluded a sort timestamp, the timestamp was not left to the clock, and only the four known headers were there |
| `Records.MapRoundTrip` | autopush-common/src/db/models.rs:24-45 | Storing headers keeps the four known ones and drops the others |
| `Records.HeadersRoundTrip` | autopush-common/src/db/models.rs:24-45 | And those four survive in either direction |
| `Records.RowOutlivesMessageIff` | autopush-common/src/db/mod.rs:377-389 | However late it is saved, DynamoDB’s row is kept as long as the message lives if and only if the message asks for at most 30 days; and it is kept neither beyond those nor beyond the message’s own time to live, from its saving on |
| `Records.RowReadIff` | autopush-common/src/db/mod.rs:352-375 | A row with a storable key is read if and only if it has a timestamp and a version, the one in its key first; without a time to live it has none left |
| `MessageIds.DecryptUndoesEncryptIff` | autoendpoint/src/extractors/message_id.rs:47-106 | A message id survives encryption and decryption if and only if its topic has no colon and its timestamp fits 64 bits; otherwise it is refused |
| `MessageIds.DecodesIffSpells` | autoendpoint/src/extractors/message_id.rs:77-106 | Whatever a token decrypts to, it is taken for an id if and only if it is the id’s prefix, its two UUIDs in some spelling, and its topic or time |
| `MessageIds.SortKeyIsStoredKeyIff` | autoendpoint/src/extractors/message_id.rs:117-138 | The sort key of a message’s id is the key the message is stored under if and only if it has a topic or a nonzero sort timestamp |
| `MessageIds.DeletionTargetsStoredRowIff` | autoendpoint/src/extractors/notification.rs:94-151 | Posted, converted, saved and read back, a message carries a version that decrypts to its id: the user’s, and, if and only if the sort timestamp was not left to the clock, that of the row it is in |
| `MessageIds.PostedIsReadBack` | autoendpoint/src/extractors/notification.rs:94-119 | Posted, converted, saved and read back, a message has the contents, the time to live, the times and each of the encryption headers it was posted with |
| `Text.U64RoundTripIff` | autopush-common/src/db/mod.rs:325-330 | A decimal timestamp survives printing and parsing if and only if it fits 64 bits |
| `Text.U64ParsesIff` | autopush-common/src/db/mod.rs:325-330 | A text is read as a number if and only if it is a numeral, after a plus sign or none, whose value fits |
| `Text.OtherSpellings` | autopush-common/src/db/mod.rs:311 | A UUID is also read in braces, as a URN and in capitals |
| `Text.HyphenatedRoundTrip` | autopush-common/src/notification.rs:47 | A hyphenated UUID parses as itself |
| `Text.SimpleRoundTrip` | autoendpoint/src/extractors/message_id.rs:56-57 | And so does a simple one |
| `RangeQueries.TopicRangeIs` | autopush-common/src/db/dynamodb/mod.rs:388-397 | "Below 02" selects exactly the topic rows and the registry row, which comes first |
| `RangeQueries.WholeTimestampRangeIs` | autopush-common/src/db/dynamodb/mod.rs:452-457 | "Above 01;" selects exactly the timestamp rows |
| `RangeQueries.TimestampRangeIs` | autopush-common/src/db/dynamodb/mod.rs:452-469 | "Above 02:{ts}:z" selects exactly the timestamp rows that print after it |
| `RangeQueries.QueryIsNumericIff` | autopush-common/src/db/dynamodb/mod.rs:452-469 | Which is the rows with a larger number if and only if the two numbers are of one width or their common digits agree with their order; on Bigtable alike |
| `RangeQueries.NextWidthIsMissed` | autopush-common/src/db/bigtable/bigtable_client/mod.rs:1275-1286 | Wherever timestamps grow by a digit, the first of the new width is missed by a reader that has read up to the last of the old |
| `RangeQueries.FourteenDigitsAreMissed` | autopush-common/src/db/bigtable/bigtable_client/mod.rs:1275-1286 | So it is between 13 and 14 digits of milliseconds |
| `RangeQueries.MillisecondsComparable` | autopush-common/src/notification.rs:56-61 | Times in milliseconds from 2001 to 2286 are of one width |
| `KeyOrder.UuidOrder` | autopush-common/src/notification.rs:47 | Hyphenated UUIDs sort as their numbers |
| `Partitions.RowsInKeyOrder` | autopush-common/src/db/dynamodb/mod.rs:383-443 | When the stored timestamps are of one decimal width, the databases’ order by printed keys is the registry row, the topics, then the timestamp messages by number |
| `Partitions.TopicQueryRefines` | autopush-common/src/db/dynamodb/mod.rs:383-443 | Reading topics by the string range is the fetch that the session theorems are about |
| `Partitions.TimestampQueryRefines` | autopush-common/src/db/dynamodb/mod.rs:445-501 | And so is reading timestamp messages by the string range, with the timestamp either database reports, when the start is comparable with every stored timestamp (`QueryIsNumericIff` says when it is) |
| `Partitions.EitherReports` | autopush-common/src/db/bigtable/bigtable_client/mod.rs:1311-1316 | The last timestamp of a batch, which Bigtable reports, is the greatest, which DynamoDB reports |
| `Partitions.SavedRowsCollideIff` | autoconnect/autoconnect-ws/autoconnect-ws-sm/src/identified/mod.rs:221-235 | Two direct notifications saved together at the end of a session fall on one row if and only if they are of one channel and one topic, or of no topic and saved in one millisecond |
| `Partitions.SavedIsReadBackIff` | autoconnect/autoconnect-ws/autoconnect-ws-sm/src/identified/mod.rs:221-235 | A direct notification saved at the end of a session is read back with its contents, its known headers and the time of saving, if and only if its topic can be a key or, without one, the time fits |
| `Partitions.SaveKeepsSorted` | autopush-common/src/db/dynamodb/mod.rs:532-553 | Saving and removing keep the topics in key order |
| `DualMigration.MigrationIsSafe` | autopush-common/src/db/dual/mod.rs:220-274 | Whatever the interleaving of calls and whatever fails: at most one step adds the user to the primary, every record returned is the primary’s and is the secondary’s under a new version, a call finds no user if and only if at one of its steps its read of the secondary failed, and none is told to back off |
| `DualMigration.EveryCallReturnsTheRecord` | autopush-common/src/db/dual/mod.rs:220-274 | Without failures exactly one add takes effect and every call that returns returns that record |
| `DualMigration.FiveTurnsFinish` | autopush-common/src/db/dual/mod.rs:220-274 | Five calls to the stores finish any call, whatever the others do |
| `DualMigration.WinnerCopiesChannels` | autopush-common/src/db/dual/mod.rs:254-259 | Once the call that added the user has returned it, the primary has the secondary’s channels |
| `DualMigration.ChannelsLostIff` | autopush-common/src/db/dual/mod.rs:238-259 | The channels never reach the primary in any continuation if and only if the user was added, nobody is about to copy them, and nobody did; in any other world some continuation brings them |
| `DualMigration.FailedCopyLosesChannels` | autopush-common/src/db/dual/mod.rs:254-259 | So they are when the call that added the user fails before it copies them |
| `DualMigration.ReturnMayPrecedeChannels` | autopush-common/src/db/dual/mod.rs:222-224 | Even without failures a call may return the user before the channels are in the primary |
| `DualMigration.NothingIsMigrated` | autopush-common/src/db/dual/mod.rs:220-274 | When the user is in the primary already, or in neither store, every call answers with what the primary has or with the fault it met, and changes nothing |
| `DualMigration.AllottedIff` | autopush-common/src/db/dual/mod.rs:157-168 | A user is allotted to the primary if and only if the first two digits of the id or the last two are not above the configured byte |
| `DualClients.DualClient.CopyUser` | autopush-common/src/db/dual/mod.rs:238-267 | The copying half of the method: the conditional add, the second read if another call was first, then the channels |
| `DualClients.DualClient.GetUser` | autopush-common/src/db/dual/mod.rs:157-274 | The method, with every outcome of every call to a store, is the run of the step relation in which nobody else takes a turn; other users are untouched |

## Left out

- Legacy-keyed rows in the store: `Storage` holds topic and timestamp messages; the legacy key is printed and parsed in `SortKeys` only.
- DynamoDB's limit of 1 MB a page, and records that fail to convert and are skipped: a batch is what the query's limit allows.
- Retries, timeouts, pools, metrics, logs and settings; HTTP, WebSocket and gRPC framing; the stream errors of the chunk reader.
- Encryption: a token is anything that decrypts to the text; header validation and the FCM, APNS and ADM routers.
- What becomes of the messages handed to `save_messages` in its own task, and the request to the session's next node to look at storage.
- Registering, unregistering, nacks, pings and the ping timer; the legacy `autopush` crate, an older form of the same machines.
- Messages stored between the first storage check and the entry into the registry are not shown to be delivered at once, only not to be lost.
- The columns of Bigtable's user row, its incomplete records and its version checks on update: the migration uses stores that keep a user and its channels.
- Removal and update of a user during its migration, and the dual client's other methods, which write to both stores.
- Row expiry and garbage collection as such: a row that disappears is a deletion by somebody else.
- DualClients.DualClient.GetUser: the method is stated for one call at work, so its caller never sees the re-read after a lost race; `CopyUser` has that branch, and `DualMigration` the interleaved calls.
