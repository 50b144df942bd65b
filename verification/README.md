# Verification of the Alertmanager webhook relay

The relay accepts Alertmanager webhooks over HTTP, validates them, stores each alert group in SQLite, and delivers
stored groups to notification channels (Pachca, e-mail) from a background dispatcher. This project models that pipeline
in Dafny and proves what holds in every run of it. `dafny verify dfyconfig.toml` checks everything.

## What is modelled

**The running relay** (`Relay.dfy`) is one state machine: the dispatcher goroutine with the locals of `poll` and
`fanOutAndCollect`, one worker goroutine per channel, the per-channel queues, the shared results channel, the store,
the HTTP handlers that save groups, and `run` in main.go that starts and stops them. One action is one atomic step of one
goroutine: a channel operation, an atomic load or compare-and-swap, one store call (the pool has a single connection), or
the return of one `Send`. Actions interleave freely and a Go `select` takes any ready case; `Enqueue` is two steps. A log
of events and a version number per `Save` are history on which no action depends.

* `RelayInvariant.dfy` and `RelayHistory.dfy`: the inductive invariants and their preservation by every action.
* `RelayTheorems.dfy`, `RelaySettlement.dfy`, `RelayVersions.dfy`: no cross-talk between groups, conservation of every
  accepted notification, when exactly `MarkSent` is called, which payload was delivered, and what a channel can be given.
* `RelayProgress.dfy`, `RelayShutdown.dfy`: deadlock freedom with a decreasing measure, loss-free shutdown, its order, and
  when `run` returns.
* `RelayOutside.dfy`: what the outside world can do at any moment, told by the steps taken so far.
* `RelayBacklog.dfy`, `RelayPending.dfy`, `RelayStarvation.dfy`, `RelayBlocking.dfy`: how fast a backlog is worked off,
  what a failed send leaves behind, when failing groups keep younger ones from being fetched, and what a slow channel
  holds up.
* `RelayWitnesses.dfy`: runs showing where the code does less than its comments and documentation say.
* `Dispatcher.dfy` (with `DispatcherSteps.dfy`): the dispatcher as it is written, a class whose methods have the source's
  loops and counters and run while an arbitrary world interferes between any two of their steps; each method is proved
  to terminate.
* `WorkerLoop.dfy`: a worker in the same form.

**The queue** (`Queue.dfy`) is also modelled alone, under any number of concurrent producers, consumers and closers;
`QueueCalls.dfy` has its methods as they are written, with every other goroutine interfering.

**The store** (`SqliteStore.dfy` over `SqliteTables.dfy`, against `StoreSpec.dfy`) is a class over the two tables with the statements of each
transaction, their constraints, and failure with rollback possible at every statement; it refines a map from group key to
(group, status, time of receipt).

**Smaller parts**: payload validation (`Alerts.dfy`, `Service.dfy`) over the bytes of Go strings (`Utf8.dfy`), the e-mail
message builder against a parser of section 2.1 of RFC 5322 (`Message.dfy`, `MessageFields.dfy`), label order in the two
formatters (`Ordering.dfy`, `Labels.dfy`), the buffered response writer under Logging and Recovery, with `Chain`
(`Middleware.dfy`), and the recipient list (`Recipients.dfy`, with `Text.dfy`). `Basics.dfy` has the notions they share.

## Assumptions

* Channels are identified by position. In the source their names key the queue map
  (internal/notify/dispatcher.go:78-80), so the names must differ; main.go builds at most one Pachca and one e-mail
  channel.
* `1 <= BatchSize <= QueueSize`, which `validate` enforces (internal/config/config.go:472-494).
* Every `Send` returns, with success or failure.
* Marshalling a group to JSON and back loses nothing.
* The clock, random ids, random bytes, failures of the database, the order in which maps are walked and the moment at
  which contexts expire are parameters or free choices.

## Where the code differs from its comments and documentation

The model follows the code.

* `fanOutAndCollect` is documented to mark a group sent only if all channels succeed (internal/notify/dispatcher.go:148-149). A
  channel whose enqueue was refused is skipped without clearing `allOK`. `RelayTheorems.AllChannelsUnlessRefused` gives
  the exact condition, `RelayWitnesses.RefusedChannelDoesNotBlockMarking` a run.
* `MarkSent` matches on the group key alone, so a `Save` that commits between `GetPending` and `MarkSent` is marked sent
  undelivered. `RelayVersions.SentPayloadIsCurrentUnlessSaved` gives the exact condition,
  `RelayWitnesses.SavedPayloadCanBeLost` a run for any two payloads of one key.
* docs/architecture.md:100-106 stops the HTTP server before the dispatcher. The dispatcher's context is a child of the
  signal context (main.go:63, 128), so a signal cancels both at once. `RelayShutdown.DispatcherMayStopFirstExactlyOnSignal`
  gives the exact condition: while the server has not been stopped, the dispatcher can be gone first if and only if a
  signal has arrived; when the server fails by itself, the order holds. `RelayWitnesses.DispatcherMayStopBeforeTheServer`
  gives a run.
* docs/architecture.md:79-81 says that a slow e-mail does not block Pachca. It does from the next group on, because
  `fanOutAndCollect` waits for every channel that took the group. `RelayBlocking.SlowChannelBlocksExactly` gives the exact
  condition, `RelayTheorems.EarlierGroupsWereAnswered` what follows for every run.
* An `Enqueue` may be accepted after `Close`. `Queues.AcceptedAfterCloseExactly` gives the exact condition: a call in
  progress can still be accepted if and only if it has passed its closed check; `Queues.AcceptedAfterClose` gives a run.
  The dispatcher never does this, because it closes the queues itself.

## Model

| member | source | states |
|---|---|---|
| `RelayTheorems.QuiescentBetweenGroups` | internal/notify/dispatcher.go:150-205 | In every interleaving, before and after each group and outside `poll`, every queue is empty, no worker holds or reports a notification and the results channel is empty |
| `RelayTheorems.ResultsBelongToCurrentGroup` | internal/notify/dispatcher.go:174-183 | Every result ever in the results channel belongs to the group in progress and comes from a different channel than any other, so the key-mismatch branch is dead |
| `RelayTheorems.TokensAreConserved` | internal/notify/worker.go:43-85 | Each accepted enqueue is at any moment in exactly one of queue, worker hand, sent; each returned `Send` in exactly one of report, results channel, collected; when its round is over it caused exactly one `Send` and one collected result of the same outcome |
| `RelayTheorems.MarkedMeansDelivered` | internal/notify/dispatcher.go:150-222 | Every `MarkSent` is preceded, since the latest fetch, which returned the group, by a successful `Send` on every channel that accepted it, at least one; every other channel had refused it |
| `RelayTheorems.AllChannelsUnlessRefused` | internal/notify/dispatcher.go:157-171 | A marked group was delivered by all configured channels if and only if no enqueue was refused, and a refusal means a cancelled context or that enqueue's own timeout |
| `RelayTheorems.LiveContextsMeanAllChannels` | internal/notify/dispatcher.go:148-149 | The promise of the comment holds whenever no context is done before the fan-out is over |
| `RelayTheorems.FailedSendIsNeverMarked` | internal/notify/dispatcher.go:187-209 | A notification with a failed `Send` on any channel is never marked sent, in any run |
| `RelayPending.RowChangesOnlyByMark` | internal/storage/sqlite/store.go:194-199 | Over every run without a `Save` of its key a row keeps payload and `received_at`, and its status changes exactly if the key is marked in the run |
| `RelayPending.PolledRowChangesOnlyByItsMark` | internal/notify/dispatcher.go:121-146 | From its fetch until the next one, a group's row changes exactly if its own note is marked, and then only in its status |
| `RelayPending.FailedGroupStaysAsItWas` | internal/notify/dispatcher.go:197-202 | A group whose send failed on any channel is, when its poll ends, still pending with its old payload and `received_at` |
| `RelayStarvation.FailingGroupsStarveYoungerExactly` | internal/storage/sqlite/store.go:157-163 | Over all runs in which the pending groups strictly older than a pending group keep failing, that group can be fetched if and only if the dispatcher's context is live and they are fewer than the batch size |
| `RelayStarvation.NextQueryMustReturnExactly` | internal/storage/sqlite/store.go:157-163 | With a live context the next query returns a pending group in every run, whatever happens before except a `Save`, if and only if fewer than the batch size of the other pending groups are as old or older |
| `RelayTheorems.EarlierGroupsWereAnswered` | internal/notify/dispatcher.go:173-205 | While a group is handled, every channel that accepted an earlier one has answered it and the answer has been collected: no channel runs ahead of a slower one |
| `RelayBlocking.SlowChannelBlocksExactly` | internal/notify/dispatcher.go:173-205 | Once a group has been offered, the dispatcher can come to the next one without a step of a given channel's worker if and only if that channel owes no answer |
| `RelayTheorems.RefusalHasACause` | internal/notify/queue.go:63-80 | Back-pressure errors occur only when an enqueue context is done |
| `RelaySettlement.RoundsAreSettled` | internal/notify/dispatcher.go:156-222 | In every run `MarkSent` is called for a note, at most once, if and only if at least one channel took it and every channel that took it delivered it |
| `RelayVersions.SentPayloadIsCurrentUnlessSaved` | internal/storage/sqlite/store.go:194-199 | A row in status sent has had its current payload delivered if and only if no `Save` of its key committed between the `GetPending` that returned it and its `MarkSent`, a window that spans the earlier groups of the batch |
| `RelayVersions.SentBodyIsTheSavedPayload` | internal/notify/model.go:26-40 | In every run, whatever `Channel.Send` was called with has status, receiver, key, alerts, all labels and annotations, URL and truncation count of a payload saved before, the latest of its key at the fetch, and counts its alerts |
| `RelayVersions.SentRowHasWindow` | internal/notify/dispatcher.go:121-146 | Every row in status sent has such a window, so the previous statement covers all of them |
| `RelayVersions.PendingRowIsUnmarked` | internal/storage/sqlite/store.go:154-164 | A row is pending if and only if it was not marked since its latest save |
| `RelayVersions.OnlyValidNotificationsAreSent` | internal/alerts/service.go:26-60 | Every notification ever passed to `Channel.Send` has 1 to `maxAlerts` alerts, legal statuses, fingerprints, bounded fields, a true `AlertsCount`, and in each alert a label "alertname" that is not empty |
| `RelayVersions.OnlyValidNotificationsAreHeld` | internal/notify/worker.go:57-62 | The same of every notification a worker is about to send |
| `RelayVersions.RowsAreFiledUnderTheirKey` | internal/storage/sqlite/store.go:171-181 | Each row's payload carries the row's key, so marking by the payload's key hits the fetched row |
| `RelayProgress.QueueHoldsAtMostOne` | internal/notify/dispatcher.go:156-171 | No queue ever holds more than one notification |
| `RelayProgress.WorkerNeverBlocksOnResults` | internal/notify/worker.go:79-83 | Unread results never exceed the number of channels, so a worker with a report finds room at once and the channel still open |
| `RelayProgress.EnqueueAlwaysHasRoom` | internal/notify/queue.go:63-80 | At the dispatcher's `select` the queue is empty and open: only an expired context can refuse |
| `RelayProgress.BusyDispatcherCanMove` | internal/notify/dispatcher.go:150-250 | In every reachable state with a busy dispatcher some step of it or of a worker is enabled |
| `RelayProgress.FinishingStepLowersRank` | internal/notify/dispatcher.go:121-250 | Every step of the dispatcher inside a poll or shutdown, and every worker step, strictly lowers a natural-number measure |
| `RelayProgress.FinishingIsBounded` | internal/notify/dispatcher.go:121-250 | However the outside interferes, at most that many such steps happen before the poll or the shutdown is over |
| `RelayProgress.CanFinish` | internal/notify/dispatcher.go:121-250 | From every reachable state dispatcher and workers can finish on their own |
| `RelayProgress.ShutdownCanComplete` | internal/notify/dispatcher.go:108-117 | After cancellation `Run` can always reach its return, by steps of the dispatcher and its workers alone |
| `RelayShutdown.WorkersLeaveOnlyEmptyClosedQueues` | internal/notify/queue.go:86-120 | A worker returns only with its queue closed and empty, never through its cancelled context |
| `RelayShutdown.ShutdownCannotPanic` | internal/notify/dispatcher.go:226-247 | No `done` is closed twice, no worker is left when the results channel is closed, and the final drain finds nothing |
| `RelayShutdown.NothingIsLeftBehind` | internal/notify/dispatcher.go:226-250 | When `Run` has returned every accepted enqueue of the whole run had one `Send` and one collected result, and all pipes are closed and empty |
| `RelayShutdown.StoreIsClosedLast` | main.go:134-181 | The store is closed at most once, after the dispatcher has returned, and no committed `Save`, no `GetPending` and no `MarkSent` comes later |
| `RelayShutdown.StoreIsClosedAfterTheDispatcher` | main.go:134-181 | `run` has finished if and only if it closed the store, and from the receive of `dispatcherDone` on no dispatcher or worker step is possible |
| `RelayShutdown.RunCanReturn` | main.go:134-181 | From every reachable state in which `run` has left its select, or can for a signal, it reaches its return without further help, whether the server stops cleanly or not, with the dispatcher returned and the store closed exactly once |
| `RelayShutdown.RunReturnsExactly` | main.go:149-160 | Without a save, a signal or a server failure `run` can return if and only if it has left its select or a signal has arrived |
| `RelayShutdown.ServerFailureEndsRun` | main.go:134-155 | After a failure of the server and without any signal `run` cancels the dispatcher, waits for it, closes the store once and returns |
| `RelayOutside.HostIsItsPast` | main.go:127-181 | After every run the stage of `run`, the signal, the dispatcher's context and the server are what the steps taken so far have made of them, each by an if-and-only-if |
| `RelayOutside.PayloadIsAcceptedExactly` | internal/alerts/service.go:26-60 | At any point of any run a payload can be stored if and only if it is valid, the server has not stopped cleanly and the store is not closed |
| `RelayOutside.RefusedAtOnceExactly` | internal/notify/dispatcher.go:157-171 | An enqueue in progress can be refused if and only if the dispatcher was cancelled or the timer of this very enqueue has fired |
| `RelayOutside.EnqueueMayGoEitherWay` | internal/notify/queue.go:63-80 | Every enqueue in progress can be accepted at once, and can be refused after its own timer or after a signal |
| `RelayBacklog.PollsWorkOffTheBacklog` | internal/notify/dispatcher.go:121-146 | Without new groups and failures, `k` polls leave exactly max(0, P - k * BatchSize) of P pending groups |
| `RelayBacklog.BacklogCanBeEmptied` | internal/notify/dispatcher.go:121-146 | From every idle state with a channel and a live context there is a run without failures that empties a backlog of P groups in ceil(P / BatchSize) polls |
| `RelayBacklog.BacklogCanBeEmptiedExactly` | internal/notify/dispatcher.go:124-128 | From an idle state a backlog can be emptied if and only if there is none or the dispatcher's context is live |
| `RelayBacklog.PollMarksItsBatch` | internal/storage/sqlite/store.go:154-163 | Each such poll marks exactly the groups it fetched, none younger than any group left behind |
| `RelayWitnesses.SavedPayloadCanBeLost` | internal/storage/sqlite/store.go:197-199 | For any two payloads of one key there is a run ending with the second stored, marked sent and never delivered |
| `RelayWitnesses.RefusedChannelDoesNotBlockMarking` | internal/notify/dispatcher.go:162-169 | For any payload there is a run that marks it sent although the second of two channels never had it |
| `RelayShutdown.EarlyShutdownMeansSignal` | main.go:127-155 | A dispatcher that shuts down before `run` told it to has seen a signal; after a failure of the server it never stops first |
| `RelayShutdown.DispatcherMayStopFirstExactlyOnSignal` | main.go:63-155 | While the server has not been stopped, the dispatcher can return first if and only if a signal has arrived |
| `RelayWitnesses.DispatcherMayStopBeforeTheServer` | main.go:127-155 | There is a run in which the dispatcher has returned while the server still accepts and saves groups |
| `RelayWitnesses.ValidatedConfigStarts` | internal/config/config.go:472-494 | Every configuration whose sizes pass validation has reachable states, for any number of channels |
| `RelayInvariant.RunKeepsInv` | internal/notify/dispatcher.go:66-250 | The invariant on queues, workers, results, locals and flags holds after every run of legal actions |
| `RelayHistory.RunKeepsHistory` | internal/notify/dispatcher.go:66-250 | In every run each event is justified by earlier ones and the table agrees with the log |
| `Dispatchers.LawfulWorldExists` | internal/notify/dispatcher.go:66-118 | The class below is about something: a world that meets its assumptions exists |
| `Dispatchers.Dispatcher.constructor` | internal/notify/dispatcher.go:66-100 | Queues, workers and results channel start open, idle and empty |
| `Dispatchers.Dispatcher.Enqueue` | internal/notify/queue.go:54-81 | Under interference, one accepted or refused event and the counter that says which |
| `Dispatchers.Dispatcher.CollectResults` | internal/notify/dispatcher.go:178-201 | Exactly as many results as were enqueued are received, all of this group; the loop ends |
| `Dispatchers.Dispatcher.FanOutAndCollect` | internal/notify/dispatcher.go:150-223 | A whole round: every channel accepted or refused, `MarkSent` called if and only if some channel took the note and all that did delivered it, only this round's events added, nothing left in the pipes, next group reached |
| `Dispatchers.Dispatcher.PollOnce` | internal/notify/dispatcher.go:121-146 | One query a poll, failing exactly when the store does, and every note it returned has been handled like that when the poll returns |
| `Dispatchers.Dispatcher.ShutDown` | internal/notify/dispatcher.go:226-250 | Terminates with all queues closed and empty, all workers gone and no result left, whatever order the queue map is walked in |
| `Dispatchers.Dispatcher.Run` | internal/notify/dispatcher.go:66-118 | For any finite number of ticks taken before the cancelled context: one query for each tick taken, for all of them unless somebody cancels before; every group fetched by then offered to every channel and marked exactly if it must be; and a drained return |
| `Queues.QueueIsFifo` | internal/notify/queue.go:54-132 | For any concurrent callers the accepted items are the dequeued ones followed by the buffer, never longer than the capacity |
| `Queues.QueueReportsTruthfully` | internal/notify/queue.go:54-132 | `done` is closed at most once, and each error means what it says |
| `Queues.AcceptedAfterClose` | internal/notify/queue.go:55-70 | An `Enqueue` past its check may still be accepted after `Close`, for every positive capacity |
| `Queues.AcceptedAfterCloseExactly` | internal/notify/queue.go:55-80 | In every run, once the queue is closed, an `Enqueue` in progress can still be accepted if and only if it had passed its closed check; one called before the close and checked after it is refused, for every positive capacity |
| `Queues.ClosedBySwap` | internal/notify/queue.go:124-132 | In every run the queue is closed if and only if some `Close` has done its compare-and-swap, and `done` if and only if one has signalled |
| `Queues.CalledAfterCloseNeverOffers` | internal/notify/queue.go:55-58 | In every run a goroutine that calls `Enqueue` after some compare-and-swap never offers an item again |
| `Queues.CallsAreOnlyBlockedByTheQueue` | internal/notify/queue.go:54-132 | A call can move if and only if it is not an `Enqueue` on a full open queue or a `Dequeue` on an empty open one with a live context |
| `QueueCalls.Caller.Enqueue` | internal/notify/queue.go:54-81 | Under interference: an accepted item is the newest in the buffer, "full" means a context that has expired after all its patience, "closed" means closed, and a queue closed at the call always refuses |
| `QueueCalls.Caller.Dequeue` | internal/notify/queue.go:86-120 | Under interference: an item is the oldest one, a cancelled call had a context that expired after all its patience, "closed" means closed with nothing left |
| `QueueCalls.Caller.Close` | internal/notify/queue.go:124-132 | The queue is closed afterwards, whoever wins the swap, and `done` was closed at most once |
| `WorkerLoop.Worker.SendAndReport` | internal/notify/worker.go:57-84 | One `Send` for the notification in hand, and one result, of that notification, channel and outcome, pushed without waiting |
| `WorkerLoop.Worker.Run` | internal/notify/worker.go:38-86 | Each notification taken is sent once and counted; a worker that returns leaves its queue closed and empty, one that waits has an empty open queue; the cancelled-context case is dead |
| `StoreSpec.AnsweredExactly` | internal/storage/sqlite/store.go:157-163 | A pending group can be in the answer of the query if and only if fewer than `limit` pending groups are strictly older |
| `StoreSpec.AlwaysAnsweredExactly` | internal/storage/sqlite/store.go:157-163 | It is in every answer if and only if fewer than `limit` other pending groups are as old or older |
| `StoreSpec.AnswerExists` | internal/storage/sqlite/store.go:157-163 | The specification of the pending query always has an answer |
| `SqliteTables.StoreRefinesMap` | internal/storage/sqlite/store.go:75-215 | Under any sequence of `Save` and `MarkSent`, failing at any statement, the tables refine the map, keep keys and ids unique and rows in place, and each group's alert rows repeat the alerts of its payload in order, column by column |
| `SqliteTables.SaveRefinesUpsert` | internal/storage/sqlite/store.go:75-151 | A committed `Save` is one upsert of the map and keeps the invariant |
| `SqliteTables.SaveTouchesOneGroup` | internal/storage/sqlite/store.go:90-143 | It keeps the id of an existing row, replaces exactly that group's alerts by those of the payload, column by column, and leaves all other groups and alerts alone |
| `SqliteTables.CommittedIsSaved` | internal/storage/sqlite/store.go:90-143 | After a commit the group's row has every field of the payload, status pending and the time of receipt; behind the untouched alert rows of other groups stands one row for each alert, with its fingerprint, status, "alertname", "severity" or "", and both times cut to the second, the end absent exactly for the zero time |
| `SqliteTables.AlertsOfExactly` | internal/storage/sqlite/store.go:109-112 | The alerts of a group are the columns of exactly the rows with its id |
| `SqliteTables.NewIdsAreAdmissible` | migrations/sqlite/001_create_alerts.sql:5-25 | With ids that are new and distinct no constraint can fail |
| `SqliteTables.MarkRefinesMark` | internal/storage/sqlite/store.go:194-215 | `MarkSent` flips one status and reports a missing key exactly when the key is missing |
| `SqliteStore.Store.Save` | internal/storage/sqlite/store.go:75-151 | Succeeds exactly when no statement fails and otherwise names the first that does; the map is upserted and the rows are as the payload has them, column by column, or, after rollback, nothing has changed |
| `SqliteStore.Store.Query` | internal/storage/sqlite/store.go:157-163 | Taking an oldest pending row again and again, up to the limit, yields different pending rows, oldest first; a pending row is left out only at the limit and is then no older than any returned one |
| `SqliteStore.Store.GetPending` | internal/storage/sqlite/store.go:154-190 | The payloads of a legal answer in its order, or an error and nothing |
| `SqliteStore.Store.MarkSent` | internal/storage/sqlite/store.go:194-215 | Marks, reports not found, or fails leaving everything as it was |
| `Alerts.ValidatePayloadExact` | internal/alerts/validation.go:26-136 | `ValidatePayload` returns nil exactly on the valid payloads |
| `Alerts.PassesExactly` | internal/alerts/validation.go:26-136 | The valid payloads in plain terms: version "4", key, receiver, a status "firing" or "resolved", 1 to `maxAlerts` alerts, each with fingerprint, such a status and a name, and strings of at most 4096 bytes of UTF-8 |
| `Alerts.NamelessIsInvalid` | internal/alerts/validation.go:93-95 | A payload that passes has in every alert a label "alertname" that is not empty; one within the limits that lacks it gets the "invalid" error |
| `Alerts.FirstDefectDecides` | internal/alerts/validation.go:26-113 | Which of the two errors a payload with several defects gets: identity, sizes of the envelope, version and emptiness, number of alerts, then the first bad alert, malformed before too large |
| `Utf8.DecodesExactly` | internal/alerts/validation.go:115-121 | The bytes whose number `len` gives: bytes decode to a string if and only if they are its encoding |
| `Alerts.VerdictIgnoresOrder` | internal/alerts/validation.go:124-136 | The error class does not depend on map iteration order |
| `Alerts.ErrorClassNamesADefect` | internal/alerts/validation.go:15-74 | "Invalid" is said only of malformed payloads, "too large" only of payloads over a limit, and nil exactly of those that are neither |
| `Alerts.NewNotification` | internal/notify/model.go:26-40 | The notification of a valid group is valid; it carries every field of the payload, the number of its alerts and the time of its creation |
| `Service.AlertService.Receive` | internal/alerts/service.go:26-60 | Rejects exactly the invalid payloads, with the validation's verdict, before the store is touched; otherwise the payload is stored column by column, no alert row of the group being without a name, or an error has no effect |
| `Message.MessageRoundTrip` | internal/channel/email/sender.go:164-176 | Parsing the built message gives back the seven header fields in order and the body as given, for any subject and body, if and only if sender and recipients are free of CR and LF |
| `Message.BuildMessage` | internal/channel/email/sender.go:164-176 | The builder writes the rendering of those seven fields and the body |
| `Message.ParseRender` | internal/channel/email/sender.go:164-176 | Parsing undoes rendering for any clean header list and any body, also one with empty lines |
| `Message.SanitizedIsOneLine` | internal/channel/email/sender.go:178-181 | The subject ends up without CR and LF |
| `Message.SanitizeKeepsTheRest` | internal/channel/email/sender.go:178-181 | Every other character of the subject is kept |
| `Message.SanitizeFixesOneLine` | internal/channel/email/sender.go:178-181 | A string is unchanged if and only if it had neither |
| `Message.SanitizeConcat` | internal/channel/email/sender.go:178-181 | Characters keep their order |
| `Message.MessageIdIsWellFormed` | internal/channel/email/sender.go:183-193 | The identifier has one "@" and is one line if the sender is |
| `Message.MessageIdsAreUnique` | internal/channel/email/sender.go:183-193 | Different random bytes give different identifiers, whatever the senders |
| `MessageFields.MailSaysWhatWasGiven` | internal/channel/email/sender.go:164-176 | For a clean sender and recipients the parsed mail has one field From with the sender, Date with the date, Subject with the subject without line breaks, Message-ID with the identifier, To with a value that loads back to the recipients if and only if they are loadable, the two constant fields, and the body |
| `MessageFields.DomainIsBehindTheLastAt` | internal/channel/email/sender.go:187-191 | The right half of the identifier is what follows the last "@" of the sender, or all of it without one, without trailing ">" |
| `MessageFields.ReadHexUndoesHex` | internal/channel/email/sender.go:192 | The left half, read as hexadecimal, is the random bytes |
| `Labels.WriteLabels` | internal/channel/pachca/formatter.go:126-158 | Writes one line for each key of the display order, bold exactly for priority labels, or nothing without a key |
| `Labels.LinesReadBack` | internal/channel/pachca/formatter.go:143-156 | From a bold or a plain line the key, if it has no colon, and the value can be read back |
| `Labels.LayoutIsUnique` | internal/channel/pachca/formatter.go:126-158 | The display order lists each shown key once and is determined by the set of keys: map iteration order cannot show |
| `Labels.LayoutOf` | internal/channel/pachca/formatter.go:142-157 | Present priority keys in list order followed by the rest, ascending, are that order |
| `Labels.FilterLabels` | internal/channel/email/formatter.go:189-201 | The pairs with a shown key, ascending by key |
| `Labels.FilteredIsUnique` | internal/channel/email/formatter.go:189-201 | Those pairs are determined by the label map |
| `Labels.FormattersAgree` | internal/channel/email/formatter.go:189-201 | Pachca's order is its priority keys followed by the keys of `FilterLabels` without them |
| `Labels.PriorityLabelsAreDistinct` | internal/channel/pachca/formatter.go:14-32 | The priority list repeats nothing and contains no filtered label |
| `Ordering.ArrangementIsUnique` | internal/channel/pachca/formatter.go:147-152 | Two arrangements of one set by an asymmetric order are equal |
| `Ordering.SortByCorrect` | internal/channel/pachca/formatter.go:152 | The sort permutes, and ascends strictly on distinct keys |
| `Utf8.OrderIsByteOrder` | internal/channel/pachca/formatter.go:153 | The order of code points, by which the model sorts, is the order of the bytes, by which Go sorts |
| `Middleware.ResponseWriter.WriteHeader` | internal/server/middleware/logging.go:20-25 | The first status wins and nothing is sent yet |
| `Middleware.ResponseWriter.Write` | internal/server/middleware/logging.go:27-32 | The head is sent before the first byte and the count grows by what was accepted |
| `Middleware.ResponseWriter.FlushHeader` | internal/server/middleware/logging.go:35-44 | The head is sent once, with 200 if no status was chosen |
| `Middleware.ResponseWriter.ResetStatus` | internal/server/middleware/logging.go:48-53 | Overrides the status exactly while the head is unsent |
| `Middleware.Recovery` | internal/server/middleware/recovery.go:18-55 | A panic before the first write gives 500, a later one keeps the sent status; the message follows |
| `Middleware.RecoveryAlone` | internal/server/middleware/recovery.go:43-48 | Over a writer without `ResetStatus` the status is the handler's first choice even after a panic, and 500 if it had done nothing |
| `Middleware.BufferMattersExactly` | internal/server/middleware/logging.go:9-11 | With and without the buffering writer the response to a panic is the same if and only if the handler had written, or done nothing, or chosen 500 itself |
| `Middleware.Serve` | internal/server/middleware/logging.go:61-87 | For every finite behaviour of a handler the client sees the specified response, and the logged status and byte count are those sent |
| `Middleware.OneHeadComesFirst` | internal/server/middleware/logging.go:35-44 | Every response has exactly one head, before any body byte, and as many body bytes as are logged |
| `Middleware.StatusSeen` | internal/server/middleware/logging.go:20-53 | The client sees 500 if the handler panics before writing, otherwise the status of its first action, 200 for a write or for none |
| `Middleware.ClientReadsWhatWasWritten` | internal/server/middleware/logging.go:27-32 | On a connection that takes everything the client reads exactly what the handler wrote, followed after a panic by the error message |
| `Middleware.Chain` | internal/server/middleware/middleware.go:11-18 | The descending loop is the right fold |
| `Middleware.ChainOfChains` | internal/server/middleware/middleware.go:11-18 | A chain may be cut anywhere |
| `Middleware.FirstIsOutermost` | internal/server/middleware/middleware.go:9-18 | Requests pass the middlewares in list order on the way in and in reverse on the way out |
| `Recipients.LoadRecipients` | internal/config/config.go:284-294 | Every loaded entry is trimmed, not empty and free of commas |
| `Recipients.TrimRemovesOnlySpace` | internal/config/config.go:288 | Trimming removes white space at both ends and nothing else |
| `Text.SplitLosesNothing` | internal/config/config.go:285 | The parts with commas between them are the original string |
| `Recipients.LoadUndoesJoin` | internal/channel/email/sender.go:167 | Loading undoes the To header's join if and only if the list is one that loading can yield |
| `Recipients.LoadIsStable` | internal/config/config.go:284-294 | For any EMAIL_TO, joining the loaded list and loading again gives the same list |
| `Recipients.PaddingDoesNotMatter` | internal/config/config.go:284-294 | A list of addresses with any white space around them and any blank parts between commas loads to the addresses, in order |
| `Recipients.EveryValueIsPieces` | internal/config/config.go:284-294 | Every EMAIL_TO is such a list, so the previous statement says what is loaded from any value |
| `Text.SplitUndoesJoin` | internal/config/config.go:285 | Splitting undoes joining for parts without the separator |

## Left out

- Dispatcher: its state is one value that each step replaces, and so are those of the queue's caller and the worker; the sharing of queue, worker and channel objects between goroutines is the interleaving of steps on that value, not aliasing on a heap.
- Worker.Run: followed through any finite number of notifications and waits, since nothing bounds how long a dispatcher keeps it busy or waiting. That it returns after cancellation is part of `RelayProgress.ShutdownCanComplete` and `Dispatchers.Dispatcher.ShutDown`.
- Dispatcher.Run: terminates when the ticker is taken finitely often before the cancelled context; Go's `select` promises no more, and a `select` that preferred the ticker for ever would never notice the cancellation.
- Queues of capacity zero in the running relay: `validate` demands at least 10 (internal/config/config.go:478-482).
- QueueIsFifo: covers every positive capacity; at capacity zero the model accepts nothing, where a Go channel without a buffer hands an item over to a waiting receiver. The same goes for `Queues.QueueReportsTruthfully` and `Queues.CallsAreOnlyBlockedByTheQueue`.
- SMTP dialing, TLS, authentication, the Pachca HTTP client, the HTTP server, and net/http's own checks of status codes: input and output. Of net/http's writer only this is modelled: the first status goes out at once and a first write sends 200.
- SQLite itself: pragmas, WAL checkpointing, health checks, and `received_at` having a resolution of one second.
- The JSON codec, `net/mail` and `net/url`: libraries.
- The remaining configuration checks: independent range checks.
- An early return of `run` when the template engine cannot be built (main.go:85-88): it comes before the dispatcher starts, and it leaves the opened store unclosed. `RelayShutdown.StoreIsClosedAfterTheDispatcher` speaks of the exits after the dispatcher's start.
- Relay.CanPoll: `Fetch` is possible also on a context that is already done, although database/sql refuses a query that starts on one. That covers queries during which the context is cancelled; every statement about all runs holds for the narrower behaviour too, and statements that a fetch can happen are made for live contexts (`RelayProgress.QueriesLive`).
- Template engine and file watcher: one branch, timers and file system events.
- HTML bodies, emoji, colours, time formats, `countByStatus`: presentation and one counter.
- Line length limits and folding of RFC 5322, and the encoding of non-ASCII header text: the builder does neither.
- Log calls, metrics, durations, readiness and liveness handlers, Helm, Docker and Make files.
- Circuit breaker, PostgreSQL and retention cleanup: described in the repository's README without code.
