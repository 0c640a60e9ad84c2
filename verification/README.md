# A verified model of the app-server client and the analytics pipeline

A Dafny model of the parts of this repository whose behaviour is hard to see from one function:
concurrent forwarding, event-sourced state, parsers and rewriters. `dafny verify dfyconfig.toml`
checks all of it.

- **Event forwarder** (`EventForwarder`, `ForwarderGuarantees`, `ForwarderRequests`,
  `InProcessWorker`). A worker moves server events into a bounded channel that a consumer drains. It
  is a small-step system in which every channel operation is atomic, so a run is any interleaving.
  The `Worker` class is the imperative form; its ghost fields hold a run of the small-step system
  that ends in its state, so everything proved of reachable states holds of it.
- **Analytics reducer** (`AnalyticsModel`, `AnalyticsReducer`, `AnalyticsContext`,
  `AnalyticsTurns`, `AnalyticsConfluence`, `AnalyticsCounters`, `AnalyticsDetails`,
  `AnalyticsRequests`, `AnalyticsReviews`, `AnalyticsItems`, `AnalyticsReports`,
  `AnalyticsExceptions`). Seven maps, one step per fact; the theorems are about whole runs, and say
  which events a run has, and what they say, by its facts alone. The `Reducer` class updates the maps
  in place. Its ghost history holds every fact it was given, and it stays in the state a run over
  that history leads to.
- **Accepted lines** (`DiffScanner`, `DiffCounts`, `DiffNormalized`, `DiffRoundTrip`): the
  unified-diff scanner against a printer, and on texts that are no diffs.
- **Batches** (`EventBatcher`): the grouping of events into upload requests, proved optimal.
- **MODULE.bazel checksums** (`ModuleBazel`, `ModuleBazelGuarantees`, `ModuleBazelTexts`,
  `ModuleBazelExceptions`): checking and updating the same text.
- **Lint wrapper arguments** (`LintArgs`, `LintArgsGuarantees`, `LintArgsMeaning`): parsing and
  rebuilding.
- **Host paths** (`AppServerPath`): joining against splitting. `TextRuns` holds what paths and diff
  lines share: maximal runs of non-separators.
- **Scalar clamping** (`ScalarClamp`): section 5 of RFC 7748 and section 5.1.5 of RFC 8032.

Some properties one might expect hold only under a condition. Each is proved as an if-and-only-if,
and each failing case is shown to occur.

- The reported lag is position-exact unless a gap outgrows `usize`, where the counter saturates.
- A turn is emitted once it has all its parts, unless its own connection is not registered then or
  at any later fact that tries again, even if its thread's connection is.
- Every server request the worker takes is enqueued or refused, unless the worker finds the channel
  closed with the request in hand. Every one is delivered or refused, unless that happens or the
  receiver is dropped while the request waits in the channel. Requests offered after the stream is
  disabled are not taken and so not answered. The documentation of `forward_in_process_event` says
  that a dropped request is rejected, so that the server does not wait.
- A spawned thread has a context unless it was spawned before its parent was connected and was not
  opened or spawned again since.
- Accepted lines are paired with their files unless a file whose name ends in a blank has one.
- Checking after an update succeeds unless a sha256 field that is not hexadecimal precedes the
  place the checksum is written to.
- A second update changes nothing unless the first put a checksum right before a blank line: the
  pattern that finds the line reaches over the blank lines after it and removes them.
- The components of a join are those of the path and the segment unless the path is a Windows root
  made only of separators.
- Rebuilding lint arguments is idempotent unless the default manifest path is used and is `--`.

How the sources' values are represented:

- Clock readings, and which characters are alphanumeric, are inputs.
- A fingerprint is the path and normalised line it is the hash of.
- A request id is a string or an integer, kept apart; thread, turn and item ids are distinct types.
- Texts in MODULE.bazel are lists of lines. The manifest's digests are taken to be hexadecimal in
  the theorems, as `parse_checksum_manifest` enforces.
- The consumer's moves in the `Worker` class are a schedule of turns, used up at every channel
  operation; a send still waiting at its end is reported as pending.

## Model

| member | source | states |
|---|---|---|
| `EventForwarder.StepInv` | src/codex-rs/app-server-client/src/lib.rs:196-262 | every worker or consumer step keeps the channel, lag, flow, request-ledger and error-code invariants |
| `EventForwarder.RunInv` | src/codex-rs/app-server-client/src/lib.rs:483-593 | so does every interleaving of any length |
| `EventForwarder.ReachableInv` | src/codex-rs/app-server-client/src/lib.rs:484-593 | hence they hold in every state reachable from start, for every configured capacity |
| `ForwarderGuarantees.LagAccountingIsPositionExact` | src/codex-rs/app-server-client/src/lib.rs:196-262 | replacing every marker by as many holes as it reports and appending `skipped` holes gives the handled events position by position, if and only if no gap outgrew the counter |
| `ForwarderGuarantees.LagCountCanSaturate` | src/codex-rs/app-server-client/src/lib.rs:226-227 | the exception is real: a reachable state whose reported lag is too small |
| `ForwarderGuarantees.NoEventOvertakesItsMarker` | src/codex-rs/app-server-client/src/lib.rs:205-241 | no event enters the channel while a gap is unreported, and no marker reports zero |
| `ForwarderGuarantees.DeliveredEventsKeepTheirPositions` | src/codex-rs/app-server-client/src/lib.rs:196-262 | what the consumer received lines up with a prefix of the handled events; the counts it was told are the true gaps exactly when none outgrew the counter |
| `ForwarderGuarantees.LosslessTierSurvives` | src/codex-rs/app-server-client/src/lib.rs:139-175 | the must-deliver events sent are exactly those handled, in order; with the receiver open and nothing in hand, exactly those taken |
| `ForwarderGuarantees.EveryTranscriptNotificationIsSent` | src/codex-rs/app-server-client/src/lib.rs:163-175 | each of the eight transcript and completion notifications is put on the channel exactly as often as it was taken, in every reachable state with the receiver open and nothing in hand |
| `ForwarderGuarantees.AnyOtherEventCanBeDropped` | src/codex-rs/app-server-client/src/lib.rs:139-175 | and only those: for every other notification, lag notice and request but an auth-token refresh there is a run that drops it with the receiver open |
| `ForwarderGuarantees.ChannelIsBoundedAndFifo` | src/codex-rs/app-server-client/src/lib.rs:484-489 | the queue never exceeds its capacity, which is at least one, and delivery is in sending order |
| `ForwarderGuarantees.ForwardBudget` | src/codex-rs/app-server-client/src/lib.rs:196-248 | along any mix of advances and receives a must-deliver forward spends one operation per advance and frees one slot per receive |
| `ForwarderGuarantees.LosslessForwardNeedsTwoReceives` | src/codex-rs/app-server-client/src/lib.rs:205-248 | after two receives a must-deliver forward cannot be blocked; at most two operations complete it |
| `ForwarderGuarantees.ReceiveUnblocks` | src/codex-rs/app-server-client/src/lib.rs:243-248 | a blocked worker can always be unblocked by one receive, which is always possible |
| `ForwarderGuarantees.NothingIsSentAfterDrop` | src/codex-rs/app-server-client/src/lib.rs:755-787 | in every continuation after the drop nothing is sent, delivered or counted as handled |
| `ForwarderGuarantees.DisabledIsFinal` | src/codex-rs/app-server-client/src/lib.rs:585-588 | once disabled the worker never takes, forwards, answers or loses another event |
| `ForwarderGuarantees.DroppedReceiverLetsTheWorkerStop` | src/codex-rs/app-server-client/src/lib.rs:755-787 | in every continuation after the drop the worker has stopped, can stop, or has one forward to end, which disables the stream without waiting; it advances at most once more |
| `ForwarderRequests.ForwardSettlesTheRequestIffOpen` | src/codex-rs/app-server-client/src/lib.rs:220-261 | the operation that ends a request's forward enqueues or refuses it, once, if and only if the channel is open |
| `ForwarderRequests.EveryRequestIsSettledOnce` | src/codex-rs/app-server-client/src/lib.rs:226-261 | in every run a request's takes are its enqueuings, its refusals, the one in hand and the times the worker found the channel closed; so enqueued or refused each time if and only if not in hand and never found closed |
| `ForwarderRequests.EveryRequestIsAccountedFor` | src/codex-rs/app-server-client/src/lib.rs:194-261 | in every run its takes are deliveries, refusals, those waiting, in hand, lost to a closed channel and thrown away with the receiver; so delivered or refused each time if and only if none is on its way, none was forwarded to a closed channel, and none waited when the receiver was dropped |
| `ForwarderRequests.EveryOfferedRequestIsAnsweredExactlyWhen` | src/codex-rs/app-server-client/src/lib.rs:543-545 | each time the runtime offered a request it was delivered or refused, if and only if moreover each time it was taken |
| `ForwarderRequests.OfferedAfterDisabledIsNeverAnswered` | src/codex-rs/app-server-client/src/lib.rs:543-588 | what is offered after the stream is disabled is never taken, and so never delivered or refused, in any continuation |
| `ForwarderRequests.OpenChannelLosesNothing` | src/codex-rs/app-server-client/src/lib.rs:755-766 | neither can have happened while the receiver is open |
| `ForwarderRequests.AuthRefreshIsAlwaysRefused` | src/codex-rs/app-server-client/src/lib.rs:546-564 | an auth-token refresh is refused each time, never enqueued, never counted as skipped |
| `ForwarderRequests.RejectionCodesTellWhy` | src/codex-rs/app-server-client/src/lib.rs:546-581 | -32000 exactly for auth-token refreshes, -32001 exactly for requests dropped on a full queue |
| `ForwarderRequests.LossIsBounded` | src/codex-rs/app-server-client/src/lib.rs:234-261 | at most one event is lost to a closed channel and at most the capacity is thrown away |
| `ForwarderRequests.RequestCanBeLostToClosing` | src/codex-rs/app-server-client/src/lib.rs:259-260 | for every request but an auth-token refresh there is a run that loses it to a closed channel |
| `ForwarderRequests.RequestsCanBeThrownAway` | src/codex-rs/app-server-client/src/lib.rs:763-766 | for every capacity there is a run in which that many requests are enqueued, thrown away with the receiver and never answered |
| `InProcessWorker.Worker.constructor` | src/codex-rs/app-server-client/src/lib.rs:483-495 | the worker starts in the initial small-step state |
| `InProcessWorker.Worker.LetConsumerRun` | src/codex-rs/app-server-client/src/lib.rs:743-751 | consumer moves between two worker operations follow the small-step system and leave the worker's own state alone |
| `InProcessWorker.Worker.TrySend` | src/codex-rs/app-server-client/src/lib.rs:220-237 | closed, full and accepted are told apart; only an accepted event changes the queue |
| `InProcessWorker.Worker.Send` | src/codex-rs/app-server-client/src/lib.rs:209-219 | a waiting send ends sent, closed, or still blocked with the consumer's schedule used up, each by the matching small steps |
| `InProcessWorker.Worker.CountDropped` | src/codex-rs/app-server-client/src/lib.rs:226-232 | the counter saturates and a dropped request is answered with -32001 |
| `InProcessWorker.Worker.Offer` | src/codex-rs/app-server-client/src/lib.rs:220-261 | a best-effort send ends sent, dropped or closed by one small step |
| `InProcessWorker.Worker.Forward` | src/codex-rs/app-server-client/src/lib.rs:196-262 | the routine ends a run of the small-step system with its own counter, queue and answers; `Continue` means idle, `DisableStream` means closed |
| `InProcessWorker.Worker.Work` | src/codex-rs/app-server-client/src/lib.rs:491-593 | the event loop takes a prefix of the events in order, follows the small-step system throughout, and stops early only when disabled or blocked |
| `AnalyticsReducer.Reducer.constructor` | src/codex-rs/analytics/src/reducer.rs:423-556 | a new reducer has an empty history, no events and the empty state |
| `AnalyticsReducer.Reducer.Ingest` | src/codex-rs/analytics/src/reducer.rs:423-556 | one fact extends the history; the seven maps and the events emitted stay those of a run over the whole history |
| `AnalyticsReducer.Reducer.Dispatch` | src/codex-rs/analytics/src/reducer.rs:423-556 | one fact in place, through the handlers and their early exits, equals one step of the machine on values |
| `AnalyticsReducer.Reducer.IngestAll` | src/codex-rs/analytics/src/reducer.rs:423-556 | a list of facts extends the history, returns exactly what it adds to the events of that run, and every event returned tells the truth about the history |
| `AnalyticsReducer.EveryEventIsTruthful` | src/codex-rs/analytics/src/reducer.rs:423-556 | in every run every event has the context of its thread and connection, a turn event says what the facts say of its turn, a tool-item event is one the facts make reportable and describes its item's reviews, and a review event says the review concluded, at the fact that caused it |
| `AnalyticsReducer.Reducer.IngestItemCompleted` | src/codex-rs/analytics/src/reducer.rs:1230-1292 | counting, the missing-start, bad-time and missing-context exits, the event and the clearing of the summary |
| `AnalyticsReducer.Reducer.RecordToolCount` | src/codex-rs/analytics/src/reducer.rs:395-420 | counts an item under its category and in the total |
| `AnalyticsReducer.Reducer.IngestGuardianReviewCompleted` | src/codex-rs/analytics/src/reducer.rs:1431-1471 | a terminal guardian review with valid times is concluded |
| `AnalyticsReducer.Reducer.MaybeEmitTurnEvent` | src/codex-rs/analytics/src/reducer.rs:1606-1664 | emits and forgets a populated turn with a context, and otherwise does nothing |
| `AnalyticsReducer.Reducer.EmitThreadInitialized` | src/codex-rs/analytics/src/reducer.rs:1337-1387 | a thread response on a registered connection sets connection, metadata and originator |
| `AnalyticsReducer.Reducer.IngestSubAgentThreadStarted` | src/codex-rs/analytics/src/reducer.rs:583-612 | a spawned thread keeps what is known of it and inherits its parent's connection |
| `AnalyticsReducer.Reducer.IngestTurnStartResponse` | src/codex-rs/analytics/src/reducer.rs:927-943 | a start reply uses up its pending request, fills the turn and may emit |
| `AnalyticsReducer.Reducer.IngestTurnSteerResponse` | src/codex-rs/analytics/src/reducer.rs:1473-1496 | a steer reply uses up its pending request, counts the steer if the turn is known, and reports it |
| `AnalyticsReducer.Reducer.IngestErrorResponse` | src/codex-rs/analytics/src/reducer.rs:1157-1205 | an error reply uses up its pending request and reports a rejected steer |
| `AnalyticsReducer.Reducer.ResolvePendingReview` | src/codex-rs/analytics/src/reducer.rs:1072-1155 | a response or abort uses up the pending review and concludes it |
| `AnalyticsReducer.Reducer.EmitReviewEvent` | src/codex-rs/analytics/src/reducer.rs:1539-1585 | the item's summary is updated whether or not the review's event can be emitted |
| `AnalyticsReducer.Reducer.RecordItemReviewSummary` | src/codex-rs/analytics/src/reducer.rs:1587-1604 | one more review, by its reviewer, with the latest outcome and the disjunction of the flags |
| `AnalyticsContext.StepFrame` | src/codex-rs/analytics/src/reducer.rs:558-612 | only Initialize changes connections; only thread responses and spawns change threads |
| `AnalyticsContext.StepContextInv` | src/codex-rs/analytics/src/reducer.rs:583-612 | every fact keeps: each known thread has metadata and any connection it holds is registered |
| `AnalyticsContext.RunContextInv` | src/codex-rs/analytics/src/reducer.rs:1351-1367 | so does every run |
| `AnalyticsContext.ContextLookupFailsOnlyWithoutConnection` | src/codex-rs/analytics/src/reducer.rs:1666-1703 | in every reachable state the lookup fails if and only if the thread is unknown or connectionless |
| `AnalyticsContext.SpawnedThreadInheritsContext` | src/codex-rs/analytics/src/reducer.rs:583-612 | a thread spawned by one with a context has a context |
| `AnalyticsContext.ConnectionsAreTheLastInitialized` | src/codex-rs/analytics/src/reducer.rs:558-581 | a connection's state is what its latest Initialize said, and absent without one |
| `AnalyticsContext.EmittedContextComesFromInitialize` | src/codex-rs/analytics/src/reducer.rs:1498-1703 | the context of any emitted event combines its own thread's metadata and originator with what the latest earlier Initialize said of one connection: the causing reply's, or else the turn's own, or else the thread's |
| `AnalyticsContext.ThreadConnectionsFollowTheFacts` | src/codex-rs/analytics/src/reducer.rs:583-612 | in every run a thread's connection is that of its latest opening or else the one it first inherited |
| `AnalyticsContext.ThreadHasContextExactlyWhen` | src/codex-rs/analytics/src/reducer.rs:583-612 | in every run a thread has a context if and only if it was opened on an initialized connection or spawned by a thread connected by then, through any chain |
| `AnalyticsReports.ThreadsFollowTheFacts` | src/codex-rs/analytics/src/reducer.rs:583-612 | in every run which threads are known, their metadata and their originators are told by the openings and spawns alone |
| `AnalyticsReports.EmittedContextFollowsTheFacts` | src/codex-rs/analytics/src/reducer.rs:1337-1387 | the context of any emitted event shows that metadata, and as product client that originator or else the connection's own |
| `AnalyticsReports.ThreadIsAnnouncedExactlyWhen` | src/codex-rs/analytics/src/reducer.rs:1337-1387 | a thread is announced if and only if a response opens it on an initialized connection, a sub-agent's thread each time it is spawned, and nothing else is emitted then |
| `AnalyticsReports.ReportIsPassedOnExactlyWhen` | src/codex-rs/analytics/src/reducer.rs:1389-1429 | a compaction, goal or guardian report is passed on, once, if and only if its thread is connected |
| `AnalyticsExceptions.SpawnedTooEarly` | src/codex-rs/analytics/src/reducer.rs:583-612 | a thread spawned before its parent is opened stays without a context |
| `AnalyticsTurns.RunBound` | src/codex-rs/analytics/src/reducer.rs:1606-1664 | in every run from any state a turn's events plus the part it still holds are bounded by the parts supplied |
| `AnalyticsTurns.TurnEventsAreBounded` | src/codex-rs/analytics/src/reducer.rs:1606-1664 | over every run a turn has at most as many events as resolved configs, as profiles, and as completions |
| `AnalyticsTurns.EmissionEffect` | src/codex-rs/analytics/src/reducer.rs:2583-2598 | a turn event is only built from a fully populated turn, comes first, is the only one, and uses up the turn |
| `AnalyticsTurns.TurnIsEmittedExactlyWhen` | src/codex-rs/analytics/src/reducer.rs:1606-1642 | in every reachable state: emitted if and only if populated, its thread is known, and the turn's own connection is registered or, without one, the thread has one |
| `AnalyticsConfluence.Progress` | src/codex-rs/analytics/src/reducer.rs:668-704 | one fact on a turn of a connected thread that has not been emitted is absorbed; the event is emitted if and only if all parts are then there, the fact is one that tries to emit, and the turn's own connection, if any, is registered |
| `AnalyticsConfluence.TurnEventConfluence` | src/codex-rs/analytics/src/reducer.rs:1606-1664 | one config, one profile and one completion at any positions among any other facts: the whole run has one event if and only if, at the last of the three or at a later fact that tries again, the turn's own connection, if any, is registered, and none otherwise |
| `AnalyticsConfluence.TurnEventSaysItsParts` | src/codex-rs/analytics/src/reducer.rs:1606-1664 | wherever it is emitted, the event has the config and the profile of the three facts, and status, error, completion time and duration by the completion fact's own fields |
| `AnalyticsConfluence.TurnEventIsOrderIndependent` | src/codex-rs/analytics/src/reducer.rs:1606-1664 | the turn events of two runs with the same three facts, in any order, have the same config, profile and completion |
| `AnalyticsDetails.TurnsTellTheirFacts` | src/codex-rs/analytics/src/reducer.rs:668-715 | in every run a turn's state says what the facts about it say since its event was last emitted: latest config, profile, completion, start time, tokens, error and diff, and the matched start request |
| `AnalyticsDetails.TurnEventTellsItsFacts` | src/codex-rs/analytics/src/reducer.rs:1606-1664 | in every run a turn event says exactly that, up to and including the fact that caused it: completion, start time, tokens, error, and the images and thread of the config or of the matched start request |
| `AnalyticsDetails.AcceptedLinesGoWithTheTurn` | src/codex-rs/analytics/src/reducer.rs:2546-2574 | with it goes one event with the totals the scanner reads in the turn's latest diff, if and only if there is a diff and they are not both zero |
| `AnalyticsExceptions.TurnCanBeStuck` | src/codex-rs/analytics/src/reducer.rs:1621-1637 | a run in which a turn has all its parts and its thread a context, but its own connection is not registered and nothing is emitted |
| `AnalyticsCounters.TurnsAreKnownExactlyWhen` | src/codex-rs/analytics/src/reducer.rs:668-715 | in every run a turn has a state if and only if a fact about it, or a start reply that the facts leave matched, came since its event was last emitted |
| `AnalyticsCounters.CountersFollowHistory` | src/codex-rs/analytics/src/reducer.rs:1230-1255 | in every run a turn's steer count and its eight tool counts are those of the accepted steers, matched to requests by the facts alone, and of the counted items, since it became known |
| `AnalyticsCounters.ToolTotalIsTheSum` | src/codex-rs/analytics/src/reducer.rs:395-420 | in every reachable state the total is the sum of the seven categories |
| `AnalyticsCounters.TurnEventCountersFollowHistory` | src/codex-rs/analytics/src/reducer.rs:1480-1487 | the counters in an emitted turn event are those of its history, kind by kind |
| `AnalyticsReviews.StepSummary` | src/codex-rs/analytics/src/reducer.rs:1539-1604 | one fact clears, extends or leaves alone one item's summary; which, and with what outcome, is told by the facts |
| `AnalyticsReviews.ReviewIsReportedExactlyWhen` | src/codex-rs/analytics/src/reducer.rs:1072-1155 | in every run a fact emits a review event if and only if it settles or aborts a pending approval, or is a guardian review that is over with valid times, of a connected thread; it is the only one and says the review, reviewer, status, resolution and end by the fact's own decision |
| `AnalyticsReviews.ApprovalIsReadAs` | src/codex-rs/analytics/src/reducer.rs:956-1070 | which subject, trigger and access an approval request is read as, each if and only if |
| `AnalyticsReviews.GuardianActionIsReadAs` | src/codex-rs/analytics/src/reducer.rs:2272-2348 | and a guardian action |
| `AnalyticsItems.StartedItemsFollowTheFacts` | src/codex-rs/analytics/src/reducer.rs:1213-1229 | in every run the items that are running are those validly started since they last ended |
| `AnalyticsItems.ToolItemIsReportedExactlyWhen` | src/codex-rs/analytics/src/reducer.rs:1230-1292 | in every run a fact emits a tool-item event if and only if it completes an item of one of the seven kinds, running, with a valid end, of a connected thread, whose turn is known, and that is over or is a web search or image generation; it is the only one and has the fact's item, kind and end and the item's start |
| `AnalyticsReviews.SummaryFollowsReviews` | src/codex-rs/analytics/src/reducer.rs:1587-1604 | in every run an item's summary summarises exactly the reviews concluded for it since it was last cleared |
| `AnalyticsReviews.ToolEventCountsItsReviews` | src/codex-rs/analytics/src/reducer.rs:2143-2183 | a tool-item event's counts, outcome (Unknown iff none) and flags describe exactly those reviews, also reviews whose own event was dropped |
| `AnalyticsReviews.ApprovalIsReviewedAtMostOnce` | src/codex-rs/analytics/src/reducer.rs:956-1155 | in every run an approval request yields at most one user review event per time it was made with a valid start time, and fewer while one is pending |
| `AnalyticsReviews.PendingReviewsFollowTheirRequests` | src/codex-rs/analytics/src/reducer.rs:956-1155 | what is pending under an id is its latest valid request that nothing has settled since |
| `AnalyticsRequests.RequestWaitsForItsReply` | src/codex-rs/analytics/src/reducer.rs:1157-1168 | a pending request is untouched by everything but a reply on its connection with its id or a new request under that name |
| `AnalyticsRequests.PendingRequestsFollowTheFacts` | src/codex-rs/analytics/src/reducer.rs:637-666 | in every run what is pending under a connection and id is the latest request there that no reply has used up |
| `AnalyticsReviews.SteerIsReportedAtMostOnce` | src/codex-rs/analytics/src/reducer.rs:1473-1496 | a steer request yields at most one steer event, from a reply on its connection to its id; no other fact emits one |
| `AnalyticsReports.SteerIsReportedExactlyWhen` | src/codex-rs/analytics/src/reducer.rs:1473-1537 | in every run a fact emits a steer event if and only if it replies to a pending steer on an initialized connection for a known thread; it is the only one and says the request and the reply |
| `DiffScanner.AcceptedLines` | src/codex-rs/analytics/src/accepted_lines.rs:30-83 | the scanning loop computes the scan of the lines |
| `DiffScanner.ScanConcat` | src/codex-rs/analytics/src/accepted_lines.rs:39-76 | scanning is compositional: the second part is read in the mode the first leaves |
| `DiffScanner.TotalsIgnoreTheAlphabet` | src/codex-rs/analytics/src/accepted_lines.rs:60-75 | the totals do not depend on which characters are alphanumeric |
| `DiffCounts.InHunkExactlyWhen` | src/codex-rs/analytics/src/accepted_lines.rs:39-59 | the reader is inside a hunk if and only if one was opened since the last file line |
| `DiffCounts.ScanCountsTheLines` | src/codex-rs/analytics/src/accepted_lines.rs:39-76 | of any text, diff or not, the totals are the lines with a plus and with a minus, but for path lines outside a hunk |
| `DiffNormalized.NormalizedLineIs` | src/codex-rs/analytics/src/accepted_lines.rs:157-169 | a normalised line is the one text with single blanks between words and none around that has the line's letters and breaks; there is none if and only if it has at most three bytes or no alphanumeric character and no underscore |
| `DiffNormalized.NormalisingIsIdempotent` | src/codex-rs/analytics/src/accepted_lines.rs:157-169 | normalising twice is normalising once |
| `DiffNormalized.NormalisedAlikeExactlyWhen` | src/codex-rs/analytics/src/accepted_lines.rs:157-169 | two lines are normalised alike if and only if they have the same runs of non-blank characters |
| `DiffNormalized.NormalizedPathIs` | src/codex-rs/analytics/src/accepted_lines.rs:143-155 | a path is what stands between the blanks around it, without a leading `b/` or `a/`; none exactly for /dev/null |
| `DiffRoundTrip.LineIgnoresReturn` | src/codex-rs/analytics/src/accepted_lines.rs:143-169 | a carriage return left at a line's end changes nothing the scanner computes |
| `DiffRoundTrip.PrintedPathIsRead` | src/codex-rs/analytics/src/accepted_lines.rs:143-155 | a printed new path is read back as the file's name without the blanks at its end, a deleted file as none |
| `DiffRoundTrip.ScanReadsWhatWasPrinted` | src/codex-rs/analytics/src/accepted_lines.rs:30-83 | for every structured git diff, also when bodies look like headers, scanning the printed text gives its totals and its effective added lines with their files, but for blanks at the end of a name; exactly what the diff says if and only if no file whose name ends in a blank has an effective added line |
| `DiffRoundTrip.NameEndingInBlankIsMisread` | src/codex-rs/analytics/src/accepted_lines.rs:143-155 | a family of diffs whose lines are paired with the wrong file |
| `DiffRoundTrip.ScanIsAdditive` | src/codex-rs/analytics/src/accepted_lines.rs:40-44 | scanning is additive over concatenation at `diff --git` boundaries |
| `EventBatcher.TrackEventRequestBatches` | src/codex-rs/analytics/src/client.rs:569-590 | the batches concatenate to the events, none is empty, isolated events are alone, and no such partition is smaller |
| `EventBatcher.NoPartitionIsSmaller` | src/codex-rs/analytics/src/client.rs:569-590 | every legal partition has at least the needed number of batches |
| `EventBatcher.OneBatchIsEnough` | src/codex-rs/analytics/src/client.rs:573-583 | appending one legal batch needs at most one batch more |
| `ModuleBazel.ModuleEntrySetErrors` | src/.github/scripts/rusty_v8_module_bazel.py:111-138 | the errors are exactly the repeated files, the files without checksum and the manifest's files without entry; none if and only if entries are non-empty, distinct and exactly the manifest's files |
| `ModuleBazel.ModuleChecksumErrors` | src/.github/scripts/rusty_v8_module_bazel.py:141-157 | the errors are exactly the missing and the differing checksums of entries the manifest knows, with their names and values; none if and only if all agree |
| `ModuleBazel.CheckModuleText` | src/.github/scripts/rusty_v8_module_bazel.py:166-176 | the check succeeds exactly when every entry has a file and both comparisons agree |
| `ModuleBazel.RewritePieces` | src/.github/scripts/rusty_v8_module_bazel.py:208-217 | joining the untouched and the rewritten pieces gives the rewritten segments spelled out |
| `ModuleBazel.UpdateModuleText` | src/.github/scripts/rusty_v8_module_bazel.py:199-217 | the update is the rewritten text, or fails as specified |
| `ModuleBazelGuarantees.EntriesAreTheBlocks` | src/.github/scripts/rusty_v8_module_bazel.py:72-96 | the entries are the blocks whose name is rusty_v8, the version with underscores for dots and an underscore, in order, each with its first name, path and checksum; none are had exactly when one of them names no file |
| `ModuleBazelGuarantees.FieldLinesAreRead` | src/.github/scripts/rusty_v8_module_bazel.py:64-69 | a line of blanks, the field's name, blanks, an equals sign, blanks, a non-empty quoted value, a comma and blanks is read as that value |
| `ModuleBazelGuarantees.OnlyFieldLinesAreRead` | src/.github/scripts/rusty_v8_module_bazel.py:64-69 | and every line that is read as a field is spelled so |
| `ModuleBazelGuarantees.HexDigits` | src/.github/scripts/rusty_v8_module_bazel.py:180-181 | a checksum that may be replaced is a non-empty text of the sixteen lower-case digits |
| `ModuleBazelGuarantees.WrittenLineIsRead` | src/.github/scripts/rusty_v8_module_bazel.py:64-69 | the sha256 line written is read back with its indent and checksum and as nothing else |
| `ModuleBazelGuarantees.RewriteKeepsNameAndPath` | src/.github/scripts/rusty_v8_module_bazel.py:179-196 | rewriting keeps the block's name and path |
| `ModuleBazelGuarantees.ChecksumAfterRewrite` | src/.github/scripts/rusty_v8_module_bazel.py:179-196 | the block then reads as the new checksum if and only if no sha256 field precedes the place it was written to |
| `ModuleBazelGuarantees.HexShasAreEnough` | src/.github/scripts/rusty_v8_module_bazel.py:180-186 | none does when every sha256 field is hexadecimal |
| `ModuleBazelGuarantees.RewriteTwice` | src/.github/scripts/rusty_v8_module_bazel.py:179-196 | rewriting again succeeds, never lengthens the block, and changes nothing if and only if the checksum was not put before a blank line |
| `ModuleBazelGuarantees.RewriteKeepsTheOtherLines` | src/.github/scripts/rusty_v8_module_bazel.py:179-196 | every line that is neither blank nor a sha256 field survives in order |
| `ModuleBazelTexts.SegmentsSpellTheText` | src/.github/scripts/rusty_v8_module_bazel.py:72-77 | splitting a text into blocks and other lines loses nothing |
| `ModuleBazelTexts.TextIsReadAsItsSegments` | src/.github/scripts/rusty_v8_module_bazel.py:72-77 | a text spelled from well-formed segments is split into them again |
| `ModuleBazelTexts.UpdatedIsRead` | src/.github/scripts/rusty_v8_module_bazel.py:199-217 | the updated text is read as the rewritten segments |
| `ModuleBazelTexts.UpdateMakesCheckPass` | src/.github/scripts/rusty_v8_module_bazel.py:166-217 | after a successful update the check succeeds if and only if in no entry a sha256 field precedes the written place |
| `ModuleBazelTexts.HexTextPassesAfterUpdate` | src/.github/scripts/rusty_v8_module_bazel.py:166-217 | so it succeeds on every text whose sha256 fields are hexadecimal |
| `ModuleBazelTexts.SecondUpdateChangesNothing` | src/.github/scripts/rusty_v8_module_bazel.py:199-217 | a second update changes nothing if and only if no checksum was inserted before a blank line |
| `ModuleBazelTexts.UpdateTouchesOnlyChecksums` | src/.github/scripts/rusty_v8_module_bazel.py:199-217 | lines outside the entries are unchanged, and inside them everything but sha256 fields and blank lines |
| `ModuleBazelExceptions.SecondUpdateCanChangeTheText` | src/.github/scripts/rusty_v8_module_bazel.py:180-196 | a family of texts whose second update removes a line |
| `ModuleBazelExceptions.UpdateCanLeaveCheckFailing` | src/.github/scripts/rusty_v8_module_bazel.py:180-196 | a family of texts with a non-hexadecimal sha256 field that still fail the check after an update |
| `LintArgs.ParseWrapperArgs` | src/tools/argument-comment-lint/wrapper_common.py:55-104 | the parsing loop computes the parse |
| `LintArgsMeaning.ParserFindsWhatIsSaid` | src/tools/argument-comment-lint/wrapper_common.py:55-104 | in every list of lint arguments the parser's flags are what the arguments say: an argument is a value if and only if the one before it takes one and is not itself a value |
| `LintArgsMeaning.ParsedFlags` | src/tools/argument-comment-lint/wrapper_common.py:55-104 | so of every argument list, with the target choice read from the cargo arguments |
| `LintArgsGuarantees.ParseSplitsAtTheSeparator` | src/tools/argument-comment-lint/wrapper_common.py:55-104 | everything before the first separator is a lint argument, everything after it a cargo argument, also with a dangling value-taking flag |
| `LintArgsGuarantees.ParseBuilt` | src/tools/argument-comment-lint/wrapper_common.py:55-122 | what parsing a built list finds, flag by flag |
| `LintArgsGuarantees.NormalisationIsIdempotent` | src/tools/argument-comment-lint/wrapper_common.py:55-122 | rebuilding a built list returns it if and only if a manifest path was given or the default one is not the separator |
| `LintArgsMeaning.FinalArgs` | src/tools/argument-comment-lint/run.py:23-24 | parsing and building in place: the result is the caller's arguments in order and the defaults they do not overrule, told by what the arguments say, and is its own normal form under the same condition |
| `LintArgsGuarantees.SeparatorAsManifestGrows` | src/tools/argument-comment-lint/wrapper_common.py:111-112 | with the separator as manifest path every round grows the list |
| `LintArgsGuarantees.CallerArgumentsSurvive` | src/tools/argument-comment-lint/wrapper_common.py:107-122 | the caller's lint and cargo arguments survive in order, with at most one target choice appended, and exactly when none was made and no fix was asked for |
| `AppServerPath.ComponentsAreClean` | src/codex-rs/app-server-client/src/path.rs:21-31 | no component is empty or holds a separator |
| `AppServerPath.ComponentsAreTheRuns` | src/codex-rs/app-server-client/src/path.rs:21-31 | the components are the path's maximal separator-free runs |
| `AppServerPath.JoinSpells` | src/codex-rs/app-server-client/src/path.rs:33-41 | a join spells the path without the separators at its end, one separator of its convention, and the segment |
| `AppServerPath.JoinedConvention` | src/codex-rs/app-server-client/src/path.rs:33-58 | which separator convention a joined path has |
| `AppServerPath.JoinAddsTheSegment` | src/codex-rs/app-server-client/src/path.rs:21-41 | a join adds exactly its segment to the components |
| `AppServerPath.BareRootLosesTheSegment` | src/codex-rs/app-server-client/src/path.rs:33-41 | except for a Windows root made only of separators, for every segment |
| `AppServerPath.JoinAgreesWithComponents` | src/codex-rs/app-server-client/src/path.rs:21-58 | join and components agree if and only if the segment is non-empty and separator-free and the path is no such root |
| `ScalarClamp.SecretKeyFromDigest` | src/codex-rs/agent-identity/src/lib.rs:539-547 | the masks applied in place give the clamped first half of the digest |
| `ScalarClamp.ClampedValue` | src/codex-rs/agent-identity/src/lib.rs:543-545 | as an integer: bits 254 and 255 are replaced by bit 254 and the three lowest are cleared |
| `ScalarClamp.ClampedBounds` | src/codex-rs/agent-identity/src/lib.rs:543-545 | the scalar is a multiple of 8 in [2^254, 2^255) |
| `ScalarClamp.ClampedKeepsTheRest` | src/codex-rs/agent-identity/src/lib.rs:543-545 | all other bits are kept |
| `ScalarClamp.ClampingIsIdempotent` | src/codex-rs/agent-identity/src/lib.rs:543-545 | clamping twice is clamping once |

## Left out

- HTTP, websocket, socket and subprocess code, and the remote transport: input and output only.
- Requests, notifications and answers from the client to the runtime (`lib.rs` 500-530): plumbing without shared state.
- The timeouts around shutdown and the abort of a worker that does not stop: no clock in the model.
- Reducer facts that only push one event and touch no map (hooks, plugins, apps, skills, imports): easy members.
- The counting loops inside tool-item payloads (command actions, file changes, dynamic content): easy members.
- Event payload fields other than ids, context, counts, outcomes and times, such as subject names, models and durations.
- Overflow of the reducer's counters, which the source increments without a check; only `skipped_events` saturates and is modelled so.
- The text form of review ids: the source writes `user:` and the request id, so a string and an integer id can share one; here they stay apart.
- SHA-1, SHA-512 and base64: hashes are kept as what they are taken of.
- `parse_checksum_manifest` and `rusty_v8_http_file_versions`: one-line-at-a-time reading, easy members.
- Matches of a MODULE.bazel field pattern that spread one field over several lines; fields are one-line strings.
- The order and wording of error messages: errors are compared as sets, and a raised error is an absent result.
- File names that git prints quoted (with a newline or other special character in them): printed diffs name files unquoted, after `b/`.
- Environment flags and tool discovery in `wrapper_common.py`: input and output only.
- `agent-graph-store`: its traversal lives in code that is not part of this model.
