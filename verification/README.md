# Telegraph Center: a verified model

Telegraph Center receives audio Recordings over HTTP, stores them, has them
transcribed by a provider, routes each Transcript to a Sink (or parks it in a
Backlog for an Operator) and delivers it. This project models the parts of it
whose correctness is spread over many functions, and proves what they promise
together.

* **The store** (`Domain`, `Ledger`, `Queues`, `Schema`, `Store`). `Ledger`
  gives every transaction as a function on a `World`: a map from Recording ids
  to the rows that belong to each. `Store.SqliteStore` has one field per table,
  updated in place, and each of its methods is proved to do what the function
  says. No transaction assumes a well-behaved caller.
* **Laws of the store** (`StoreLaws`, `StoreTheorems`, `Traces`). What any
  sequence of transactions keeps, whoever issues them and however stale their
  arguments are: any number of workers of each kind.
* **The running service** (`Pipeline`, `PipelineInv`, `PipelineTheorems`,
  `Outcomes`, `BoundedWork`, `BoundedHistory`, `Progress`, `FairRuns`,
  `Finishing`, `Ticks`, `Workers`, `Witness`). A state machine with one Transcription loop, one
  Delivery loop, any number of Routing loops, uploads, Operator actions, crashes
  between any two steps, and restarts that run recovery first. A tick that
  reports an error stops the process. One global invariant is kept by every
  step; from it follow what is safe, what every step and every whole tick leaves
  behind row by row, how much work a Recording can cost, and that a service left
  alone drains. `Workers` holds the ticks as straight-line
  code over the store, each proved to be a run of the machine; `Witness` shows
  why a second Transcription loop would break it.
* **Retry arithmetic** (`Timestamp`, `Calendar`, `Retry`, `Tracks`, `Timeline`).
  Backoff, windows and deadlines over whole histories, and the order of
  timestamps compared as text.
* **Uploads** (`Uploads`, `Blob`, `Ingest`, `Wav`, `Bytes`). Handlers racing on
  an idempotency key with failures, dropped requests and crashes between any two
  calls; the sweep of the temp directory; the byte budget of a body; the WAV
  header scanner against a writer.
* **Smaller cores** (`Render`, `Soniox`, `Sessions`, `Throttle`, `Tags`,
  `Strings`).

Assumptions made throughout: the clock never goes backwards (an Operator
action may carry an older time), identifiers come from a supply that never
repeats, and a transaction either commits or has no effect.

Findings, where the code falls short of what one would expect of it:

* An Operator Session, a Delivery and the pipeline behave as documented. The
  login throttle does not quite: it selects failures by comparing text, so a
  failure in the same second as the cutoff can be missed and a closed fifteen
  minutes can hold eleven failures (`Throttle.ElevenInTheWindow`). Over a run it
  never does exactly if no wrong password ever arrives at ten failures of which
  more are missed than counted too long (`Throttle.FullWindowExactly`); one
  second less than the window is always safe (`Throttle.AtMostTen`). The handler's comment says failures are
  counted per username; with one constant address for everybody they are
  counted together (`Throttle.OneBucket`).
* A Recording can lose its audio (`Uploads.ReadBackMatters`): exactly if the
  insert that made its row was followed by a failed read-back and then by the
  removal of the file (`Uploads.RowsHaveAudio`). While no read-back fails, every
  row has its audio.
* `received_at` and `selected_at` are also compared as text. Within one second
  the order can differ from the order in time, exactly in the cases
  `Timestamp.TextBeforeExactly` gives; `MIN(started_at)` is safe
  (`PipelineTheorems.MinStartIsFirst`).
* The comment on `finish_delivery_attempt` says it finishes the row that is
  unfinished; neither finishing statement checks that. In every reachable state
  they do hit that one row (`PipelineTheorems.FinishHitsOneAttempt` and
  `FinishHitsOneTry`); out of them they rewrite whatever row has the id
  (`Witness.FinishChecksNothing`).

Verify with `dafny verify dfyconfig.toml`.

## Model

| member | source | states |
|---|---|---|
| Timestamp.FractionOrder | src/domain.rs:16-21 | two fractions of one second sort like time as text exactly when the earlier one's digits are not a prefix of the later one's |
| Timestamp.TextOrder | src/domain.rs:16-21 | text of different whole seconds sorts like the calendar fields, whatever the fractions |
| Timestamp.TextBeforeExactly | src/domain.rs:16-21 | an earlier time's text sorts first exactly when the two are not misordered |
| Calendar.StoredOrder | src/domain.rs:16-21 | comparing two stored texts byte by byte is the order used throughout: civil time to the second, then the fractions' digits |
| Calendar.StoredExactly | src/domain.rs:16-21 | the stored text of an earlier time sorts first unless the pair is misordered, so always when the times are a second or more apart |
| Calendar.LaterCivil | src/domain.rs:16-21 | a later second has later calendar fields, across midnights, month ends and leap years |
| Calendar.CivilIsRead | src/domain.rs:16-21 | the text up to the second is nineteen characters: six fields whose digits read as their numbers, each behind its separator |
| Calendar.FractionIsRead | src/domain.rs:16-21 | the rest is Z, or a point, the nanoseconds as decimals without trailing zeros, and Z |
| Timestamp.TextBeforeTransitive | src/domain.rs:16-21 | the order SQLite sees is a total preorder: not-after is transitive |
| Timestamp.TextIsTotal | src/domain.rs:16-21 | of two different times exactly one sorts first |
| Retry.WindowIsClamped | src/workers/retry.rs:34-42 | the Transcription window is twice the audio length clamped to 2 h and 24 h; the saturating doubling never shows |
| Retry.BackoffMonotone | src/workers/retry.rs:12-22 | backoff never shrinks with the attempt number and is at least a minute |
| Retry.OffsetBudget | src/workers/retry.rs:12-30 | the sum of the first j backoffs is under 24 h exactly for j up to 7, under 2 h exactly for j up to 4 |
| Domain.MaxNumber | src/storage/sqlite.rs:1021-1027 | the greatest attempt number, 0 for none |
| Domain.TextMinStartIsLeast | src/storage/sqlite.rs:1042-1060 | a start time of one of the rows, and no row's start sorts before it |
| Queues.OldestWithinASecond | src/storage/sqlite.rs:941-1216 | what a queue gives out is less than a second younger than anything else that waits in it, received, routing, due for a retry or for delivery |
| StoreLaws.ExecKeeps | src/storage/sqlite.rs:71-1374 | every transaction with any arguments keeps attempt discipline, agreement between the tables and uniqueness, and changes each Recording only as documented |
| StoreLaws.StartKeeps | src/storage/sqlite.rs:1002-1067 | starting an attempt, which checks no status, still numbers attempts 1..n with at most the last one open |
| StoreLaws.SucceedTranscriptionKeeps | src/storage/sqlite.rs:1071-1098 | a success stores its Transcript and the move to routing together or not at all |
| StoreLaws.RecoverKeeps | src/storage/sqlite.rs:71-143 | recovery keeps every law although it takes an edge the status graph lacks |
| StoreLaws.ManualRouteKeeps | src/storage/sqlite.rs:390-434 | Manual Routing keeps every law |
| StoreTheorems.EveryRunIsSound | src/storage/sqlite.rs:358-559 | after any run: a Transcript exists exactly from routing on, a Delivery exactly in delivering, delivered and delivery_failed with the same status and Sink, attempts numbered 1..n and only the last open |
| StoreTheorems.NothingIsUndone | src/storage/sqlite.rs:71-1374 | over any run a Recording's key, duration and time of receipt, a Transcript, a chosen Sink and a Delivery never change, rows are only added, delivered is absorbing, a dispatched Recording never returns to the Backlog |
| StoreTheorems.GuardIsTheGraph | src/domain.rs:227-242 | the guard of every move lets through exactly the ten documented edges |
| StoreTheorems.StatusPath | src/domain.rs:227-242 | one transaction moves a Recording along those edges or, in recovery, back to received before its first attempt |
| StoreTheorems.EveryHistoryIsAPath | src/domain.rs:227-242 | every run projected on one Recording is a path of that graph plus only recovery's edge |
| StoreTheorems.RoutingRace | src/workers/routing.rs:22-45 | a decision on a stale candidate takes effect exactly when the Recording is still routing; a loser changes nothing and sees no fatal error |
| StoreTheorems.OneDecision | src/storage/sqlite.rs:235-243 | over any run exactly one routing decision takes effect and at most one Delivery is created |
| StoreTheorems.FirstRow | src/storage/sqlite.rs:149-195 | a Recording that appears was uploaded by that very transaction: received, with the upload's key, duration and time, and nothing else |
| StoreTheorems.RecordingHasASource | src/storage/sqlite.rs:149-195 | after any run a Recording's key, duration and time of receipt are those of some upload of the run with its id |
| StoreTheorems.TranscriptHasASource | src/storage/sqlite.rs:1071-1098 | a Transcript is what some attempt of its own Recording succeeded with, at that time |
| StoreTheorems.DeliveryHasASource | src/storage/sqlite.rs:358-434 | a Delivery has the Sink, id and selection time some decision about its own Recording gave it |
| StoreTheorems.ManualRoutingIsCounted | src/storage/sqlite.rs:390-434 | manual_routing events number the exits from the Backlog |
| StoreTheorems.AtMostOneManualRouting | src/storage/sqlite.rs:390-434 | and there is at most one |
| StoreTheorems.RecoveryIsGentle | src/storage/sqlite.rs:71-143 | recovery abandons exactly the unfinished rows, at its own time, sets the error text of exactly their Recordings, reverts bare claims, and changes nothing else |
| StoreTheorems.RecoveryIsComplete | src/storage/sqlite.rs:71-143 | after recovery nothing is open, every transcribing Recording has an attempt, and the next report is zero |
| StoreTheorems.ReportIsExact | src/storage/sqlite.rs:136-142 | the report counts exactly the rows that changed |
| StoreTheorems.RecoveryIsIdempotent | src/storage/sqlite.rs:71-143 | a second recovery changes nothing |
| Tracks.Spread | src/workers/retry.rs:12-30 | attempt j of a window ends no sooner than the sum of the first j backoffs after the window opened |
| Tracks.RetriesPerWindow | src/workers/retry.rs:12-53 | at most 8 worker-recorded retryable failures per window, 5 in a 2 h window, through crashes and later windows |
| Tracks.AtMostNine | src/workers/retry.rs:12-53 | without manual retries and crashes at most nine attempts |
| Tracks.HistoryIsBounded | src/workers/retry.rs:12-53 | at most nine attempts (six in a 2 h window) for each window, besides those recovery abandoned |
| Tracks.SuccessIsConserved | src/storage/sqlite.rs:1071-1157 | one attempt succeeded if the work is done, none otherwise |
| Timeline.StartAnchor | src/storage/sqlite.rs:1042-1060 | the anchor a start returns is the last manual retry, else the first attempt's start |
| Timeline.FirstStartIsLeast | src/storage/sqlite.rs:1042-1060 | before any manual retry the first attempt's start is least, in time and as text |
| PipelineInv.StepInv | src/runtime.rs:144-241 | every step of the service keeps the global invariant, and only a crash stops the service |
| PipelineInv.TStartInv | src/workers/transcription.rs:24-46 | a start after a claim or a pick succeeds and leaves exactly this attempt in flight |
| PipelineInv.RestartInv | src/runtime.rs:156-165 | recovery before the workers restores the invariant from wherever the crash fell |
| PipelineTheorems.NothingIsStranded | src/workers/transcription.rs:24-46 | in every reachable state a Recording no loop holds is at exactly one stage: claimable, awaiting retry, routing, delivery or an Operator, or delivered |
| PipelineTheorems.WaitingWorkBecomesDue | src/workers/retry.rs:12-30 | whatever waits for a retry or a Delivery is due within six hours |
| PipelineTheorems.RetryIsDueExactly | src/workers/transcription.rs:103-120 | in every reachable state a retry is due exactly if the last attempt is over and the last logged manual retry is later than that, or 1 m, 5 m, 15 m, 1 h or 6 h have passed by the number of attempts |
| PipelineTheorems.DeliveryIsDueExactly | src/workers/delivery.rs:101-125 | the same for a Delivery, and an untried one is due from its selection on |
| PipelineTheorems.ServiceNeverFails | src/workers/mod.rs:141-174 | without a crash no tick of any loop ever reports an error |
| PipelineTheorems.StartsAlwaysWin | src/storage/sqlite.rs:1002-1067 | in every reachable state a loop's start wins its attempt |
| PipelineTheorems.FinishHitsOneAttempt | src/storage/sqlite.rs:1453-1476 | a finishing update hits exactly one row, the open last attempt of a transcribing Recording |
| PipelineTheorems.FinishHitsOneTry | src/storage/sqlite.rs:1479-1502 | the same for delivery attempts, with Recording and Delivery both delivering |
| PipelineTheorems.InFlightIsActive | src/storage/sqlite.rs:1002-1257 | an open attempt belongs to the running loop and implies transcribing (or delivering); received implies no attempt |
| PipelineTheorems.TranscriptionIsConserved | src/storage/sqlite.rs:442-494 | terminal failures equal manual_retry_transcription events plus one if now failed; successes are one iff a Transcript exists |
| PipelineTheorems.DeliveryIsConserved | src/storage/sqlite.rs:498-559 | the same for delivery, with delivery_failed and delivered |
| PipelineTheorems.TranscriptionWindows | src/workers/transcription.rs:77-120 | over the whole history retryable failures ended before their window's deadline, at most 8 (5) per window, and backoff was waived only after a terminal failure |
| PipelineTheorems.DeliveryWindows | src/workers/delivery.rs:54-125 | the same for Deliveries and their 24 h |
| PipelineTheorems.Deadlines | src/storage/sqlite.rs:521-532 | a Delivery's deadline is its last manual retry, else its selection, plus 24 h; both windows open at the logged time |
| PipelineTheorems.RunningDeadline | src/workers/transcription.rs:77-88 | the running attempt is held to the last manual retry, else the first start |
| PipelineTheorems.WaivedOnce | src/workers/transcription.rs:103-120 | before its wait is over a retry is due exactly if it is waived, and that is exactly while the last attempt is the terminal failure a strictly later manual retry answered |
| PipelineTheorems.DeliveryWaivedOnce | src/workers/delivery.rs:101-125 | the same for Deliveries; an untried Delivery was never retried by hand |
| PipelineTheorems.MinStartIsFirst | src/storage/sqlite.rs:1042-1060 | MIN over text is the first attempt's start whenever it is consulted |
| Outcomes.TranscriptionStarts | src/storage/sqlite.rs:1002-1067 | under the invariant a start adds one open row, numbered next, begun when the tick began, and hands over the anchor the log gives |
| Outcomes.TranscriptionEnds | src/workers/transcription.rs:62-98 | under the invariant the end of an attempt leaves exactly this: success, or a retry while the window counted from the log is open, or failure; Transcript, status, error text and the one row |
| Outcomes.DeliveryStarts | src/storage/sqlite.rs:1220-1261 | the same as a Transcription start, with the stored deadline |
| Outcomes.DeliveryEnds | src/workers/delivery.rs:48-93 | the same as a Transcription's end, with 24 h from the last logged manual retry or the selection |
| Outcomes.RoutingEnds | src/workers/routing.rs:26-45 | a decision leaves the Backlog, or a Delivery selected when the tick read its clock and due for 24 h; after losing the race nothing |
| Outcomes.FirstAttemptTick | src/workers/transcription.rs:19-98 | a whole tick on the oldest received Recording, from the clock reading to the stored result |
| Outcomes.RetryTick | src/workers/transcription.rs:19-98 | a whole tick with nothing received, on the oldest due retry |
| Outcomes.RoutingTick | src/workers/routing.rs:15-46 | a whole routing tick on the oldest routing Recording |
| Outcomes.DeliveryTick | src/workers/delivery.rs:18-93 | a whole tick on the oldest due Delivery |
| Outcomes.OperatorRoutes | src/storage/sqlite.rs:390-434 | under the invariant Manual Routing works exactly in the Backlog; what it writes and what it answers otherwise |
| Outcomes.OperatorRetriesTranscription | src/storage/sqlite.rs:442-494 | a manual retry works exactly on transcription_failed; what it writes and what it answers otherwise |
| Outcomes.OperatorRetriesDelivery | src/storage/sqlite.rs:498-559 | a manual retry works exactly on delivery_failed, with a fresh 24 h; what it writes and what it answers otherwise |
| BoundedWork.StepPays | src/workers/transcription.rs:19-120 | from any reachable history, every worker transaction on a Recording lowers a measure that no other step of the service or an upload raises |
| BoundedWork.WorkIsBounded | src/workers/delivery.rs:18-125 | from any reachable state, with no further crash or Operator action a Recording costs at most 38 more worker transactions |
| BoundedHistory.OnlyRecoveryAbandons | src/storage/sqlite.rs:71-143 | over any run of the store a Recording's abandoned attempts number at most the recoveries |
| BoundedHistory.AttemptsAreBounded | src/workers/retry.rs:12-53 | over any run with any crashes and Operator actions: attempts at most nine (six in a 2 h window) times one more than the manual retries, plus the restarts; the same for Deliveries |
| BoundedHistory.NineAttempts | src/workers/retry.rs:12-53 | left alone from the start, nine attempts and nine delivery attempts at most |
| Progress.TranscriptionTakes | src/workers/transcription.rs:24-35 | whenever a Recording is claimable or a retry is due, the step that takes the oldest is enabled; otherwise the tick goes on or ends |
| Progress.TranscriptionGoesOn | src/workers/transcription.rs:37-98 | what the loop took it can start, and whatever the provider answers it can end |
| Progress.DeliveryTakes | src/workers/delivery.rs:101-125 | a due Delivery is taken, and the scan never fails |
| Progress.DeliveryGoesOn | src/workers/delivery.rs:29-93 | a picked Delivery can be started, and whatever the Sink answers it can be ended |
| FairRuns.FairRunsDrain | src/workers/mod.rs:141-174 | from any reachable state, after more than 38 calm rounds for each Recording, in each of which every loop ticks, every Recording is delivered or with the Operator, whatever was answered and however the loops interleaved |
| Finishing.WorkCanBeFinished | src/runtime.rs:201-241 | such a run exists from every reachable state of the running service |
| Traces.RunIsATrace | src/runtime.rs:201-241 | every run of the service is a sequence of store transactions |
| Traces.ServiceKeepsItsWord | src/runtime.rs:144-241 | so between any two moments of a run nothing is undone, one decision and one Delivery at most, one exit from the Backlog, and a legal status history |
| Witness.StaleStart | src/storage/sqlite.rs:1010-1040 | on any transcribed Recording a start is accepted and then can be neither succeeded nor failed |
| Witness.TwoLoopsRace | src/runtime.rs:201-215 | a concrete run in which two Transcription loops pick one retry and the second opens such an attempt |
| Witness.FinishChecksNothing | src/storage/sqlite.rs:1453-1476 | a finishing update rewrites any row with its id, finished or not, of any Recording |
| Schema.RecoveryStatements | src/storage/sqlite.rs:71-143 | the five statements in order amount to recovery of every Recording |
| Schema.Tables.EndDelivery | src/storage/sqlite.rs:1265-1374 | the statements ending a delivery attempt change the one Recording as the transaction says |
| Schema.Tables.StoreTranscript | src/storage/sqlite.rs:1071-1098 | the statements of a success change the one Recording as the transaction says |
| Schema.Tables.DispatchLogged | src/storage/sqlite.rs:390-434 | the statements of Manual Routing likewise |
| Schema.Tables.TakenDelivery | src/storage/sqlite.rs:1528-1539 | a Delivery id is in the table exactly if some Recording owns it |
| Schema.Tables.EveryDeliveryListed | src/storage/sqlite.rs:1181-1216 | a full scan lists every delivering Delivery with no open attempt, and only those |
| Schema.OpenRowsAreOpenTries | src/storage/sqlite.rs:116-142 | as many delivery attempts are open by Delivery as by Recording |
| Store.SqliteStore.GuardedTransition | src/storage/sqlite.rs:1399-1422 | refuses a missing Recording and a forbidden move, otherwise changes only the status |
| Store.SqliteStore.RecordingIdForDelivery | src/storage/sqlite.rs:1528-1539 | finds the owner of a Delivery exactly if there is one |
| Store.SqliteStore.RecoverAbandonedAttempts | src/storage/sqlite.rs:71-143 | leaves the recovered world and reports the exact counts |
| Store.SqliteStore.CreateRecording | src/storage/sqlite.rs:149-195 | inserts, or returns the row with the same idempotency key |
| Store.SqliteStore.ClaimReceivedForTranscription | src/storage/sqlite.rs:941-961 | claims the received Recording with the least received_at, or there is none |
| Store.SqliteStore.TranscriptionRetryCandidates | src/storage/sqlite.rs:965-998 | lists exactly the transcribing Recordings with finished attempts, oldest first, each described truly |
| Store.SqliteStore.StartTranscriptionAttempt | src/storage/sqlite.rs:1002-1067 | the whole new state and the anchor, or why it lost |
| Store.SqliteStore.SucceedTranscription | src/storage/sqlite.rs:1071-1098 | the whole new state, or the refusal with no effect |
| Store.SqliteStore.RetryTranscription | src/storage/sqlite.rs:1102-1124 | the whole new state |
| Store.SqliteStore.FailTranscription | src/storage/sqlite.rs:1128-1157 | the whole new state, or the refusal with no effect |
| Store.SqliteStore.ClaimRoutingCandidate | src/storage/sqlite.rs:1164-1177 | the routing Recording with the least received_at, or there is none |
| Store.SqliteStore.MarkBacklogged | src/storage/sqlite.rs:235-243 | the whole new state, or the refusal with no effect |
| Store.SqliteStore.RouteToSink | src/storage/sqlite.rs:358-385 | the whole new state, or AlreadyHandled with no effect |
| Store.SqliteStore.DeliveryCandidates | src/storage/sqlite.rs:1181-1216 | fails exactly if a candidate's Transcript is missing, otherwise lists exactly the candidates in order |
| Store.SqliteStore.StartDeliveryAttempt | src/storage/sqlite.rs:1220-1261 | the whole new state, or why it lost |
| Store.SqliteStore.SucceedDelivery | src/storage/sqlite.rs:1265-1299 | the whole new state for the Delivery's owner, or the refusal with no effect |
| Store.SqliteStore.RetryDelivery | src/storage/sqlite.rs:1303-1331 | the whole new state for the Delivery's owner |
| Store.SqliteStore.FailDelivery | src/storage/sqlite.rs:1335-1374 | the whole new state for the Delivery's owner, or the refusal with no effect |
| Store.SqliteStore.ManualRoute | src/storage/sqlite.rs:390-434 | the whole new state with its audit event, or the refusal with no effect |
| Store.SqliteStore.ManualRetryTranscription | src/storage/sqlite.rs:442-494 | the whole new state with its audit event, or the refusal with no effect |
| Store.SqliteStore.ManualRetryDelivery | src/storage/sqlite.rs:498-559 | the whole new state with its audit event, or the refusal with no effect |
| Workers.PickDueRetry | src/workers/transcription.rs:103-120 | the oldest due retry, or nothing is due |
| Workers.PickDueDelivery | src/workers/delivery.rs:101-125 | the oldest due Delivery, or nothing is due, or the scan failed |
| Workers.TakeTranscription | src/workers/transcription.rs:24-35 | a received Recording, else the oldest due retry, as the machine's steps |
| Workers.Transcribe | src/workers/transcription.rs:37-98 | from any claim, however stale, the rest of the tick is a run of the machine |
| Workers.TranscriptionTick | src/workers/transcription.rs:19-98 | the whole tick is a run of the machine and reports an error exactly if the machine stops |
| Workers.Decide | src/workers/routing.rs:26-45 | from any candidate, however stale, the decision is the machine's step; a lost race is no error |
| Workers.RoutingTick | src/workers/routing.rs:15-46 | the whole tick is a run of the machine |
| Workers.Deliver | src/workers/delivery.rs:29-93 | from a picked Delivery the rest of the tick is a run of the machine |
| Workers.DeliveryTick | src/workers/delivery.rs:18-93 | the whole tick is a run of the machine and reports an error exactly if the machine stops |
| Uploads.StepInv | src/http/api.rs:45-189 | every step of any upload, any other transaction and any restart keeps the upload invariant |
| Uploads.KnownKeyIsDuplicate | src/http/api.rs:61-68 | a request for a key that has a row is answered at once with that row and starts no upload; any other starts one |
| Uploads.AnswersExactly | src/http/api.rs:94-189 | over any run an upload is rejected exactly if one of its own calls failed; once its row was read back it is answered as stored if its insert made the row, and with the older row otherwise |
| Uploads.AnswersAgree | src/http/api.rs:61-90 | every successful answer for an idempotency key names the one row with that key, and only one says it was new |
| Uploads.RowsHaveAudio | src/http/api.rs:152-189 | over any run a row's blob is missing exactly if its insert was followed by a failed read-back and then the removal of the file; with no failed read-back every row has its blob; a blob holds exactly the bytes received |
| Uploads.BlobsHoldWhatWasWritten | src/http/api.rs:204-222 | a final blob is the chunks its upload wrote in the run, in order |
| Uploads.OrphansAreExplained | src/blob.rs:57-69 | any other final blob belongs to a running upload, one cut off, or one whose removal failed |
| Uploads.TempsAreExplained | src/blob.rs:57-60 | a temp file belongs to an upload still streaming, now or when it was cut off, or to a failed removal |
| Uploads.RestartSweeps | src/blob.rs:72-82 | sweeping the temp directory is what a restart does to temp files: all go but those whose removal fails |
| Blob.TempIsPart | src/blob.rs:40-44 | every upload's temp file has the extension the sweep looks for |
| Blob.TempNamesDiffer | src/blob.rs:40-44 | different uploads have different temp files |
| Blob.ExtensionIs | src/blob.rs:72-82 | the extension is what follows the last dot, unless nothing comes before that dot |
| Blob.BlobStore.CleanStaleTemp | src/blob.rs:72-82 | the loop removes exactly the temp files it can, and no other file |
| Uploads.ReadBackMatters | src/storage/sqlite.rs:185-195 | a concrete run in which a failed read-back costs a committed row its blob |
| Ingest.StreamToFile | src/http/api.rs:204-222 | the file is the chunks joined; the budget left or the first limit crossed |
| Ingest.ReadTextField | src/http/api.rs:227-243 | at most 64 KiB of UTF-8 within the budget, or which limit was crossed |
| Ingest.DiscardField | src/http/api.rs:246-255 | ignored fields are charged too |
| Ingest.JoinedInOrder | src/http/api.rs:204-222 | every byte of every chunk stands where the chunks before it end |
| Ingest.LastIsLast | src/http/api.rs:94-147 | the part kept of a name is the content of its last field, if there is one |
| Ingest.EveryByteIsCharged | src/http/api.rs:94-147 | what is charged are all the bytes of all the fields |
| Ingest.AudioIsCounted | src/http/api.rs:94-147 | the count of audio fields is their number |
| Ingest.ReadBody | src/http/api.rs:94-147 | a body is accepted exactly if every field is readable, all together fit the budget and one is audio; the parts are the fields' contents |
| Ingest.ReadLeadingBytes | src/http/api.rs:257-270 | short reads still give the leading bytes |
| Ingest.ReadMetadata | src/http/api.rs:149-151 | metadata is the scan of the leading 64 KiB, or the audio is unsupported |
| Ingest.LeadingBytesSuffice | src/http/api.rs:149-151 | once the leading bytes show a data header, scanning the whole file gives the same |
| Ingest.StoredMetadata | src/http/api.rs:149-151 | for a WAVE file the scan equals the full parse exactly if its data header ends within 64 KiB, and fails exactly if its format does not |
| Wav.ParseHeader | src/wav.rs:61-110 | the loop stays in bounds, terminates and computes the specified scan |
| Wav.ByteOrder | src/wav.rs:61-110 | two and four bytes are read with weights 1, 256, 65536 and 16777216 |
| Wav.IdsAreLetters | src/wav.rs:61-110 | the four ids are the codes of RIFF, WAVE, fmt and data |
| Wav.WrittenIsRead | src/wav.rs:118-137 | a number written low byte first is read back |
| Wav.RefusedByTheFirstTwelve | src/wav.rs:61-74 | which error any bytes get for their first twelve |
| Wav.EveryPrefixIsParsed | src/wav.rs:61-110 | the answer on every prefix of every WAVE file with any other chunks: error, format alone, or format and length |
| Wav.RoundTrip | src/wav.rs:118-137 | parsing what the writer wrote gives exactly the encoded fields and data length |
| Wav.FormatRead | src/wav.rs:82-89 | the sixteen format bytes decode to the fields they encode |
| Wav.MoreBytesSameAnswer | src/wav.rs:90-95 | for any bytes, once a data header was found more bytes change nothing |
| Wav.DurationIsExact | src/wav.rs:31-38 | the duration is data length over byte rate in whole milliseconds, without overflow |
| Render.RenderTokens | src/soniox/render.rs:54-75 | the loop renders one labelled line per maximal run that is not blank |
| Render.PushSegment | src/soniox/render.rs:77-90 | appends the trimmed segment on a line of its own, behind Speaker, the label and a colon if there is one |
| Render.OnlyGrouping | src/soniox/render.rs:64-72 | the runs are the one way to cut the tokens into unextendable runs of one label |
| Render.NothingIsLost | src/soniox/render.rs:54-90 | the text reads as one line for each turn that is not blank, in order: its trimmed words behind what its speaker is called; apart from labels no character but white space is lost, repeated or reordered |
| Soniox.Poll | src/soniox/mod.rs:189-218 | polls until the first settling status or the budget, and no further |
| Soniox.Run | src/soniox/mod.rs:121-184 | the exact calls and result for every script of answers |
| Soniox.FilesAreReleased | src/soniox/mod.rs:220-240 | the file is deleted once, last, exactly if it was uploaded |
| Soniox.TranscriptionsAreReleased | src/soniox/mod.rs:220-231 | the Transcription is deleted once, before the file, exactly if it was created |
| Soniox.PollsAreBounded | src/soniox/mod.rs:189-218 | status queries never exceed the budget and precede every deletion |
| Soniox.SuccessMeansCompleted | src/soniox/mod.rs:121-218 | success exactly if every call succeeded and a status within the budget said completed |
| Soniox.SuccessIsTheTranscript | src/soniox/mod.rs:170-184 | on success the text is what the transcript query answered, rendered, and the file and Transcription are the ones the run deleted |
| Soniox.FailureIsTheFirst | src/soniox/mod.rs:121-218 | on failure the error is that of the first operation that failed or the first poll that did not say to wait; a retryable timeout exactly if every poll did |
| Soniox.CallsNameTheirObjects | src/soniox/mod.rs:121-218 | every call names the file that was uploaded or the Transcription that was created, and the transcript is fetched once, after a completed status |
| Sessions.SessionStore.TouchSession | src/storage/sqlite.rs:820-836 | refreshes a row exactly if it exists and is not revoked |
| Sessions.SessionStore.RevokeSession | src/storage/sqlite.rs:839-852 | revokes at most once |
| Sessions.SessionStore.Authenticate | src/monitor/auth.rs:189-222 | one call's answer and its effect on the row |
| Sessions.CallsSucceedExactly | src/monitor/session.rs:27-37 | a call succeeds exactly if never logged out, within 14 days of creation and never 7 days between calls |
| Sessions.RejectionIsPermanent | src/monitor/session.rs:27-37 | after one rejection no call succeeds |
| Sessions.RowAfter | src/monitor/auth.rs:189-222 | the row after any history: last seen at the last call that succeeded, idle seven days after that but never past fourteen after creation, revoked at the first logout |
| Sessions.IdleWithinAbsolute | src/monitor/auth.rs:204-212 | under any interleaving the idle deadline never passes the absolute one, 14 days after creation |
| Sessions.RevokedForGood | src/storage/sqlite.rs:820-852 | no call whose touch follows the revocation is accepted, whatever it read before |
| Throttle.FailureTable.Count | src/storage/sqlite.rs:887-903 | counts the rows the query selects |
| Throttle.FailureTable.Clear | src/storage/sqlite.rs:872-883 | removes the rows the statement selects |
| Throttle.FailureTable.LoginPost | src/monitor/handlers.rs:88-125 | one attempt's decision and its effect on the rows |
| Throttle.LockHolds | src/monitor/throttle.rs:36-44 | while ten failures lie in the window less a second, every attempt of a run is turned away whatever its password, and nothing is recorded or cleared |
| Throttle.OneBucket | src/monitor/handlers.rs:35-38 | every failure counts against every username, and every success clears all |
| Throttle.AttemptExactly | src/monitor/handlers.rs:88-125 | one attempt by the corrected count of fifteen minutes: turned away from ten, two seconds late from five; a success forgets every failure and a wrong password adds one |
| Throttle.SuccessStartsOver | src/storage/sqlite.rs:872-883 | after a success a run goes on as from an empty table: the next five attempts are not delayed, the next ten not turned away |
| Throttle.CountIsCounted | src/storage/sqlite.rs:887-903 | the count is the number of rows with the username or the address that are not before the cutoff as text |
| Throttle.ClearedExactly | src/storage/sqlite.rs:872-883 | a clear removes every row of the username or the address and no other |
| Throttle.CountExactly | src/storage/sqlite.rs:887-903 | the text count plus what it misses is the count in time plus what it takes in too long |
| Throttle.AtMostTen | src/monitor/throttle.rs:36-44 | over any run no closed interval a second short of the window holds more than ten failures |
| Throttle.SpreadExactly | src/monitor/throttle.rs:36-44 | no interval holds more than ten exactly if any eleven consecutive failures span more |
| Throttle.FullWindowExactly | src/monitor/handlers.rs:88-125 | over any run the full closed window stays at ten exactly if no wrong password ever meets ten failures of which more are missed than overdue |
| Throttle.EleventhExactly | src/monitor/handlers.rs:88-125 | an eleventh failure is recorded exactly if more of the ten are missed than overdue |
| Throttle.ElevenInTheWindow | src/storage/sqlite.rs:887-903 | a concrete run of eleven recorded failures within fifteen minutes, one attempt at a time with every delay observed |
| Throttle.LockLifts | src/monitor/throttle.rs:36-44 | locked only while ten failures lie within the window and a second, and surely while ten lie a second inside it |
| Throttle.LockAlwaysLifts | src/monitor/handlers.rs:88-125 | however many attempts a lock turns away, the first after the window is let through |
| Tags.New | src/domain.rs:69-96 | accepts exactly up to 16 distinct valid normal forms, and names the first invalid one otherwise |
| Tags.NormalFormIs | src/domain.rs:69-80 | a normal form is what is left between the white space at both ends, capital letters lowered and nothing else changed |
| Tags.ValidTagsAreSpelled | src/domain.rs:135-147 | a valid tag has 1 to 32 small letters, digits, _ and -, and begins with a letter or digit |
| Tags.DistinctIsASet | src/domain.rs:74-80 | no tag twice, none added, none dropped |
| Tags.FirstSeenFirst | src/domain.rs:74-80 | first-seen order: more input only extends the list |
| Tags.NormalizingTwice | src/domain.rs:69-96 | accepted tags are accepted again unchanged |

## Left out

- SQL text, the connection pool, WAL and busy handling, row decoding and migrations: a transaction is atomic, and one that fails has no effect.
- Columns no decision reads: file name, sizes and audio parameters other than the duration, tags, `recorded_at`, the blob path (a function of the id), provider ids and raw JSON, HTTP statuses.
- The `updated_at` columns and the actor and id of audit events: nothing reads them back. Error codes and messages of a failure are one text.
- Ties in `ORDER BY`: `created_at` always equals `received_at`, and rows whose times have the same text may come in either order.
- The order of two Deliveries selected in the same second, when text and time disagree: `Timestamp.TextBeforeExactly` says when.
- Store calls used only by tests and seeding (`update_recording_status` on its own, `store_transcript`, `select_sink`, `mark_delivery_*`, `insert_*_attempt`): production never issues them, and they can break the invariants proved here.
- A transaction that fails for a reason of the database's own during a tick: it ends the process without effect, which is the crash of the state machine.
- HTTP, multipart framing, Tokio timing, the idle wait of `run_worker_loop` and the shutdown grace: replaced by nondeterministic steps, or by lists of chunks that may break off.
- `parse_tags` and `parse_recorded_at` beyond `Tags::new`: JSON and date parsing are library code, and the skew check is one comparison.
- File system failures while a body is read: `Uploads` lets every file operation fail, `Ingest` assumes they succeed.
- Rule matching and Sink lookup: routing may decide anything, so what is proved holds of every rule set.
- Webhook payloads and transports: a Sink answers success, a retryable failure or a terminal one.
- Argon2, token generation, hashing, cookies and CSRF comparison: tokens stand for their hashes.
- Times before the year 0 or after 9999, which RFC 3339 text cannot hold: `Calendar.Storable` says which times are meant.
- Concurrent login attempts: the throttle's counting is proved for attempts handled one at a time.
- Templates, list filters, configuration and deployment files: reading one branch settles them.
- Classification of provider errors: they arrive as retryable or terminal.
- Soniox.FailureIsTheFirst: the timeout's message leaves out the number of polls.
- Soniox.FilesAreReleased: the provider's answer to a deletion is ignored, as in the code, so a failed deletion leaves the resource behind.
- Uploads.RowsHaveAudio: partial writes of a chunk are not modelled; a chunk is written whole or the upload is abandoned.
