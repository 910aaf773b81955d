/**
 The store's transactions as functions on values.

 A `Case` is every row that belongs to one Recording; a `World` maps Recording
 ids to their cases. A transaction either takes full effect or returns the old
 world with the reason it was rolled back. None of these functions assumes that
 its caller behaves: any worker may call any of them with any argument.
 */
module Ledger {
  import opened Domain
  import opened Retry
  import opened Timestamp
  import opened Wrappers

  const ABANDONED_MESSAGE := "attempt abandoned when the service stopped"

  datatype Case = Case(
    rec: Recording,
    transcript: Option<Transcript>,
    attempts: seq<Attempt>,
    delivery: Option<Delivery>,
    tries: seq<Attempt>,
    audit: seq<AuditEvent>)

  type World = map<Id, Case>

  datatype StoreError =
    | InvalidTransition(from: RecordingStatus, to: RecordingStatus)
    | RecordingNotFound
    | DeliveryNotFound
    | RecordingNotBacklogged(status: RecordingStatus)
    | RecordingNotRetryable(status: RecordingStatus)
    | Constraint

  datatype Reply =
    | Done
    | Nothing
    | Lost
    | AlreadyHandled
    | Started(number: int, anchor: Time)
    | Created
    | Existing(id: Id)
    | Refused(error: StoreError)

  datatype Outcome = Outcome(world: World, reply: Reply)

  datatype NewRecording = NewRecording(
    clientId: string,
    clientRecordingId: string,
    audioDurationMs: Option<int>,
    receivedAt: Time)

  datatype NewDelivery = NewDelivery(
    id: Id,
    sink: string,
    selectedAt: Time,
    retryDeadlineAt: Option<Time>)

  // -- Constraints of the schema ------------------------------------------------

  predicate AttemptIdUsed(w: World, id: Id) {
    exists r | r in w :: HasId(w[r].attempts, id)
  }

  predicate TryIdUsed(w: World, id: Id) {
    exists r | r in w :: HasId(w[r].tries, id)
  }

  predicate OwnsDelivery(c: Case, id: Id) {
    c.delivery.Some? && c.delivery.value.id == id
  }

  predicate DeliveryIdUsed(w: World, id: Id) {
    exists r | r in w :: OwnsDelivery(w[r], id)
  }

  predicate SameKey(rec: Recording, clientId: string, clientRecordingId: string) {
    rec.clientId == clientId && rec.clientRecordingId == clientRecordingId
  }

  // -- What a transaction does to the one case it is about ------------------------

  function Moved(c: Case, next: RecordingStatus): Case {
    c.(rec := c.rec.(status := next))
  }

  function Troubled(c: Case, message: string): Case {
    c.(rec := c.rec.(latestError := Some(message)))
  }

  function Transcribed(c: Case, text: string, at: Time): Case {
    Moved(c.(transcript := Some(Transcript(text, at))), Routing)
  }

  /** A fresh Delivery to the chosen Sink. */
  function Dispatched(c: Case, d: NewDelivery): Case {
    var row := Delivery(d.id, d.sink, InDelivery, d.selectedAt, None, d.retryDeadlineAt, None, None);
    Moved(c.(delivery := Some(row), rec := c.rec.(selectedSink := Some(d.sink))), Delivering)
  }

  function Arrived(c: Case, at: Time): Case
    requires c.delivery.Some?
  {
    var d := c.delivery.value.(status := Complete, completedAt := Some(at));
    Moved(c.(delivery := Some(d)), Delivered)
  }

  function DeliveryTroubled(c: Case, message: string): Case
    requires c.delivery.Some?
  {
    Troubled(c.(delivery := Some(c.delivery.value.(latestError := Some(message)))), message)
  }

  function DeliveryGivenUp(c: Case, at: Time, message: string): Case
    requires c.delivery.Some?
  {
    var d := c.delivery.value.(status := Failed, completedAt := Some(at), latestError := Some(message));
    Moved(Troubled(c.(delivery := Some(d)), message), DeliveryFailed)
  }

  function Logged(c: Case, at: Time, kind: AuditKind): Case {
    c.(audit := c.audit + [AuditEvent(at, kind)])
  }

  function TranscriptionReopened(c: Case, at: Time): Case {
    var rec := c.rec.(status := Transcribing, latestError := None, retryWindowStartedAt := Some(at));
    Logged(c.(rec := rec), at, RetriedTranscription)
  }

  function DeliveryReopened(c: Case, at: Time, deadline: Time): Case
    requires c.delivery.Some?
  {
    var d := c.delivery.value.(status := InDelivery, completedAt := None,
      retryDeadlineAt := Some(deadline), latestError := None, retryWindowStartedAt := Some(at));
    var rec := c.rec.(status := Delivering, latestError := None);
    Logged(c.(rec := rec, delivery := Some(d)), at, RetriedDelivery)
  }

  // -- Statements that are not confined to one case --------------------------------

  function FinishAttempt(w: World, id: Id, state: AttemptState): World {
    map q | q in w :: w[q].(attempts := Mark(w[q].attempts, id, state))
  }

  function FinishTry(w: World, id: Id, state: AttemptState): World {
    map q | q in w :: w[q].(tries := Mark(w[q].tries, id, state))
  }

  /** The error of `guarded_transition`, if it refuses. */
  function Refusal(w: World, r: Id, next: RecordingStatus): Option<StoreError> {
    if r !in w then Some(RecordingNotFound)
    else if !CanTransitionTo(w[r].rec.status, next) then Some(InvalidTransition(w[r].rec.status, next))
    else None
  }

  // -- Recovery ---------------------------------------------------------------------

  function RecoverCase(c: Case, now: Time): Case {
    var attempts := CloseOpen(c.attempts, now);
    var error := if HasOpen(c.attempts) || (c.delivery.Some? && HasOpen(c.tries))
                 then Some(ABANDONED_MESSAGE) else c.rec.latestError;
    var status := if c.rec.status == Transcribing && attempts == [] then Received else c.rec.status;
    c.(rec := c.rec.(status := status, latestError := error),
       attempts := attempts,
       tries := CloseOpen(c.tries, now))
  }

  function Recover(w: World, now: Time): World {
    map r | r in w :: RecoverCase(w[r], now)
  }

  /** How many rows recovery is about to change. */
  datatype RecoveryReport = RecoveryReport(
    transcriptionAttempts: nat,
    revertedRecordings: nat,
    deliveryAttempts: nat)

  ghost function OpenAttempts(w: World): set<(Id, nat)> {
    set r, i: nat | r in w && i < |w[r].attempts| && w[r].attempts[i].Open() :: (r, i)
  }

  ghost function OpenTries(w: World): set<(Id, nat)> {
    set r, i: nat | r in w && i < |w[r].tries| && w[r].tries[i].Open() :: (r, i)
  }

  ghost function ClaimedOnly(w: World): set<Id> {
    set r | r in w && w[r].rec.status == Transcribing && w[r].attempts == []
  }

  ghost function ReportOf(w: World): RecoveryReport {
    RecoveryReport(|OpenAttempts(w)|, |ClaimedOnly(w)|, |OpenTries(w)|)
  }

  // -- Recordings -------------------------------------------------------------------

  function FreshCase(n: NewRecording): Case {
    Case(Recording(n.clientId, n.clientRecordingId, n.audioDurationMs, n.receivedAt,
                   Received, None, None, None),
         None, [], None, [], [])
  }

  ghost predicate HasKey(w: World, r: Id, n: NewRecording) {
    r in w && SameKey(w[r].rec, n.clientId, n.clientRecordingId)
  }

  /** `INSERT ... ON CONFLICT(client_id, client_recording_id) DO NOTHING`, then the read-back. */
  ghost function CreateRecording(w: World, id: Id, n: NewRecording): Outcome {
    if q :| HasKey(w, q, n) then Outcome(w, Existing(q))
    else if id in w then Outcome(w, Refused(Constraint))
    else Outcome(w[id := FreshCase(n)], Created)
  }

  // -- Transcription ------------------------------------------------------------------

  /** The claim's update; the select of the same transaction only finds `received` rows. */
  function ClaimReceived(w: World, r: Id): Outcome {
    if r in w && w[r].rec.status == Received then Outcome(w[r := Moved(w[r], Transcribing)], Done)
    else Outcome(w, Nothing)
  }

  function Anchor(c: Case, attempts: seq<Attempt>): Time
    requires attempts != []
  {
    match c.rec.retryWindowStartedAt
    case Some(window) => window
    case None => TextMinStart(attempts)
  }

  function StartTranscription(w: World, id: Id, r: Id, now: Time): Outcome {
    if r in w && HasOpen(w[r].attempts) then Outcome(w, Lost)
    else if r !in w || AttemptIdUsed(w, id) then Outcome(w, Refused(Constraint))
    else
      var number := MaxNumber(w[r].attempts) + 1;
      var attempts := w[r].attempts + [Attempt(id, number, now, InProgress)];
      Outcome(w[r := w[r].(attempts := attempts)], Started(number, Anchor(w[r], attempts)))
  }

  function SucceedTranscription(w: World, id: Id, r: Id, at: Time, text: string): Outcome {
    if r !in w || w[r].transcript.Some? then Outcome(w, Refused(Constraint))
    else if Refusal(w, r, Routing).Some? then Outcome(w, Refused(Refusal(w, r, Routing).value))
    else
      var m := FinishAttempt(w, id, Succeeded(at));
      Outcome(m[r := Transcribed(m[r], text, at)], Done)
  }

  function RetryTranscription(w: World, id: Id, r: Id, at: Time, message: string): Outcome {
    var m := FinishAttempt(w, id, RetryableFailure(at, message));
    Outcome(if r in w then m[r := Troubled(m[r], message)] else m, Done)
  }

  function FailTranscription(w: World, id: Id, r: Id, at: Time, message: string): Outcome {
    if Refusal(w, r, TranscriptionFailed).Some? then
      Outcome(w, Refused(Refusal(w, r, TranscriptionFailed).value))
    else
      var m := FinishAttempt(w, id, TerminalFailure(at, message));
      Outcome(m[r := Moved(Troubled(m[r], message), TranscriptionFailed)], Done)
  }

  // -- Routing --------------------------------------------------------------------------

  function MarkBacklogged(w: World, r: Id): Outcome {
    if Refusal(w, r, Backlogged).Some? then Outcome(w, Refused(Refusal(w, r, Backlogged).value))
    else Outcome(w[r := Moved(w[r], Backlogged)], Done)
  }

  /** `UNIQUE (recording_id)` and the primary key of `deliveries`. */
  predicate DeliveryConflict(w: World, r: Id, id: Id)
    requires r in w
  {
    w[r].delivery.Some? || DeliveryIdUsed(w, id)
  }

  function RouteToSink(w: World, r: Id, d: NewDelivery): Outcome {
    if r !in w || w[r].rec.status != Routing then Outcome(w, AlreadyHandled)
    else if DeliveryConflict(w, r, d.id) then Outcome(w, Refused(Constraint))
    else Outcome(w[r := Dispatched(w[r], d)], Done)
  }

  /** What the Routing Rules say about a Recording: a Sink, and the id its Delivery gets, or none. */
  datatype Verdict = ToSink(id: Id, sink: string) | ToBacklog

  /** The Routing tick after its read: the candidate it holds may be one that others already handled. */
  function DecideRoute(w: World, r: Id, now: Time, v: Verdict): Outcome {
    match v
    case ToBacklog => MarkBacklogged(w, r)
    case ToSink(id, sink) => RouteToSink(w, r, NewDelivery(id, sink, now, Some(now + DELIVERY_WINDOW)))
  }

  /** Whether the Routing tick reports an error, which would end the process. */
  predicate Fatal(reply: Reply) {
    reply.Refused? && !reply.error.InvalidTransition?
  }

  // -- Delivery ---------------------------------------------------------------------------

  function StartDelivery(w: World, id: Id, r: Id, now: Time): Outcome {
    if r in w && HasOpen(w[r].tries) then Outcome(w, Lost)
    else if r !in w || w[r].delivery.None? || TryIdUsed(w, id) then Outcome(w, Refused(Constraint))
    else
      var number := MaxNumber(w[r].tries) + 1;
      Outcome(w[r := w[r].(tries := w[r].tries + [Attempt(id, number, now, InProgress)])], Started(number, now))
  }

  predicate HasDelivery(w: World, r: Id) {
    r in w && w[r].delivery.Some?
  }

  function SucceedDelivery(w: World, id: Id, r: Id, at: Time): Outcome {
    if !HasDelivery(w, r) then Outcome(w, Refused(DeliveryNotFound))
    else if Refusal(w, r, Delivered).Some? then Outcome(w, Refused(Refusal(w, r, Delivered).value))
    else
      var m := FinishTry(w, id, Succeeded(at));
      Outcome(m[r := Arrived(m[r], at)], Done)
  }

  function RetryDelivery(w: World, id: Id, r: Id, at: Time, message: string): Outcome {
    if !HasDelivery(w, r) then Outcome(w, Refused(DeliveryNotFound))
    else
      var m := FinishTry(w, id, RetryableFailure(at, message));
      Outcome(m[r := DeliveryTroubled(m[r], message)], Done)
  }

  function FailDelivery(w: World, id: Id, r: Id, at: Time, message: string): Outcome {
    if !HasDelivery(w, r) then Outcome(w, Refused(DeliveryNotFound))
    else if Refusal(w, r, DeliveryFailed).Some? then Outcome(w, Refused(Refusal(w, r, DeliveryFailed).value))
    else
      var m := FinishTry(w, id, TerminalFailure(at, message));
      Outcome(m[r := DeliveryGivenUp(m[r], at, message)], Done)
  }

  // -- Operator actions -----------------------------------------------------------------

  function ManualRoute(w: World, r: Id, id: Id, sink: string, at: Time, deadline: Time): Outcome {
    if r !in w then Outcome(w, Refused(RecordingNotFound))
    else if w[r].rec.status != Backlogged then
      Outcome(w, Refused(RecordingNotBacklogged(w[r].rec.status)))
    else if DeliveryConflict(w, r, id) then Outcome(w, Refused(Constraint))
    else
      var c := Dispatched(w[r], NewDelivery(id, sink, at, Some(deadline)));
      Outcome(w[r := Logged(c, at, RoutedManually(sink))], Done)
  }

  function ManualRetryTranscription(w: World, r: Id, at: Time): Outcome {
    if r !in w then Outcome(w, Refused(RecordingNotFound))
    else if w[r].rec.status != TranscriptionFailed then
      Outcome(w, Refused(RecordingNotRetryable(w[r].rec.status)))
    else Outcome(w[r := TranscriptionReopened(w[r], at)], Done)
  }

  function ManualRetryDelivery(w: World, r: Id, at: Time, deadline: Time): Outcome {
    if r !in w then Outcome(w, Refused(RecordingNotFound))
    else if w[r].rec.status != DeliveryFailed then
      Outcome(w, Refused(RecordingNotRetryable(w[r].rec.status)))
    else if w[r].delivery.None? then Outcome(w, Refused(DeliveryNotFound))
    else Outcome(w[r := DeliveryReopened(w[r], at, deadline)], Done)
  }

  // -- One name for all of them -----------------------------------------------------------

  datatype Txn =
    | Recovery(now: Time)
    | Upload(id: Id, new_: NewRecording)
    | Claim(r: Id)
    | StartAttempt(id: Id, r: Id, now: Time)
    | SucceedAttempt(id: Id, r: Id, now: Time, text: string)
    | RetryAttempt(id: Id, r: Id, now: Time, message: string)
    | FailAttempt(id: Id, r: Id, now: Time, message: string)
    | Backlog(r: Id)
    | Route(r: Id, d: NewDelivery)
    | StartTry(id: Id, r: Id, now: Time)
    | SucceedTry(id: Id, r: Id, now: Time)
    | RetryTry(id: Id, r: Id, now: Time, message: string)
    | FailTry(id: Id, r: Id, now: Time, message: string)
    | RouteByHand(r: Id, id: Id, sink: string, at: Time, deadline: Time)
    | RetryTranscriptionByHand(r: Id, at: Time)
    | RetryDeliveryByHand(r: Id, at: Time, deadline: Time)

  ghost function Exec(w: World, t: Txn): Outcome {
    match t
    case Recovery(now) => Outcome(Recover(w, now), Done)
    case Upload(id, n) => CreateRecording(w, id, n)
    case Claim(r) => ClaimReceived(w, r)
    case StartAttempt(id, r, now) => StartTranscription(w, id, r, now)
    case SucceedAttempt(id, r, now, text) => SucceedTranscription(w, id, r, now, text)
    case RetryAttempt(id, r, now, message) => RetryTranscription(w, id, r, now, message)
    case FailAttempt(id, r, now, message) => FailTranscription(w, id, r, now, message)
    case Backlog(r) => MarkBacklogged(w, r)
    case Route(r, d) => RouteToSink(w, r, d)
    case StartTry(id, r, now) => StartDelivery(w, id, r, now)
    case SucceedTry(id, r, now) => SucceedDelivery(w, id, r, now)
    case RetryTry(id, r, now, message) => RetryDelivery(w, id, r, now, message)
    case FailTry(id, r, now, message) => FailDelivery(w, id, r, now, message)
    case RouteByHand(r, id, sink, at, deadline) => ManualRoute(w, r, id, sink, at, deadline)
    case RetryTranscriptionByHand(r, at) => ManualRetryTranscription(w, r, at)
    case RetryDeliveryByHand(r, at, deadline) => ManualRetryDelivery(w, r, at, deadline)
  }
}
