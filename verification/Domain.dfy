/** Statuses and rows, one datatype per table. */
module Domain {
  import opened Timestamp
  import opened Wrappers

  /** Identifiers come from a supply that never repeats; only equality matters. */
  type Id = nat

  datatype RecordingStatus =
    | Received
    | Transcribing
    | Routing
    | Backlogged
    | Delivering
    | Delivered
    | TranscriptionFailed
    | DeliveryFailed

  predicate CanTransitionTo(from: RecordingStatus, to: RecordingStatus) {
    match from
    case Received => to == Transcribing
    case Transcribing => to == Routing || to == TranscriptionFailed
    case TranscriptionFailed => to == Transcribing
    case Routing => to == Backlogged || to == Delivering
    case Backlogged => to == Delivering
    case Delivering => to == Delivered || to == DeliveryFailed
    case DeliveryFailed => to == Delivering
    case Delivered => false
  }

  datatype DeliveryStatus = InDelivery | Complete | Failed

  datatype Recording = Recording(
    clientId: string,
    clientRecordingId: string,
    audioDurationMs: Option<int>,
    receivedAt: Time,
    status: RecordingStatus,
    selectedSink: Option<string>,
    latestError: Option<string>,
    retryWindowStartedAt: Option<Time>)

  datatype Transcript = Transcript(text: string, createdAt: Time)

  /**
   The `status`, `retryable`, `finished_at` and error columns of an attempt row.
   `Abandoned` is the retryable failure written by recovery, told apart by its
   error text.
   */
  datatype AttemptState =
    | InProgress
    | Succeeded(at: Time)
    | RetryableFailure(at: Time, message: string)
    | TerminalFailure(at: Time, message: string)
    | Abandoned(at: Time)

  datatype Attempt = Attempt(id: Id, number: int, startedAt: Time, state: AttemptState) {
    predicate Open() { state.InProgress? }

    function FinishedAt(): Time
      requires !Open()
    {
      state.at
    }
  }

  datatype Delivery = Delivery(
    id: Id,
    sink: string,
    status: DeliveryStatus,
    selectedAt: Time,
    completedAt: Option<Time>,
    retryDeadlineAt: Option<Time>,
    latestError: Option<string>,
    retryWindowStartedAt: Option<Time>)

  /** `manual_routing`, `manual_retry_transcription` and `manual_retry_delivery`. */
  datatype AuditKind = RoutedManually(sink: string) | RetriedTranscription | RetriedDelivery

  datatype AuditEvent = AuditEvent(at: Time, kind: AuditKind)

  // -- Attempt tables ----------------------------------------------------------

  predicate HasOpen(s: seq<Attempt>) {
    exists i | 0 <= i < |s| :: s[i].Open()
  }

  predicate HasId(s: seq<Attempt>, id: Id) {
    exists i | 0 <= i < |s| :: s[i].id == id
  }

  /** `COALESCE(MAX(attempt_number), 0)`. */
  function MaxNumber(s: seq<Attempt>): (m: int)
    ensures forall i | 0 <= i < |s| :: s[i].number <= m
    ensures if s == [] then m == 0 else exists i | 0 <= i < |s| :: s[i].number == m
  {
    if s == [] then 0
    else if |s| == 1 then s[0].number
    else
      var m := MaxNumber(s[..|s| - 1]);
      var last := s[|s| - 1].number;
      if m < last then last else m
  }

  /** `MIN(started_at)`, compared as text. */
  function TextMinStart(s: seq<Attempt>): (m: Time)
    requires s != []
    ensures exists i | 0 <= i < |s| :: s[i].startedAt == m
  {
    var last := s[|s| - 1].startedAt;
    if |s| == 1 then last
    else
      var m := TextMinStart(s[..|s| - 1]);
      if TextBefore(last, m) then last else m
  }

  /** It is a start of one of the rows, and no row's start sorts before it. */
  lemma {:induction false} TextMinStartIsLeast(s: seq<Attempt>)
    requires s != []
    ensures exists i | 0 <= i < |s| :: s[i].startedAt == TextMinStart(s)
    ensures forall i | 0 <= i < |s| :: !TextBefore(s[i].startedAt, TextMinStart(s))
  {
    var last := s[|s| - 1].startedAt;
    TextBeforeIsStrict(last, last);
    if |s| > 1 {
      var front := s[..|s| - 1];
      var m := TextMinStart(front);
      TextMinStartIsLeast(front);
      forall i | 0 <= i < |s| ensures !TextBefore(s[i].startedAt, TextMinStart(s)) {
        if i < |front| && TextBefore(last, m) {
          assert front[i] == s[i];
          TextBeforeIsStrict(last, m);
          TextBeforeTransitive(last, m, s[i].startedAt);
        }
      }
    }
  }

  /** `UPDATE ... WHERE id = ?` on the outcome columns: no check that the row is unfinished. */
  function Mark(s: seq<Attempt>, id: Id, state: AttemptState): (t: seq<Attempt>)
    ensures |t| == |s|
    ensures forall i | 0 <= i < |s| :: t[i] == if s[i].id == id then s[i].(state := state) else s[i]
  {
    seq(|s|, i requires 0 <= i < |s| => if s[i].id == id then s[i].(state := state) else s[i])
  }

  /** `UPDATE ... WHERE finished_at IS NULL` of recovery. */
  function CloseOpen(s: seq<Attempt>, at: Time): (t: seq<Attempt>)
    ensures |t| == |s|
    ensures forall i | 0 <= i < |s| :: t[i] == if s[i].Open() then s[i].(state := Abandoned(at)) else s[i]
  {
    seq(|s|, i requires 0 <= i < |s| => if s[i].Open() then s[i].(state := Abandoned(at)) else s[i])
  }
}
