/**
 The store itself: one field per table, updated in place, every transaction
 computed on local copies and written back when it commits.
 */
module Store {
  import opened Domain
  import opened Ledger
  import opened Queues
  import opened Schema
  import opened Timestamp
  import opened Wrappers

  class SqliteStore {
    var recordings: map<Id, Recording>
    var transcripts: map<Id, Transcript>
    var transcriptionAttempts: map<Id, seq<Attempt>>
    var deliveries: map<Id, Delivery>
    var deliveryAttempts: map<Id, seq<Attempt>>
    var auditEvents: map<Id, seq<AuditEvent>>

    function T(): Tables
      reads this
    {
      Tables(recordings, transcripts, transcriptionAttempts, deliveries, deliveryAttempts, auditEvents)
    }

    ghost predicate Valid()
      reads this
    {
      T().Valid()
    }

    ghost function World(): World
      reads this
    {
      T().World()
    }

    constructor ()
      ensures Valid() && World() == map[]
    {
      recordings := map[];
      transcripts := map[];
      transcriptionAttempts := map[];
      deliveries := map[];
      deliveryAttempts := map[];
      auditEvents := map[];
    }

    // -- Statements --------------------------------------------------------------------

    /** `guarded_transition` on a copy of the table. */
    static method GuardedTransition(table: map<Id, Recording>, r: Id, next: RecordingStatus)
      returns (result: Result<map<Id, Recording>, StoreError>)
      ensures r !in table ==> result == Failure(RecordingNotFound)
      ensures r in table && !CanTransitionTo(table[r].status, next) ==>
                result == Failure(InvalidTransition(table[r].status, next))
      ensures r in table && CanTransitionTo(table[r].status, next) ==>
                result == Success(table[r := table[r].(status := next)])
    {
      if r !in table {
        return Failure(RecordingNotFound);
      }
      var current := table[r].status;
      if !CanTransitionTo(current, next) {
        return Failure(InvalidTransition(current, next));
      }
      return Success(table[r := table[r].(status := next)]);
    }

    predicate DeliveryIdTaken(id: Id)
      reads this
    {
      exists r | r in deliveries :: deliveries[r].id == id
    }

    /** The Recording a Delivery belongs to. */
    method RecordingIdForDelivery(deliveryId: Id) returns (r: Option<Id>)
      ensures r.None? <==> deliveryId !in IdsOf(deliveries)
      ensures r.Some? ==> r.value in deliveries && deliveries[r.value].id == deliveryId
    {
      if q :| q in deliveries && deliveries[q].id == deliveryId {
        return Some(q);
      }
      return None;
    }

    // -- Recovery ------------------------------------------------------------------------

    /** Runs before any worker; the report counts the rows each statement touched. */
    method RecoverAbandonedAttempts(now: Time) returns (report: RecoveryReport)
      requires Valid()
      modifies this
      ensures Valid() && World() == Recover(old(World()), now)
      ensures report == ReportOf(old(World()))
    {
      var t := T();
      var t1 := t.(recordings := ErrorOnAttempts(t));
      var openAttempts := OpenRows(t1.attempts);
      var t2 := t1.(attempts := ClosedAll(t1.attempts, now));
      var reverted := BareClaims(t2);
      var t3 := t2.(recordings := ClaimsReverted(t2));
      var t4 := t3.(recordings := ErrorOnTries(t3));
      var openTries := OpenRows(t4.tries);
      var t5 := t4.(tries := ClosedAll(t4.tries, now));
      RecoveryStatements(t, now);
      OpenRowsAreOpenAttempts(t);
      OpenRowsAreOpenTries(t);
      ClaimsAreBare(t, now);
      assert t5 == Recovered(t, now);
      recordings, transcriptionAttempts, deliveryAttempts := t5.recordings, t5.attempts, t5.tries;
      assert T() == t5;
      return RecoveryReport(|openAttempts|, |reverted|, |openTries|);
    }

    // -- Recordings ----------------------------------------------------------------------

    method CreateRecording(id: Id, n: NewRecording) returns (reply: Reply)
      requires Valid() && Distinct()
      modifies this
      ensures Valid() && Outcome(World(), reply) == Ledger.CreateRecording(old(World()), id, n)
    {
      ghost var w := World();
      if q :| q in recordings && SameKey(recordings[q], n.clientId, n.clientRecordingId) {
        assert HasKey(w, q, n);
        return Existing(q);
      }
      assert forall q :: !HasKey(w, q, n);
      if id in recordings {
        return Refused(Constraint);
      }
      var rec := Recording(n.clientId, n.clientRecordingId, n.audioDurationMs, n.receivedAt,
        Received, None, None, None);
      T().AddRecording(id, rec);
      recordings := recordings[id := rec];
      return Created;
    }

    /** `UNIQUE (client_id, client_recording_id)`. */
    ghost predicate Distinct()
      reads this
    {
      forall p, q | p in recordings && q in recordings
        && SameKey(recordings[p], recordings[q].clientId, recordings[q].clientRecordingId) :: p == q
    }

    // -- Transcription ----------------------------------------------------------------------

    /** Claim the oldest `received` Recording. */
    method ClaimReceivedForTranscription() returns (claimed: Option<(Id, Recording)>)
      requires Valid()
      modifies this
      ensures Valid()
      ensures claimed.None? ==> World() == old(World()) && forall q :: !IsReceived(old(World()), q)
      ensures claimed.Some? ==>
                var r := claimed.value.0;
                && OldestReceived(old(World()), r)
                && World() == Ledger.ClaimReceived(old(World()), r).world
                && claimed.value.1 == World()[r].rec
    {
      ghost var w := World();
      var queue := set r | r in recordings && recordings[r].status == Received;
      if queue == {} {
        forall q ensures !IsReceived(w, q) { assert IsReceived(w, q) ==> q in queue; }
        return None;
      }
      var r := Oldest(queue, map k | k in recordings :: recordings[k].receivedAt);
      forall q | IsReceived(w, q) ensures !TextBefore(w[q].rec.receivedAt, w[r].rec.receivedAt) {
        assert q in queue;
      }
      T().SetRecording(r, recordings[r].(status := Transcribing));
      var table := GuardedTransition(recordings, r, Transcribing);
      recordings := table.value;
      return Some((r, recordings[r]));
    }

    /** `transcribing` Recordings with a finished attempt and none in flight, oldest first. */
    method TranscriptionRetryCandidates() returns (candidates: seq<TranscriptionRetryCandidate>)
      ensures forall c | c in candidates :: c.recordingId in World() && Describes(c, World()[c.recordingId])
      ensures forall r | r in World() && RetryCandidate(World()[r]) ::
                exists i | 0 <= i < |candidates| :: candidates[i].recordingId == r
      ensures forall i, j | 0 <= i < j < |candidates| ::
                !TextBefore(candidates[j].recording.receivedAt, candidates[i].recording.receivedAt)
    {
      var t := T();
      var rows := Ordered(t.RetryQueue(), map k | k in recordings :: recordings[k].receivedAt);
      candidates := [];
      for i := 0 to |rows|
        invariant |candidates| == i
        invariant forall j | 0 <= j < i :: rows[j] in t.RetryQueue() && candidates[j] == t.RetryRow(rows[j])
      {
        assert rows[i] in t.RetryQueue();
        candidates := candidates + [t.RetryRow(rows[i])];
      }
      forall r | r in World() && RetryCandidate(World()[r])
        ensures exists i | 0 <= i < |candidates| :: candidates[i].recordingId == r
      {
        t.RetryQueueIs(r);
        var i :| 0 <= i < |rows| && rows[i] == r;
        assert candidates[i].recordingId == r;
      }
    }

    method StartTranscriptionAttempt(id: Id, r: Id, now: Time) returns (reply: Reply)
      requires Valid()
      modifies this
      ensures Valid() && Outcome(World(), reply) == StartTranscription(old(World()), id, r, now)
    {
      ghost var t := T();
      t.TakenAttempt(id);
      t.RowsOf(r);
      var rows := Rows(transcriptionAttempts, r);
      if HasOpen(rows) {
        return Lost;
      }
      if r !in recordings || IdTaken(transcriptionAttempts, id) {
        return Refused(Constraint);
      }
      var number := MaxNumber(rows) + 1;
      var started := rows + [Attempt(id, number, now, InProgress)];
      var anchor;
      match recordings[r].retryWindowStartedAt {
        case Some(window) => anchor := window;
        case None => anchor := TextMinStart(started);
      }
      t.StartAttemptRows(id, r, now, rows, number, anchor);
      transcriptionAttempts := transcriptionAttempts[r := started];
      return Started(number, anchor);
    }

    method SucceedTranscription(id: Id, r: Id, at: Time, text: string) returns (reply: Reply)
      requires Valid()
      modifies this
      ensures Valid() && Outcome(World(), reply) == Ledger.SucceedTranscription(old(World()), id, r, at, text)
    {
      var attempts := Finished(transcriptionAttempts, id, Succeeded(at));
      if r !in recordings || r in transcripts {
        return Refused(Constraint);
      }
      var texts := transcripts[r := Transcript(text, at)];
      var moved := GuardedTransition(recordings, r, Routing);
      if moved.Failure? {
        return Refused(moved.error);
      }
      T().StoreTranscript(id, Succeeded(at), r, Transcript(text, at), moved.value[r]);
      recordings, transcripts, transcriptionAttempts := moved.value, texts, attempts;
      return Done;
    }

    method RetryTranscription(id: Id, r: Id, at: Time, message: string) returns (reply: Reply)
      requires Valid()
      modifies this
      ensures Valid() && Outcome(World(), reply) == Ledger.RetryTranscription(old(World()), id, r, at, message)
    {
      var attempts := Finished(transcriptionAttempts, id, RetryableFailure(at, message));
      var recs := WithError(recordings, r, message);
      T().FinishAttempts(id, RetryableFailure(at, message));
      transcriptionAttempts := attempts;
      if r in recordings {
        T().SetRecording(r, recs[r]);
      }
      recordings := recs;
      return Done;
    }

    method FailTranscription(id: Id, r: Id, at: Time, message: string) returns (reply: Reply)
      requires Valid()
      modifies this
      ensures Valid() && Outcome(World(), reply) == Ledger.FailTranscription(old(World()), id, r, at, message)
    {
      var attempts := Finished(transcriptionAttempts, id, TerminalFailure(at, message));
      var recs := WithError(recordings, r, message);
      var moved := GuardedTransition(recs, r, TranscriptionFailed);
      if moved.Failure? {
        return Refused(moved.error);
      }
      T().FinishAttempts(id, TerminalFailure(at, message));
      transcriptionAttempts := attempts;
      T().SetRecording(r, moved.value[r]);
      recordings := moved.value;
      assert recordings == old(recordings)[r := moved.value[r]];
      return Done;
    }

    // -- Routing ------------------------------------------------------------------------------

    method ClaimRoutingCandidate() returns (candidate: Option<Id>)
      requires Valid()
      ensures candidate.None? ==> forall q :: !IsRouting(World(), q)
      ensures candidate.Some? ==> OldestRouting(World(), candidate.value)
    {
      var queue := set r | r in recordings && recordings[r].status == Routing;
      if queue == {} {
        forall q ensures !IsRouting(World(), q) { assert IsRouting(World(), q) ==> q in queue; }
        return None;
      }
      var r := Oldest(queue, map k | k in recordings :: recordings[k].receivedAt);
      forall q | IsRouting(World(), q) ensures !TextBefore(World()[q].rec.receivedAt, World()[r].rec.receivedAt) {
        assert q in queue;
      }
      return Some(r);
    }

    method MarkBacklogged(r: Id) returns (reply: Reply)
      requires Valid()
      modifies this
      ensures Valid() && Outcome(World(), reply) == Ledger.MarkBacklogged(old(World()), r)
    {
      var moved := GuardedTransition(recordings, r, Backlogged);
      if moved.Failure? {
        return Refused(moved.error);
      }
      T().SetRecording(r, moved.value[r]);
      recordings := moved.value;
      return Done;
    }

    method RouteToSink(r: Id, d: NewDelivery) returns (reply: Reply)
      requires Valid()
      modifies this
      ensures Valid() && Outcome(World(), reply) == Ledger.RouteToSink(old(World()), r, d)
    {
      T().TakenDelivery(d.id);
      // The conditional update is the claim: losers see no row and insert nothing.
      if r !in recordings || recordings[r].status != Routing {
        return AlreadyHandled;
      }
      var recs := recordings[r := recordings[r].(status := Delivering)];
      if r in deliveries || DeliveryIdTaken(d.id) {
        return Refused(Constraint);
      }
      recs := recs[r := recs[r].(selectedSink := Some(d.sink))];
      assert recs == recordings[r := recordings[r].(status := Delivering, selectedSink := Some(d.sink))];
      T().Dispatch(r, d);
      recordings, deliveries := recs, deliveries[r := NewRow(d)];
      return Done;
    }

    // -- Delivery --------------------------------------------------------------------------------

    /** `delivering` Deliveries with no attempt in flight, oldest selection first; fails if a Transcript is missing. */
    method DeliveryCandidates() returns (result: Result<seq<DeliveryRow>, StoreError>)
      requires Valid()
      ensures result.Success? <==> DeliveryScanWorks(World())
      ensures result.Success? ==>
                && (forall c | c in result.value ::
                      c.recordingId in World() && DescribesDelivery(c, World()[c.recordingId]))
                && (forall r | r in World() && DeliveryCandidate(World()[r]) ::
                      exists i | 0 <= i < |result.value| :: result.value[i].recordingId == r)
                && (forall i, j | 0 <= i < j < |result.value| ::
                      !TextBefore(result.value[j].delivery.selectedAt, result.value[i].delivery.selectedAt))
    {
      var t := T();
      var rows := Ordered(t.DeliveryQueue(), map k | k in deliveries :: deliveries[k].selectedAt);
      var candidates: seq<DeliveryRow> := [];
      for i := 0 to |rows|
        invariant |candidates| == i
        invariant forall j | 0 <= j < i ::
          rows[j] in t.DeliveryQueue() && rows[j] in transcripts && candidates[j] == t.DeliveryRowFor(rows[j])
      {
        assert rows[i] in t.DeliveryQueue();
        if rows[i] !in transcripts {
          t.DeliveryQueueIs(rows[i]);
          assert World()[rows[i]].transcript.None?;
          return Failure(RecordingNotFound);
        }
        candidates := candidates + [t.DeliveryRowFor(rows[i])];
      }
      t.EveryDeliveryListed(rows, candidates);
      return Success(candidates);
    }

    method StartDeliveryAttempt(id: Id, deliveryId: Id, now: Time) returns (reply: Reply)
      requires Valid()
      modifies this
      ensures Valid()
      ensures !DeliveryIdUsed(old(World()), deliveryId) ==>
                World() == old(World()) && reply == Refused(Constraint)
      ensures forall r {:trigger OwnsDelivery(old(World())[r], deliveryId)} |
                r in old(World()) && OwnsDelivery(old(World())[r], deliveryId) ::
                Outcome(World(), reply) == StartDelivery(old(World()), id, r, now)
    {
      ghost var t := T();
      t.TakenTry(id);
      ghost var whose := t.Owner(deliveryId);
      var rows := Rows(deliveryAttempts, deliveryId);
      if HasOpen(rows) {
        return Lost;
      }
      if !DeliveryIdTaken(deliveryId) || IdTaken(deliveryAttempts, id) {
        return Refused(Constraint);
      }
      var number := MaxNumber(rows) + 1;
      t.StartTryRows(id, whose, now, rows, number);
      deliveryAttempts := deliveryAttempts[deliveryId := rows + [Attempt(id, number, now, InProgress)]];
      return Started(number, now);
    }

    method SucceedDelivery(id: Id, deliveryId: Id, at: Time) returns (reply: Reply)
      requires Valid()
      modifies this
      ensures Valid()
      ensures !DeliveryIdUsed(old(World()), deliveryId) ==>
                World() == old(World()) && reply == Refused(DeliveryNotFound)
      ensures forall r {:trigger OwnsDelivery(old(World())[r], deliveryId)} |
                r in old(World()) && OwnsDelivery(old(World())[r], deliveryId) ::
                Outcome(World(), reply) == Ledger.SucceedDelivery(old(World()), id, r, at)
    {
      ghost var t := T();
      ghost var whose := t.Owner(deliveryId);
      var owner := RecordingIdForDelivery(deliveryId);
      if owner.None? {
        return Refused(DeliveryNotFound);
      }
      var r := owner.value;
      t.OwnerRows(r);
      var tries := Finished(deliveryAttempts, id, Succeeded(at));
      var rows := deliveries[r := deliveries[r].(status := Complete, completedAt := Some(at))];
      t.RefusalIs(r, Delivered);
      var moved := GuardedTransition(recordings, r, Delivered);
      if moved.Failure? {
        return Refused(moved.error);
      }
      t.SucceedDeliveryRows(id, r, at);
      recordings, deliveries, deliveryAttempts := moved.value, rows, tries;
      assert T() == t.(recordings := moved.value, deliveries := rows, tries := tries);
      return Done;
    }

    method RetryDelivery(id: Id, deliveryId: Id, at: Time, message: string) returns (reply: Reply)
      requires Valid()
      modifies this
      ensures Valid()
      ensures !DeliveryIdUsed(old(World()), deliveryId) ==>
                World() == old(World()) && reply == Refused(DeliveryNotFound)
      ensures forall r {:trigger OwnsDelivery(old(World())[r], deliveryId)} |
                r in old(World()) && OwnsDelivery(old(World())[r], deliveryId) ::
                Outcome(World(), reply) == Ledger.RetryDelivery(old(World()), id, r, at, message)
    {
      ghost var t := T();
      ghost var whose := t.Owner(deliveryId);
      var owner := RecordingIdForDelivery(deliveryId);
      if owner.None? {
        return Refused(DeliveryNotFound);
      }
      var r := owner.value;
      t.OwnerRows(r);
      var tries := Finished(deliveryAttempts, id, RetryableFailure(at, message));
      var rows := deliveries[r := deliveries[r].(latestError := Some(message))];
      var recs := WithError(recordings, r, message);
      t.RetryDeliveryRows(id, r, at, message);
      recordings, deliveries, deliveryAttempts := recs, rows, tries;
      return Done;
    }

    method FailDelivery(id: Id, deliveryId: Id, at: Time, message: string) returns (reply: Reply)
      requires Valid()
      modifies this
      ensures Valid()
      ensures !DeliveryIdUsed(old(World()), deliveryId) ==>
                World() == old(World()) && reply == Refused(DeliveryNotFound)
      ensures forall r {:trigger OwnsDelivery(old(World())[r], deliveryId)} |
                r in old(World()) && OwnsDelivery(old(World())[r], deliveryId) ::
                Outcome(World(), reply) == Ledger.FailDelivery(old(World()), id, r, at, message)
    {
      ghost var t := T();
      ghost var whose := t.Owner(deliveryId);
      var owner := RecordingIdForDelivery(deliveryId);
      if owner.None? {
        return Refused(DeliveryNotFound);
      }
      var r := owner.value;
      t.OwnerRows(r);
      var tries := Finished(deliveryAttempts, id, TerminalFailure(at, message));
      var rows := deliveries[r :=
        deliveries[r].(status := Failed, completedAt := Some(at), latestError := Some(message))];
      var recs := WithError(recordings, r, message);
      t.RefusalIs(r, DeliveryFailed);
      var moved := GuardedTransition(recs, r, DeliveryFailed);
      if moved.Failure? {
        return Refused(moved.error);
      }
      t.FailDeliveryRows(id, r, at, message);
      recordings, deliveries, deliveryAttempts := moved.value, rows, tries;
      assert T() == t.(recordings := moved.value, deliveries := rows, tries := tries);
      return Done;
    }

    // -- Operator actions ---------------------------------------------------------------------------

    method ManualRoute(r: Id, id: Id, sink: string, at: Time, deadline: Time) returns (reply: Reply)
      requires Valid()
      modifies this
      ensures Valid() && Outcome(World(), reply) == Ledger.ManualRoute(old(World()), r, id, sink, at, deadline)
    {
      T().TakenDelivery(id);
      if r !in recordings {
        return Refused(RecordingNotFound);
      }
      if recordings[r].status != Backlogged {
        return Refused(RecordingNotBacklogged(recordings[r].status));
      }
      if r in deliveries || DeliveryIdTaken(id) {
        return Refused(Constraint);
      }
      var d := NewDelivery(id, sink, at, Some(deadline));
      var recs := recordings[r := recordings[r].(selectedSink := Some(sink))];
      var moved := GuardedTransition(recs, r, Delivering);
      assert moved.value == recordings[r := recordings[r].(status := Delivering, selectedSink := Some(sink))];
      T().DispatchLogged(r, d, at, RoutedManually(sink));
      recordings, deliveries := moved.value, deliveries[r := NewRow(d)];
      auditEvents := auditEvents[r := Rows(auditEvents, r) + [AuditEvent(at, RoutedManually(sink))]];
      return Done;
    }

    method ManualRetryTranscription(r: Id, at: Time) returns (reply: Reply)
      requires Valid()
      modifies this
      ensures Valid() && Outcome(World(), reply) == Ledger.ManualRetryTranscription(old(World()), r, at)
    {
      if r !in recordings {
        return Refused(RecordingNotFound);
      }
      if recordings[r].status != TranscriptionFailed {
        return Refused(RecordingNotRetryable(recordings[r].status));
      }
      var moved := GuardedTransition(recordings, r, Transcribing);
      var recs := moved.value;
      recs := recs[r := recs[r].(latestError := None)];
      recs := recs[r := recs[r].(retryWindowStartedAt := Some(at))];
      assert recs == recordings[r := recs[r]];
      T().ReopenTranscriptionRows(r, at);
      recordings, auditEvents := recs, auditEvents[r := Rows(auditEvents, r) + [AuditEvent(at, RetriedTranscription)]];
      return Done;
    }

    method ManualRetryDelivery(r: Id, at: Time, deadline: Time) returns (reply: Reply)
      requires Valid()
      modifies this
      ensures Valid() && Outcome(World(), reply) == Ledger.ManualRetryDelivery(old(World()), r, at, deadline)
    {
      if r !in recordings {
        return Refused(RecordingNotFound);
      }
      if recordings[r].status != DeliveryFailed {
        return Refused(RecordingNotRetryable(recordings[r].status));
      }
      if r !in deliveries {
        return Refused(DeliveryNotFound);
      }
      var rows := deliveries[r := deliveries[r].(status := InDelivery, completedAt := None,
        retryDeadlineAt := Some(deadline), latestError := None, retryWindowStartedAt := Some(at))];
      var moved := GuardedTransition(recordings, r, Delivering);
      var recs := moved.value;
      recs := recs[r := recs[r].(latestError := None)];
      assert recs == recordings[r := recs[r]];
      T().ReopenDeliveryRows(r, at, deadline);
      recordings, deliveries := recs, rows;
      auditEvents := auditEvents[r := Rows(auditEvents, r) + [AuditEvent(at, RetriedDelivery)]];
      return Done;
    }
  }

  // -- ORDER BY ---------------------------------------------------------------------------------------

  /** A key whose time has the least text. */
  method Oldest(keys: set<Id>, at: map<Id, Time>) returns (r: Id)
    requires keys != {} && keys <= at.Keys
    ensures r in keys && forall q | q in keys :: !TextBefore(at[q], at[r])
  {
    r :| r in keys;
    var rest := keys - {r};
    TextBeforeIsStrict(at[r], at[r]);
    while rest != {}
      invariant rest <= keys && r in keys
      invariant forall q | q in keys && q !in rest :: !TextBefore(at[q], at[r])
      decreases rest
    {
      var q :| q in rest;
      if TextBefore(at[q], at[r]) {
        forall p | p in keys && p !in rest ensures !TextBefore(at[p], at[q]) {
          TextBeforeIsStrict(at[q], at[r]);
          TextBeforeTransitive(at[q], at[r], at[p]);
        }
        TextBeforeIsStrict(at[q], at[q]);
        r := q;
      }
      rest := rest - {q};
    }
  }

  /** The keys in the order of their times' text, each exactly once. */
  method Ordered(keys: set<Id>, at: map<Id, Time>) returns (rows: seq<Id>)
    requires keys <= at.Keys
    ensures |rows| == |keys| && forall q :: q in rows <==> q in keys
    ensures forall i, j | 0 <= i < j < |rows| :: !TextBefore(at[rows[j]], at[rows[i]])
  {
    rows := [];
    var rest := keys;
    while rest != {}
      invariant rest <= keys && |rows| + |rest| == |keys|
      invariant forall q :: q in rows <==> q in keys && q !in rest
      invariant forall i, q | 0 <= i < |rows| && q in rest :: !TextBefore(at[q], at[rows[i]])
      invariant forall i, j | 0 <= i < j < |rows| :: !TextBefore(at[rows[j]], at[rows[i]])
      decreases rest
    {
      var r := Oldest(rest, at);
      rows := rows + [r];
      rest := rest - {r};
    }
  }
}
