/** The six tables as one value, and what each SQL statement does to it. */
module Schema {
  import opened Domain
  import opened Ledger
  import opened Queues
  import opened Timestamp
  import opened Wrappers

  function Rows<T>(table: map<Id, seq<T>>, key: Id): seq<T> {
    if key in table then table[key] else []
  }

  function Look<T>(table: map<Id, T>, key: Id): Option<T> {
    if key in table then Some(table[key]) else None
  }

  datatype TranscriptionRetryCandidate = TranscriptionRetryCandidate(
    recordingId: Id,
    recording: Recording,
    lastAttemptNumber: int,
    lastAttemptFinishedAt: Time,
    retryWindowStartedAt: Option<Time>)

  datatype DeliveryRow = DeliveryRow(
    recordingId: Id,
    delivery: Delivery,
    recording: Recording,
    transcript: Transcript,
    lastAttemptNumber: Option<int>,
    lastAttemptFinishedAt: Option<Time>,
    retryWindowStartedAt: Option<Time>)

  /** What a row of each work queue says about its case. */
  predicate Describes(c: TranscriptionRetryCandidate, k: Case) {
    && RetryCandidate(k)
    && c.recording == k.rec
    && c.lastAttemptNumber == k.attempts[|k.attempts| - 1].number
    && (var last := k.attempts[|k.attempts| - 1]; !last.Open() && c.lastAttemptFinishedAt == last.FinishedAt())
    && c.retryWindowStartedAt == k.rec.retryWindowStartedAt
  }

  predicate DescribesDelivery(c: DeliveryRow, k: Case) {
    && DeliveryCandidate(k)
    && c.delivery == k.delivery.value && c.recording == k.rec && Some(c.transcript) == k.transcript
    && c.retryWindowStartedAt == k.delivery.value.retryWindowStartedAt
    && (if k.tries == [] then c.lastAttemptNumber.None? && c.lastAttemptFinishedAt.None?
        else var last := k.tries[|k.tries| - 1];
          && c.lastAttemptNumber == Some(last.number)
          && !last.Open() && c.lastAttemptFinishedAt == Some(last.FinishedAt()))
  }

  function IdsOf(table: map<Id, Delivery>): set<Id> {
    set r | r in table :: table[r].id
  }

  /** The primary key of `deliveries`. */
  ghost predicate OwnIds(table: map<Id, Delivery>) {
    forall r, q {:trigger table[r].id, table[q].id} | r in table && q in table && table[r].id == table[q].id :: r == q
  }

  // -- The tables as one value -----------------------------------------------------------

  /**
   Recordings, transcripts and deliveries keyed by the Recording's id (unique in
   each of the three), attempts grouped by Recording in the order of their
   numbers, delivery attempts grouped by Delivery id, audit events by Recording.
   */
  datatype Tables = Tables(
    recordings: map<Id, Recording>,
    transcripts: map<Id, Transcript>,
    attempts: map<Id, seq<Attempt>>,
    deliveries: map<Id, Delivery>,
    tries: map<Id, seq<Attempt>>,
    audit: map<Id, seq<AuditEvent>>)
  {
    ghost function DeliveryIds(): set<Id> {
      IdsOf(deliveries)
    }

    /** Foreign keys and uniqueness, and nothing else. */
    ghost predicate Valid() {
      && transcripts.Keys <= recordings.Keys
      && attempts.Keys <= recordings.Keys
      && deliveries.Keys <= recordings.Keys
      && audit.Keys <= recordings.Keys
      && OwnIds(deliveries)
      && tries.Keys <= DeliveryIds()
    }

    function CaseOf(r: Id): Case
      requires r in recordings
    {
      Case(recordings[r], Look(transcripts, r), Rows(attempts, r), Look(deliveries, r),
           if r in deliveries then Rows(tries, deliveries[r].id) else [], Rows(audit, r))
    }

    /** The tables, seen one Recording at a time. */
    ghost function World(): World {
      map r | r in recordings :: CaseOf(r)
    }

    // What one statement on one table means for the cases.

    lemma SetRecording(r: Id, rec: Recording)
      requires Valid() && r in recordings
      ensures var t := this.(recordings := recordings[r := rec]);
              t.Valid() && t.World() == World()[r := World()[r].(rec := rec)]
    {
    }

    lemma AddRecording(r: Id, rec: Recording)
      requires Valid() && r !in recordings
      ensures var t := this.(recordings := recordings[r := rec]);
              t.Valid() && t.World() == World()[r := Case(rec, None, [], None, [], [])]
    {
    }

    lemma SetTranscript(r: Id, text: Transcript)
      requires Valid() && r in recordings
      ensures var t := this.(transcripts := transcripts[r := text]);
              t.Valid() && t.World() == World()[r := World()[r].(transcript := Some(text))]
    {
    }

    lemma SetAttempts(r: Id, rows: seq<Attempt>)
      requires Valid() && r in recordings
      ensures var t := this.(attempts := attempts[r := rows]);
              t.Valid() && t.World() == World()[r := World()[r].(attempts := rows)]
    {
    }

    lemma SetTries(r: Id, rows: seq<Attempt>)
      requires Valid() && r in deliveries
      ensures var t := this.(tries := tries[deliveries[r].id := rows]);
              t.Valid() && t.World() == World()[r := World()[r].(tries := rows)]
    {
      assert deliveries[r].id in DeliveryIds();
    }

    lemma SetDelivery(r: Id, row: Delivery)
      requires Valid() && r in deliveries && row.id == deliveries[r].id
      ensures var t := this.(deliveries := deliveries[r := row]);
              t.Valid() && t.World() == World()[r := World()[r].(delivery := Some(row))]
    {
      var t := this.(deliveries := deliveries[r := row]);
      forall d | d in DeliveryIds() ensures d in t.DeliveryIds() {
        var q :| q in deliveries && deliveries[q].id == d;
        assert q in t.deliveries && t.deliveries[q].id == d;
      }
    }

    lemma AddDelivery(r: Id, row: Delivery)
      requires Valid() && r in recordings && r !in deliveries && row.id !in DeliveryIds()
      ensures var t := this.(deliveries := deliveries[r := row]);
              t.Valid() && t.World() == World()[r := World()[r].(delivery := Some(row))]
    {
      var t := this.(deliveries := deliveries[r := row]);
      forall d | d in DeliveryIds() ensures d in t.DeliveryIds() {
        var q :| q in deliveries && deliveries[q].id == d;
        assert q in t.deliveries && t.deliveries[q].id == d;
      }
      assert Rows(tries, row.id) == [];
    }

    lemma AddAudit(r: Id, event: AuditEvent)
      requires Valid() && r in recordings
      ensures var t := this.(audit := audit[r := Rows(audit, r) + [event]]);
              t.Valid() && t.World() == World()[r := World()[r].(audit := World()[r].audit + [event])]
    {
    }

    lemma FinishAttempts(id: Id, state: AttemptState)
      requires Valid()
      ensures var t := this.(attempts := Finished(attempts, id, state));
              t.Valid() && t.World() == FinishAttempt(World(), id, state)
    {
      assert Mark([], id, state) == [];
    }

    lemma FinishTriesOf(id: Id, state: AttemptState, q: Id)
      requires q in recordings
      ensures this.(tries := Finished(tries, id, state)).CaseOf(q)
              == CaseOf(q).(tries := Mark(CaseOf(q).tries, id, state))
    {
      assert Mark([], id, state) == [];
    }

    lemma FinishTries(id: Id, state: AttemptState)
      requires Valid()
      ensures var t := this.(tries := Finished(tries, id, state));
              t.Valid() && t.World() == FinishTry(World(), id, state)
    {
      var t := this.(tries := Finished(tries, id, state));
      forall q | q in recordings ensures t.CaseOf(q) == CaseOf(q).(tries := Mark(CaseOf(q).tries, id, state)) {
        FinishTriesOf(id, state, q);
      }
    }

    /** The statements that end a delivery attempt, together. */
    lemma EndDelivery(id: Id, state: AttemptState, r: Id, row: Delivery, rec: Recording)
      requires Valid() && r in deliveries && row.id == deliveries[r].id
      ensures var t := this.(tries := Finished(tries, id, state), deliveries := deliveries[r := row],
                             recordings := recordings[r := rec]);
              var m := FinishTry(World(), id, state);
              t.Valid() && t.World() == m[r := m[r].(delivery := Some(row), rec := rec)]
    {
      var t1 := this.(tries := Finished(tries, id, state));
      var t2 := t1.(deliveries := deliveries[r := row]);
      FinishTries(id, state);
      t1.SetDelivery(r, row);
      t2.SetRecording(r, rec);
    }

    /** The statements that store a Transcript and move the Recording on. */
    lemma StoreTranscript(id: Id, state: AttemptState, r: Id, text: Transcript, rec: Recording)
      requires Valid() && r in recordings
      ensures var t := this.(attempts := Finished(attempts, id, state), transcripts := transcripts[r := text],
                             recordings := recordings[r := rec]);
              var m := FinishAttempt(World(), id, state);
              t.Valid() && t.World() == m[r := m[r].(transcript := Some(text), rec := rec)]
    {
      var t1 := this.(attempts := Finished(attempts, id, state));
      var t2 := t1.(transcripts := transcripts[r := text]);
      FinishAttempts(id, state);
      t1.SetTranscript(r, text);
      t2.SetRecording(r, rec);
    }

    lemma OwnerRows(r: Id)
      requires Valid() && r in deliveries
      ensures HasDelivery(World(), r) && r in recordings
      ensures World()[r].rec == recordings[r] && World()[r].delivery == Some(deliveries[r])
      ensures OwnsDelivery(World()[r], deliveries[r].id)
    {
    }

    /** What `guarded_transition` refuses, seen from the world. */
    lemma RefusalIs(r: Id, next: RecordingStatus)
      ensures r !in recordings ==> Refusal(World(), r, next) == Some(RecordingNotFound)
      ensures r in recordings ==>
                Refusal(World(), r, next) ==
                  if CanTransitionTo(recordings[r].status, next) then None
                  else Some(InvalidTransition(recordings[r].status, next))
    {
    }

    lemma SucceedDeliveryRows(id: Id, r: Id, at: Time)
      requires Valid() && r in deliveries && CanTransitionTo(recordings[r].status, Delivered)
      ensures var t := this.(tries := Finished(tries, id, Succeeded(at)),
                             deliveries := deliveries[r := deliveries[r].(status := Complete, completedAt := Some(at))],
                             recordings := recordings[r := recordings[r].(status := Delivered)]);
              t.Valid() && Outcome(t.World(), Done) == Ledger.SucceedDelivery(World(), id, r, at)
    {
      OwnerRows(r);
      EndDelivery(id, Succeeded(at), r, deliveries[r].(status := Complete, completedAt := Some(at)),
                  recordings[r].(status := Delivered));
    }

    lemma RetryDeliveryRows(id: Id, r: Id, at: Time, message: string)
      requires Valid() && r in deliveries
      ensures var t := this.(tries := Finished(tries, id, RetryableFailure(at, message)),
                             deliveries := deliveries[r := deliveries[r].(latestError := Some(message))],
                             recordings := WithError(recordings, r, message));
              t.Valid() && Outcome(t.World(), Done) == Ledger.RetryDelivery(World(), id, r, at, message)
    {
      OwnerRows(r);
      EndDelivery(id, RetryableFailure(at, message), r, deliveries[r].(latestError := Some(message)),
                  recordings[r].(latestError := Some(message)));
    }

    lemma FailDeliveryRows(id: Id, r: Id, at: Time, message: string)
      requires Valid() && r in deliveries && CanTransitionTo(recordings[r].status, DeliveryFailed)
      ensures var row := deliveries[r].(status := Failed, completedAt := Some(at), latestError := Some(message));
              var recs := WithError(recordings, r, message);
              var t := this.(tries := Finished(tries, id, TerminalFailure(at, message)),
                             deliveries := deliveries[r := row],
                             recordings := recs[r := recs[r].(status := DeliveryFailed)]);
              t.Valid() && Outcome(t.World(), Done) == Ledger.FailDelivery(World(), id, r, at, message)
    {
      OwnerRows(r);
      var recs := WithError(recordings, r, message);
      assert recs[r := recs[r].(status := DeliveryFailed)]
        == recordings[r := recordings[r].(status := DeliveryFailed, latestError := Some(message))];
      EndDelivery(id, TerminalFailure(at, message), r,
                  deliveries[r].(status := Failed, completedAt := Some(at), latestError := Some(message)),
                  recordings[r].(status := DeliveryFailed, latestError := Some(message)));
    }

    lemma StartAttemptRows(id: Id, r: Id, now: Time, rows: seq<Attempt>, number: int, anchor: Time)
      requires Valid() && r in World() && !IdTaken(attempts, id)
      requires rows == World()[r].attempts && !HasOpen(rows) && number == MaxNumber(rows) + 1
      requires anchor == Anchor(World()[r], rows + [Attempt(id, number, now, InProgress)])
      ensures var t := this.(attempts := attempts[r := rows + [Attempt(id, number, now, InProgress)]]);
              t.Valid() && Outcome(t.World(), Started(number, anchor)) == StartTranscription(World(), id, r, now)
    {
      TakenAttempt(id);
      var w, grown := World(), rows + [Attempt(id, number, now, InProgress)];
      assert StartTranscription(w, id, r, now) == Outcome(w[r := w[r].(attempts := grown)], Started(number, anchor));
      SetAttempts(r, grown);
    }

    /** The Recording of a Delivery id, if any row has that id. */
    lemma Owner(id: Id) returns (r: Id)
      requires Valid()
      ensures id in DeliveryIds() <==> DeliveryIdUsed(World(), id)
      ensures id in DeliveryIds() ==>
                && r in deliveries && deliveries[r].id == id
                && r in World() && OwnsDelivery(World()[r], id) && World()[r].tries == Rows(tries, id)
      ensures forall q {:trigger OwnsDelivery(World()[q], id)} | q in World() && OwnsDelivery(World()[q], id) :: q == r
      ensures id !in DeliveryIds() ==> Rows(tries, id) == []
    {
      TakenDelivery(id);
      r := 0;
      if id in DeliveryIds() {
        r :| r in deliveries && deliveries[r].id == id;
        OwnerRows(r);
      }
    }

    lemma StartTryRows(id: Id, r: Id, now: Time, rows: seq<Attempt>, number: int)
      requires Valid() && r in World() && World()[r].delivery.Some? && !IdTaken(tries, id)
      requires rows == World()[r].tries && !HasOpen(rows) && number == MaxNumber(rows) + 1
      ensures var grown := rows + [Attempt(id, number, now, InProgress)];
              var t := this.(tries := tries[World()[r].delivery.value.id := grown]);
              t.Valid() && Outcome(t.World(), Started(number, now)) == StartDelivery(World(), id, r, now)
    {
      TakenTry(id);
      var w, grown := World(), rows + [Attempt(id, number, now, InProgress)];
      assert StartDelivery(w, id, r, now) == Outcome(w[r := w[r].(tries := grown)], Started(number, now));
      SetTries(r, grown);
    }

    lemma ReopenTranscriptionRows(r: Id, at: Time)
      requires Valid() && r in recordings && recordings[r].status == TranscriptionFailed
      ensures var rec := recordings[r].(status := Transcribing, latestError := None, retryWindowStartedAt := Some(at));
              var t := this.(recordings := recordings[r := rec],
                             audit := audit[r := Rows(audit, r) + [AuditEvent(at, RetriedTranscription)]]);
              t.Valid() && Outcome(t.World(), Done) == Ledger.ManualRetryTranscription(World(), r, at)
    {
      var rec := recordings[r].(status := Transcribing, latestError := None, retryWindowStartedAt := Some(at));
      SetRecording(r, rec);
      this.(recordings := recordings[r := rec]).AddAudit(r, AuditEvent(at, RetriedTranscription));
    }

    lemma ReopenDeliveryRows(r: Id, at: Time, deadline: Time)
      requires Valid() && r in deliveries && recordings[r].status == DeliveryFailed
      ensures var rec := recordings[r].(status := Delivering, latestError := None);
              var row := deliveries[r].(status := InDelivery, completedAt := None,
                retryDeadlineAt := Some(deadline), latestError := None, retryWindowStartedAt := Some(at));
              var t := this.(recordings := recordings[r := rec], deliveries := deliveries[r := row],
                             audit := audit[r := Rows(audit, r) + [AuditEvent(at, RetriedDelivery)]]);
              t.Valid() && Outcome(t.World(), Done) == Ledger.ManualRetryDelivery(World(), r, at, deadline)
    {
      OwnerRows(r);
      var rec := recordings[r].(status := Delivering, latestError := None);
      var row := deliveries[r].(status := InDelivery, completedAt := None,
        retryDeadlineAt := Some(deadline), latestError := None, retryWindowStartedAt := Some(at));
      SetBoth(r, row, rec);
      this.(recordings := recordings[r := rec], deliveries := deliveries[r := row])
        .AddAudit(r, AuditEvent(at, RetriedDelivery));
    }

    /** `insert_delivery` and the move to `delivering`. */
    lemma Dispatch(r: Id, d: NewDelivery)
      requires Valid() && r in recordings && r !in deliveries && d.id !in DeliveryIds()
      ensures var rec := recordings[r].(status := Delivering, selectedSink := Some(d.sink));
              var t := this.(deliveries := deliveries[r := NewRow(d)], recordings := recordings[r := rec]);
              t.Valid() && t.World() == World()[r := Dispatched(World()[r], d)]
    {
      var t1 := this.(deliveries := deliveries[r := NewRow(d)]);
      AddDelivery(r, NewRow(d));
      t1.SetRecording(r, recordings[r].(status := Delivering, selectedSink := Some(d.sink)));
    }

    lemma DispatchLogged(r: Id, d: NewDelivery, at: Time, kind: AuditKind)
      requires Valid() && r in recordings && r !in deliveries && d.id !in DeliveryIds()
      ensures var rec := recordings[r].(status := Delivering, selectedSink := Some(d.sink));
              var t := this.(deliveries := deliveries[r := NewRow(d)], recordings := recordings[r := rec],
                             audit := audit[r := Rows(audit, r) + [AuditEvent(at, kind)]]);
              t.Valid() && t.World() == World()[r := Logged(Dispatched(World()[r], d), at, kind)]
    {
      var rec := recordings[r].(status := Delivering, selectedSink := Some(d.sink));
      Dispatch(r, d);
      this.(deliveries := deliveries[r := NewRow(d)], recordings := recordings[r := rec])
        .AddAudit(r, AuditEvent(at, kind));
    }

    /** A Recording and its Delivery updated together. */
    lemma SetBoth(r: Id, row: Delivery, rec: Recording)
      requires Valid() && r in deliveries && row.id == deliveries[r].id
      ensures var t := this.(deliveries := deliveries[r := row], recordings := recordings[r := rec]);
              t.Valid() && t.World() == World()[r := World()[r].(delivery := Some(row), rec := rec)]
    {
      SetDelivery(r, row);
      this.(deliveries := deliveries[r := row]).SetRecording(r, rec);
    }

    // The work queues: which rows the selects return and what each row carries.

    function RetryQueue(): set<Id> {
      set r | r in recordings && recordings[r].status == Transcribing
              && Rows(attempts, r) != [] && !HasOpen(Rows(attempts, r))
    }

    lemma RetryQueueIs(r: Id)
      ensures r in RetryQueue() <==> r in World() && RetryCandidate(World()[r])
    {
    }

    function RetryRow(r: Id): (row: TranscriptionRetryCandidate)
      requires r in RetryQueue()
      ensures row.recordingId == r && Describes(row, CaseOf(r))
    {
      var last := attempts[r][|attempts[r]| - 1];
      assert !last.Open();
      TranscriptionRetryCandidate(r, recordings[r], last.number, last.FinishedAt(),
                                  recordings[r].retryWindowStartedAt)
    }

    function DeliveryQueue(): set<Id> {
      set r | r in deliveries && deliveries[r].status == InDelivery && !HasOpen(Rows(tries, deliveries[r].id))
    }

    lemma DeliveryQueueIs(r: Id)
      requires Valid()
      ensures r in DeliveryQueue() <==> r in World() && DeliveryCandidate(World()[r])
    {
    }

    function DeliveryRowFor(r: Id): (row: DeliveryRow)
      requires Valid() && r in DeliveryQueue() && r in transcripts
      ensures row.recordingId == r && DescribesDelivery(row, CaseOf(r))
    {
      var rows := Rows(tries, deliveries[r].id);
      var d := deliveries[r];
      if rows == [] then DeliveryRow(r, d, recordings[r], transcripts[r], None, None, d.retryWindowStartedAt)
      else
        var last := rows[|rows| - 1];
        assert !last.Open();
        DeliveryRow(r, d, recordings[r], transcripts[r], Some(last.number), Some(last.FinishedAt()),
                    d.retryWindowStartedAt)
    }

    /** A full list of rows, in any order, has a row for every Delivery that is due to be looked at. */
    lemma EveryDeliveryListed(rows: seq<Id>, candidates: seq<DeliveryRow>)
      requires Valid() && |rows| == |candidates| && forall r :: r in rows <==> r in DeliveryQueue()
      requires forall j | 0 <= j < |rows| ::
                 rows[j] in DeliveryQueue() && rows[j] in transcripts && candidates[j] == DeliveryRowFor(rows[j])
      ensures DeliveryScanWorks(World())
      ensures forall c | c in candidates ::
                c.recordingId in World() && DescribesDelivery(c, World()[c.recordingId])
      ensures forall r | r in World() && DeliveryCandidate(World()[r]) ::
                exists i | 0 <= i < |candidates| :: candidates[i].recordingId == r
    {
      forall r | r in World() && DeliveryCandidate(World()[r])
        ensures World()[r].transcript.Some? && exists i | 0 <= i < |candidates| :: candidates[i].recordingId == r
      {
        DeliveryQueueIs(r);
        var i :| 0 <= i < |rows| && rows[i] == r;
        assert candidates[i].recordingId == r;
      }
      forall c | c in candidates ensures c.recordingId in World() && DescribesDelivery(c, World()[c.recordingId]) {
        var i :| 0 <= i < |candidates| && candidates[i] == c;
        DeliveryQueueIs(rows[i]);
      }
    }

    lemma RowsOf(r: Id)
      requires Valid()
      ensures r in recordings ==> World()[r].attempts == Rows(attempts, r)
      ensures r !in recordings ==> r !in World() && Rows(attempts, r) == []
    {
    }

    lemma TakenAttempt(id: Id)
      requires Valid()
      ensures IdTaken(attempts, id) <==> AttemptIdUsed(World(), id)
    {
      var w := World();
      if IdTaken(attempts, id) {
        var k :| k in attempts && HasId(attempts[k], id);
        assert k in w && HasId(w[k].attempts, id);
      }
      if AttemptIdUsed(w, id) {
        var r :| r in w && HasId(w[r].attempts, id);
        assert r in attempts;
      }
    }

    lemma TakenTry(id: Id)
      requires Valid()
      ensures IdTaken(tries, id) <==> TryIdUsed(World(), id)
    {
      var w := World();
      if IdTaken(tries, id) {
        var d :| d in tries && HasId(tries[d], id);
        assert d in DeliveryIds();
        var r :| r in deliveries && deliveries[r].id == d;
        assert r in w && HasId(w[r].tries, id);
      }
      if TryIdUsed(w, id) {
        var r :| r in w && HasId(w[r].tries, id);
        assert r in deliveries && deliveries[r].id in tries;
      }
    }

    lemma TakenDelivery(id: Id)
      requires Valid()
      ensures id in DeliveryIds() <==> DeliveryIdUsed(World(), id)
      ensures forall r :: r in deliveries && deliveries[r].id == id <==> r in World() && OwnsDelivery(World()[r], id)
    {
      var w := World();
      if id in DeliveryIds() {
        var r :| r in deliveries && deliveries[r].id == id;
        assert r in w && OwnsDelivery(w[r], id);
      }
      if DeliveryIdUsed(w, id) {
        var r :| r in w && OwnsDelivery(w[r], id);
        assert r in deliveries;
      }
    }
  }

  function NewRow(d: NewDelivery): Delivery {
    Delivery(d.id, d.sink, InDelivery, d.selectedAt, None, d.retryDeadlineAt, None, None)
  }

  function Finished(table: map<Id, seq<Attempt>>, id: Id, state: AttemptState): map<Id, seq<Attempt>> {
    map k | k in table :: Mark(table[k], id, state)
  }

  function ClosedAll(table: map<Id, seq<Attempt>>, at: Time): map<Id, seq<Attempt>> {
    map k | k in table :: CloseOpen(table[k], at)
  }

  function OpenRows(table: map<Id, seq<Attempt>>): set<(Id, nat)> {
    set k, i: nat | k in table && 0 <= i < |table[k]| && table[k][i].Open() :: (k, i)
  }

  predicate IdTaken(table: map<Id, seq<Attempt>>, id: Id) {
    exists k | k in table :: HasId(table[k], id)
  }

  function WithError(table: map<Id, Recording>, r: Id, message: string): map<Id, Recording> {
    if r in table then table[r := table[r].(latestError := Some(message))] else table
  }

  // -- Recovery, statement by statement --------------------------------------------------------

  /** Surface the error on Recordings whose attempt was in flight. */
  function ErrorOnAttempts(t: Tables): map<Id, Recording> {
    map r | r in t.recordings ::
      if HasOpen(Rows(t.attempts, r)) then t.recordings[r].(latestError := Some(ABANDONED_MESSAGE))
      else t.recordings[r]
  }

  /** Claims that never got an attempt. */
  function BareClaims(t: Tables): set<Id> {
    set r | r in t.recordings && t.recordings[r].status == Transcribing && Rows(t.attempts, r) == []
  }

  function ClaimsReverted(t: Tables): map<Id, Recording> {
    map r | r in t.recordings ::
      if r in BareClaims(t) then t.recordings[r].(status := Received) else t.recordings[r]
  }

  function ErrorOnTries(t: Tables): map<Id, Recording> {
    map r | r in t.recordings ::
      if r in t.deliveries && HasOpen(Rows(t.tries, t.deliveries[r].id))
      then t.recordings[r].(latestError := Some(ABANDONED_MESSAGE)) else t.recordings[r]
  }

  lemma NothingOpenInNothing(now: Time)
    ensures CloseOpen([], now) == [] && !HasOpen([])
  {
  }

  /** The five statements of recovery, in the source's order. */
  function Recovered(t: Tables, now: Time): Tables {
    var t1 := t.(recordings := ErrorOnAttempts(t));
    var t2 := t1.(attempts := ClosedAll(t1.attempts, now));
    var t3 := t2.(recordings := ClaimsReverted(t2));
    var t4 := t3.(recordings := ErrorOnTries(t3));
    t4.(tries := ClosedAll(t4.tries, now))
  }

  /** The claims found bare after the attempts were closed are the ones that had no attempt before. */
  lemma ClaimsAreBare(t: Tables, now: Time)
    requires t.Valid()
    ensures BareClaims(t.(recordings := ErrorOnAttempts(t), attempts := ClosedAll(t.attempts, now)))
            == ClaimedOnly(t.World())
  {
    var u := t.(recordings := ErrorOnAttempts(t), attempts := ClosedAll(t.attempts, now));
    forall r | r in t.recordings ensures r in BareClaims(u) <==> r in ClaimedOnly(t.World()) {
      assert u.recordings[r].status == t.recordings[r].status;
      assert |Rows(u.attempts, r)| == |Rows(t.attempts, r)|;
    }
  }

  lemma RevertedClaim(t: Tables, r: Id)
    requires r in t.recordings
    ensures ClaimsReverted(t)[r] ==
      if t.recordings[r].status == Transcribing && Rows(t.attempts, r) == []
      then t.recordings[r].(status := Received) else t.recordings[r]
  {
  }

  lemma RecoveryOfRecording(t: Tables, r: Id, now: Time)
    requires t.Valid() && r in t.recordings
    ensures Recovered(t, now).recordings.Keys == t.recordings.Keys
    ensures Recovered(t, now).recordings[r] == RecoverCase(t.CaseOf(r), now).rec
  {
    NothingOpenInNothing(now);
    var t1 := t.(recordings := ErrorOnAttempts(t));
    var t2 := t1.(attempts := ClosedAll(t1.attempts, now));
    assert Rows(t2.attempts, r) == CloseOpen(Rows(t.attempts, r), now);
    var t3 := t2.(recordings := ClaimsReverted(t2));
    var t4 := t3.(recordings := ErrorOnTries(t3));
    RevertedClaim(t2, r);
    assert Recovered(t, now).recordings == t4.recordings;
  }

  lemma RecoveryOfRows(t: Tables, r: Id, now: Time)
    requires t.Valid() && r in t.recordings
    ensures Recovered(t, now).recordings.Keys == t.recordings.Keys
    ensures Recovered(t, now).CaseOf(r).attempts == CloseOpen(t.CaseOf(r).attempts, now)
    ensures Recovered(t, now).CaseOf(r).tries == CloseOpen(t.CaseOf(r).tries, now)
  {
    NothingOpenInNothing(now);
  }

  lemma RecoveryOfCase(t: Tables, r: Id, now: Time)
    requires t.Valid() && r in t.recordings
    ensures r in Recovered(t, now).recordings
    ensures Recovered(t, now).CaseOf(r) == RecoverCase(t.CaseOf(r), now)
  {
    RecoveryOfRecording(t, r, now);
    RecoveryOfRows(t, r, now);
  }

  /** Together they amount to recovery of every case. */
  lemma RecoveredIsValid(t: Tables, now: Time)
    requires t.Valid()
    ensures Recovered(t, now).Valid() && Recovered(t, now).recordings.Keys == t.recordings.Keys
  {
    assert Recovered(t, now).DeliveryIds() == t.DeliveryIds();
  }

  lemma RecoveryStatements(t: Tables, now: Time)
    requires t.Valid()
    ensures Recovered(t, now).Valid()
    ensures Recovered(t, now).World() == Recover(t.World(), now)
  {
    RecoveredIsValid(t, now);
    var u := Recovered(t, now);
    forall r | r in t.recordings ensures u.World()[r] == RecoverCase(t.World()[r], now) {
      RecoveryOfCase(t, r, now);
    }
  }

  lemma OpenRowsAreOpenAttempts(t: Tables)
    requires t.Valid()
    ensures OpenRows(t.attempts) == OpenAttempts(t.World())
  {
    var w := t.World();
    forall k, i: nat ensures (k, i) in OpenRows(t.attempts) <==> (k, i) in OpenAttempts(w) {
      if (k, i) in OpenRows(t.attempts) { assert k in w && w[k].attempts == t.attempts[k]; }
      if (k, i) in OpenAttempts(w) { assert k in t.attempts; }
    }
  }

  /** Two sets in one-to-one correspondence have the same size. */
  lemma {:induction false} SameSize<A, B>(pairs: map<A, B>)
    requires forall p, q | p in pairs && q in pairs && pairs[p] == pairs[q] :: p == q
    ensures |pairs.Keys| == |pairs.Values|
    decreases |pairs|
  {
    if pairs.Keys == {} {
      assert pairs.Values == {};
    } else {
      var p :| p in pairs;
      var rest := pairs - {p};
      assert rest.Values == pairs.Values - {pairs[p]} by {
        forall v | v in rest.Values ensures v in pairs.Values - {pairs[p]} {
          var q :| q in rest && rest[q] == v;
        }
        forall v | v in pairs.Values - {pairs[p]} ensures v in rest.Values {
          var q :| q in pairs && pairs[q] == v;
          assert q in rest && rest[q] == v;
        }
      }
      assert rest.Keys == pairs.Keys - {p};
      SameSize(rest);
    }
  }

  lemma OpenTryIs(t: Tables, r: Id, i: nat)
    requires t.Valid()
    ensures (r, i) in OpenTries(t.World()) <==> r in t.deliveries && (t.deliveries[r].id, i) in OpenRows(t.tries)
  {
    if r in t.deliveries {
      assert t.World()[r].tries == Rows(t.tries, t.deliveries[r].id);
    }
  }

  /** Delivery attempts are stored by Delivery and reported by Recording: the same number of them is open. */
  lemma OpenRowsAreOpenTries(t: Tables)
    requires t.Valid()
    ensures |OpenRows(t.tries)| == |OpenTries(t.World())|
  {
    var open := OpenTries(t.World());
    forall p | p in open ensures p.0 in t.deliveries { OpenTryIs(t, p.0, p.1); }
    var pairs := map p | p in open :: (t.deliveries[p.0].id, p.1);
    assert pairs.Keys == open;
    forall k, i: nat ensures (k, i) in OpenRows(t.tries) <==> (k, i) in pairs.Values {
      if (k, i) in OpenRows(t.tries) {
        assert k in t.DeliveryIds();
        var r :| r in t.deliveries && t.deliveries[r].id == k;
        OpenTryIs(t, r, i);
        assert (r, i) in pairs && pairs[(r, i)] == (k, i);
      }
      if (k, i) in pairs.Values {
        var p :| p in pairs && pairs[p] == (k, i);
        OpenTryIs(t, p.0, p.1);
      }
    }
    assert OpenRows(t.tries) == pairs.Values;
    SameSize(pairs);
  }
}
