/**
 The three ticks as they are written: straight-line code over the store, with a
 loop over the candidates. Each is proved to be a run of the pipeline's state
 machine, taken without interruption.

 The clock readings, the generated identifier and the collaborator's answer are
 parameters.
 */
module Workers {
  import opened Domain
  import opened Ledger
  import opened Pipeline
  import opened Queues
  import opened Retry
  import opened Schema
  import opened Store
  import opened Ticks
  import opened Timestamp
  import opened Wrappers

  // -- Transcription ----------------------------------------------------------------------

  /** One row of the scan in `pick_due_retry`. */
  function IsDue(c: TranscriptionRetryCandidate, now: Time): bool {
    var manualRetry := c.retryWindowStartedAt.Some? && c.retryWindowStartedAt.value > c.lastAttemptFinishedAt;
    manualRetry || now >= NextRetryAt(c.lastAttemptFinishedAt, c.lastAttemptNumber)
  }

  lemma DueAsDescribed(c: TranscriptionRetryCandidate, w: World, now: Time)
    requires c.recordingId in w && Describes(c, w[c.recordingId])
    ensures IsDue(c, now) <==> DueForRetry(w, c.recordingId, now)
  {
  }

  /** In a full scan in the order of `received_at`, the first due row is the oldest due. */
  lemma FirstDueIsOldest(rows: seq<TranscriptionRetryCandidate>, i: nat, w: World, now: Time)
    requires i < |rows|
    requires forall j | 0 <= j < |rows| ::
               rows[j].recordingId in w && Describes(rows[j], w[rows[j].recordingId])
    requires forall r | r in w && RetryCandidate(w[r]) :: exists j | 0 <= j < |rows| :: rows[j].recordingId == r
    requires forall j, k | 0 <= j < k < |rows| ::
               !TextBefore(rows[k].recording.receivedAt, rows[j].recording.receivedAt)
    requires DueForRetry(w, rows[i].recordingId, now)
    requires forall j | 0 <= j < i :: !DueForRetry(w, rows[j].recordingId, now)
    ensures OldestDueRetry(w, rows[i].recordingId, now)
  {
    forall q | DueForRetry(w, q, now) ensures !TextBefore(w[q].rec.receivedAt, rows[i].recording.receivedAt) {
      var j :| 0 <= j < |rows| && rows[j].recordingId == q;
      assert j >= i && Describes(rows[j], w[q]);
      TextBeforeIsStrict(rows[i].recording.receivedAt, rows[i].recording.receivedAt);
    }
  }

  method PickDueRetry(store: SqliteStore, now: Time) returns (picked: Option<TranscriptionRetryCandidate>)
    requires store.Valid()
    ensures picked.None? ==> forall r :: !DueForRetry(store.World(), r, now)
    ensures picked.Some? ==>
              && OldestDueRetry(store.World(), picked.value.recordingId, now)
              && picked.value.recording == store.World()[picked.value.recordingId].rec
  {
    var candidates := store.TranscriptionRetryCandidates();
    ghost var w := store.World();
    for i := 0 to |candidates|
      invariant forall j | 0 <= j < i :: !DueForRetry(w, candidates[j].recordingId, now)
    {
      var c := candidates[i];
      DueAsDescribed(c, w, now);
      if IsDue(c, now) {
        FirstDueIsOldest(candidates, i, w, now);
        return Some(c);
      }
    }
    return None;
  }

  /** A `received` Recording if there is one, else a due retry. */
  method TakeTranscription(store: SqliteStore, ghost s: Sys, startedAt: Time)
    returns (taken: Option<(Id, Option<int>)>, ghost take: seq<Step>)
    requires store.Valid() && s.up && s.t == TBegun(startedAt) && s.w == store.World()
    modifies store
    ensures store.Valid()
    ensures Legal(s, take)
    ensures taken.None? ==> take == [TNoneReceived, TNothing] && Run(s, take) == s.(w := store.World(), t := TIdle)
    ensures taken.Some? ==>
              && Taking(take, taken.value.0)
              && Run(s, take) == s.(w := store.World(), t := TClaimed(taken.value.0, startedAt, taken.value.1))
  {
    var claimed := store.ClaimReceivedForTranscription();
    if claimed.Some? {
      var (r, recording) := claimed.value;
      OneStep(s, TClaim(r));
      return Some((r, recording.audioDurationMs)), [TClaim(r)];
    }
    var picked := PickDueRetry(store, startedAt);
    ghost var scanning := s.(t := TScanning(startedAt));
    assert Enabled(s, TNoneReceived) && Apply(s, TNoneReceived) == scanning;
    if picked.None? {
      assert scanning.w == store.World() && Enabled(scanning, TNothing);
      TwoSteps(s, TNoneReceived, TNothing);
      return None, [TNoneReceived, TNothing];
    }
    var c := picked.value;
    TwoSteps(s, TNoneReceived, TPick(c.recordingId));
    return Some((c.recordingId, c.recording.audioDurationMs)), [TNoneReceived, TPick(c.recordingId)];
  }

  /** The transaction that closes the attempt, chosen by the answer and the deadline. */
  method CloseTranscription(store: SqliteStore, ghost s: Sys, r: Id, id: Id, anchor: Time, ms: Option<int>,
                            finishedAt: Time, answer: Answer)
    returns (reply: Reply)
    requires store.Valid() && s.t == TCalling(r, id, anchor, ms) && s.clock == finishedAt
    requires s.w == store.World()
    modifies store
    ensures store.Valid() && Outcome(store.World(), reply) == EndTranscription(s, answer)
  {
    match answer
    case Good(text) =>
      reply := store.SucceedTranscription(id, r, finishedAt, text);
    case Retryable(message) =>
      var deadline := TranscriptionDeadline(anchor, ms);
      if finishedAt >= deadline {
        reply := store.FailTranscription(id, r, finishedAt, message);
      } else {
        reply := store.RetryTranscription(id, r, finishedAt, message);
      }
    case Terminal(message) =>
      reply := store.FailTranscription(id, r, finishedAt, message);
  }

  /** The second half of the tick: from the claim to the end of the attempt. */
  method Transcribe(store: SqliteStore, ghost s: Sys, r: Id, ms: Option<int>, id: Id, startedAt: Time,
                    answer: Answer, finishedAt: Time)
    returns (tick: Tick, ghost steps: seq<Step>)
    requires store.Valid() && s.up && s.t == TClaimed(r, startedAt, ms) && s.d.DIdle? && s.routers == [RIdle]
    requires s.w == store.World() && s.clock <= finishedAt && !AttemptIdUsed(s.w, id)
    modifies store
    ensures store.Valid()
    ensures Ends(s, steps, store.World(), tick)
    ensures steps == [TStart(id)] || steps == [TStart(id), Advance(finishedAt), TFinish(answer)]
  {
    var start := store.StartTranscriptionAttempt(id, r, startedAt);
    StartSettles(s, id, Outcome(store.World(), start));
    if start.Lost? {
      return Success(Idle), [TStart(id)];
    }
    if start.Refused? {
      return Failure(start.error), [TStart(id)];
    }
    ghost var answered := s.(w := store.World(), clock := finishedAt, t := TCalling(r, id, start.anchor, ms));
    assert answered == Apply(s, TStart(id)).(clock := finishedAt);
    var reply := CloseTranscription(store, answered, r, id, start.anchor, ms, finishedAt, answer);
    tick := if reply.Refused? then Failure(reply.error) else Success(Worked);
    CloseSettles(answered, answer, Outcome(store.World(), reply));
    Waited(s, TStart(id), finishedAt, TFinish(answer), store.World(), tick);
    return tick, [TStart(id), Advance(finishedAt), TFinish(answer)];
  }

  /**
   `tick_once`: every outcome is a run of the machine that begins and ends between
   ticks, or stops it with an error.
   */
  method TranscriptionTick(store: SqliteStore, startedAt: Time, id: Id, answer: Answer, finishedAt: Time)
    returns (tick: Tick, ghost steps: seq<Step>)
    requires store.Valid() && startedAt <= finishedAt
    requires !AttemptIdUsed(store.World(), id)
    modifies store
    ensures store.Valid()
    ensures Ends(Alone(old(store.World()), startedAt), steps, store.World(), tick)
    ensures || steps == [TBegin] + [TNoneReceived, TNothing]
            || exists r, take | Taking(take, r) ::
                 || steps == [TBegin] + (take + [TStart(id)])
                 || steps == [TBegin] + (take + [TStart(id), Advance(finishedAt), TFinish(answer)])
  {
    ghost var s := Alone(store.World(), startedAt);
    ghost var begun := s.(t := TBegun(startedAt));
    TBegins(s);
    Empty(s.w, startedAt);
    var taken, take := TakeTranscription(store, begun, startedAt);
    if taken.None? {
      assert take + [] == take;
      Opening(begun, take, [], store.World(), Success(Idle));
      Before(s, TBegin, take, store.World(), Success(Idle));
      return Success(Idle), [TBegin] + take;
    }
    var (r, ms) := taken.value;
    ghost var held := begun.(w := store.World(), t := TClaimed(r, startedAt, ms));
    TakingUsesNoId(begun, take, r, id);
    tick, steps := Transcribe(store, held, r, ms, id, startedAt, answer, finishedAt);
    Opening(begun, take, steps, store.World(), tick);
    Before(s, TBegin, take + steps, store.World(), tick);
    steps := [TBegin] + (take + steps);
  }

  // -- Routing -------------------------------------------------------------------------------

  /**
   The second half of the tick, for a Recording some other router or the
   Operator may have handled since it was read: losing the race is not an error.
   */
  method Decide(store: SqliteStore, ghost s: Sys, r: Id, now: Time, verdict: Verdict)
    returns (tick: Tick)
    requires store.Valid() && s.up && s.t.TIdle? && s.d.DIdle? && s.routers == [RHolding(r, now)]
    requires s.w == store.World() && (verdict.ToSink? ==> !DeliveryIdUsed(s.w, verdict.id))
    modifies store
    ensures store.Valid()
    ensures Ends(s, [RDecide(0, verdict)], store.World(), tick)
  {
    var reply;
    match verdict {
      case ToBacklog =>
        reply := store.MarkBacklogged(r);
        if reply.Refused? && !reply.error.InvalidTransition? {
          tick := Failure(reply.error);
        } else {
          tick := Success(Worked);
        }
      case ToSink(id, sink) =>
        reply := store.RouteToSink(r, NewDelivery(id, sink, now, Some(now + DELIVERY_WINDOW)));
        tick := if reply.Refused? then Failure(reply.error) else Success(Worked);
    }
    DecideSettles(s, verdict, Outcome(store.World(), reply));
  }

  /** `tick_once` of routing. */
  method RoutingTick(store: SqliteStore, now: Time, verdict: Verdict)
    returns (tick: Tick, ghost steps: seq<Step>)
    requires store.Valid()
    requires verdict.ToSink? ==> !DeliveryIdUsed(store.World(), verdict.id)
    modifies store
    ensures store.Valid()
    ensures Ends(Alone(old(store.World()), now), steps, store.World(), tick)
    ensures |steps| >= 2 && steps[0] == RBegin(0)
    ensures steps[1..] == [RNothing(0)] || (steps[1].RPick? && steps[2..] == [RDecide(0, verdict)])
  {
    ghost var s := Alone(store.World(), now);
    ghost var begun := s.(routers := [RBegun(now)]);
    RBegins(s);
    var candidate := store.ClaimRoutingCandidate();
    if candidate.None? {
      NothingToRoute(store.World(), now);
      return Success(Idle), [RBegin(0), RNothing(0)];
    }
    var r := candidate.value;
    ghost var held := s.(routers := [RHolding(r, now)]);
    assert Apply(begun, RPick(0, r)) == held;
    tick := Decide(store, held, r, now, verdict);
    TwoSteps(s, RBegin(0), RPick(0, r));
    Opening(s, [RBegin(0), RPick(0, r)], [RDecide(0, verdict)], store.World(), tick);
    steps := [RBegin(0), RPick(0, r)] + [RDecide(0, verdict)];
  }

  // -- Delivery -------------------------------------------------------------------------------

  function IsDueForDelivery(c: DeliveryRow, now: Time): bool {
    var manualRetry := c.retryWindowStartedAt.Some?
      && (c.lastAttemptFinishedAt.None? || c.retryWindowStartedAt.value > c.lastAttemptFinishedAt.value);
    var due :=
      if c.lastAttemptNumber.Some? && c.lastAttemptFinishedAt.Some?
      then NextRetryAt(c.lastAttemptFinishedAt.value, c.lastAttemptNumber.value)
      else c.delivery.selectedAt;
    manualRetry || now >= due
  }

  lemma DeliveryDueAsDescribed(c: DeliveryRow, w: World, now: Time)
    requires c.recordingId in w && DescribesDelivery(c, w[c.recordingId])
    ensures IsDueForDelivery(c, now) <==> DueForDelivery(w, c.recordingId, now)
  {
  }

  /** Every candidate is listed, each as it is, in the order of selection. */
  ghost predicate FullScan(rows: seq<DeliveryRow>, w: World) {
    && (forall c | c in rows :: c.recordingId in w && DescribesDelivery(c, w[c.recordingId]))
    && (forall r | r in w && DeliveryCandidate(w[r]) :: exists j | 0 <= j < |rows| :: rows[j].recordingId == r)
    && (forall j, k | 0 <= j < k < |rows| :: !TextBefore(rows[k].delivery.selectedAt, rows[j].delivery.selectedAt))
  }

  /** What `pick_due_delivery` found, as a step of the machine. */
  ghost predicate Finds(w: World, now: Time, picked: Result<Option<DeliveryRow>, StoreError>) {
    && (picked.Success? <==> DeliveryScanWorks(w))
    && (picked == Success(None) ==> forall r :: !DueForDelivery(w, r, now))
    && (picked.Success? && picked.value.Some? ==>
          OldestDueDelivery(w, picked.value.value.recordingId, now)
          && DescribesDelivery(picked.value.value, w[picked.value.value.recordingId]))
  }

  lemma FoundNothing(s: Sys, picked: Result<Option<DeliveryRow>, StoreError>)
    requires s.up && s.d.DBegun? && Finds(s.w, s.d.startedAt, picked)
    ensures picked.Failure? ==> Enabled(s, DScanFails) && Apply(s, DScanFails) == s.(up := false)
    ensures picked == Success(None) ==> Enabled(s, DNothing) && Apply(s, DNothing) == s.(d := DIdle)
  {
  }

  lemma FoundOne(s: Sys, picked: Result<Option<DeliveryRow>, StoreError>)
    requires s.up && s.d.DBegun? && Finds(s.w, s.d.startedAt, picked) && picked.Success? && picked.value.Some?
    ensures var c := picked.value.value;
            && Enabled(s, DPick(c.recordingId))
            && Apply(s, DPick(c.recordingId))
               == s.(d := DPicked(c.recordingId, s.d.startedAt, c.delivery.retryDeadlineAt))
            && c.recordingId in s.w && OwnsDelivery(s.w[c.recordingId], c.delivery.id)
  {
  }

  lemma FirstDueDeliveryIsOldest(rows: seq<DeliveryRow>, i: nat, w: World, now: Time)
    requires i < |rows| && FullScan(rows, w)
    requires DueForDelivery(w, rows[i].recordingId, now)
    requires forall j | 0 <= j < i :: !DueForDelivery(w, rows[j].recordingId, now)
    ensures OldestDueDelivery(w, rows[i].recordingId, now)
  {
    forall q | DueForDelivery(w, q, now)
      ensures !TextBefore(w[q].delivery.value.selectedAt, rows[i].delivery.selectedAt)
    {
      var j :| 0 <= j < |rows| && rows[j].recordingId == q;
      assert j >= i && DescribesDelivery(rows[j], w[q]);
      TextBeforeIsStrict(rows[i].delivery.selectedAt, rows[i].delivery.selectedAt);
    }
  }

  lemma FirstDueIsFound(rows: seq<DeliveryRow>, i: nat, w: World, now: Time)
    requires i < |rows| && FullScan(rows, w) && DeliveryScanWorks(w)
    requires IsDueForDelivery(rows[i], now) && forall j | 0 <= j < i :: !IsDueForDelivery(rows[j], now)
    ensures Finds(w, now, Success(Some(rows[i])))
  {
    assert rows[i] in rows;
    forall j | 0 <= j <= i ensures IsDueForDelivery(rows[j], now) <==> DueForDelivery(w, rows[j].recordingId, now) {
      assert rows[j] in rows;
      DeliveryDueAsDescribed(rows[j], w, now);
    }
    FirstDueDeliveryIsOldest(rows, i, w, now);
  }

  lemma NoneIsFound(rows: seq<DeliveryRow>, w: World, now: Time)
    requires FullScan(rows, w) && DeliveryScanWorks(w)
    requires forall j | 0 <= j < |rows| :: !IsDueForDelivery(rows[j], now)
    ensures Finds(w, now, Success(None))
  {
    forall r | DueForDelivery(w, r, now) ensures false {
      var j :| 0 <= j < |rows| && rows[j].recordingId == r;
      assert rows[j] in rows;
      DeliveryDueAsDescribed(rows[j], w, now);
    }
  }

  method PickDueDelivery(store: SqliteStore, now: Time) returns (picked: Result<Option<DeliveryRow>, StoreError>)
    requires store.Valid()
    ensures Finds(store.World(), now, picked)
  {
    var scan := store.DeliveryCandidates();
    if scan.Failure? {
      return Failure(scan.error);
    }
    var candidates := scan.value;
    ghost var w := store.World();
    assert FullScan(candidates, w);
    for i := 0 to |candidates|
      invariant forall j | 0 <= j < i :: !IsDueForDelivery(candidates[j], now)
    {
      if IsDueForDelivery(candidates[i], now) {
        FirstDueIsFound(candidates, i, w, now);
        return Success(Some(candidates[i]));
      }
    }
    NoneIsFound(candidates, w, now);
    return Success(None);
  }

  method CloseDelivery(store: SqliteStore, ghost s: Sys, c: DeliveryRow, id: Id, finishedAt: Time, answer: Answer)
    returns (reply: Reply)
    requires store.Valid() && s.d == DCalling(c.recordingId, id, c.delivery.retryDeadlineAt)
    requires s.clock == finishedAt && s.w == store.World()
    requires c.recordingId in s.w && OwnsDelivery(s.w[c.recordingId], c.delivery.id)
    modifies store
    ensures store.Valid() && Outcome(store.World(), reply) == EndDelivery(s, answer)
  {
    assert OwnsDelivery(store.World()[c.recordingId], c.delivery.id);
    match answer
    case Good(_) =>
      reply := store.SucceedDelivery(id, c.delivery.id, finishedAt);
    case Retryable(message) =>
      var expired := c.delivery.retryDeadlineAt.Some? && finishedAt >= c.delivery.retryDeadlineAt.value;
      if expired {
        reply := store.FailDelivery(id, c.delivery.id, finishedAt, message);
      } else {
        reply := store.RetryDelivery(id, c.delivery.id, finishedAt, message);
      }
    case Terminal(message) =>
      reply := store.FailDelivery(id, c.delivery.id, finishedAt, message);
  }

  /** The second half of the tick. */
  method Deliver(store: SqliteStore, ghost s: Sys, c: DeliveryRow, id: Id, startedAt: Time,
                 answer: Answer, finishedAt: Time)
    returns (tick: Tick, ghost steps: seq<Step>)
    requires store.Valid() && s.up && s.d == DPicked(c.recordingId, startedAt, c.delivery.retryDeadlineAt)
    requires s.t.TIdle? && s.routers == [RIdle]
    requires s.w == store.World() && s.clock <= finishedAt && !TryIdUsed(s.w, id)
    requires c.recordingId in s.w && OwnsDelivery(s.w[c.recordingId], c.delivery.id)
    modifies store
    ensures store.Valid()
    ensures Ends(s, steps, store.World(), tick)
    ensures steps == [DStart(id)] || steps == [DStart(id), Advance(finishedAt), DFinish(answer)]
  {
    assert OwnsDelivery(store.World()[c.recordingId], c.delivery.id);
    var start := store.StartDeliveryAttempt(id, c.delivery.id, startedAt);
    TrySettles(s, id, Outcome(store.World(), start));
    if start.Lost? {
      return Success(Idle), [DStart(id)];
    }
    if start.Refused? {
      return Failure(start.error), [DStart(id)];
    }
    ghost var answered :=
      s.(w := store.World(), clock := finishedAt, d := DCalling(c.recordingId, id, c.delivery.retryDeadlineAt));
    assert answered == Apply(s, DStart(id)).(clock := finishedAt);
    var reply := CloseDelivery(store, answered, c, id, finishedAt, answer);
    tick := if reply.Refused? then Failure(reply.error) else Success(Worked);
    CloseTrySettles(answered, answer, Outcome(store.World(), reply));
    Waited(s, DStart(id), finishedAt, DFinish(answer), store.World(), tick);
    return tick, [DStart(id), Advance(finishedAt), DFinish(answer)];
  }

  lemma NothingToDeliver(w: World, at: Time, picked: Result<Option<DeliveryRow>, StoreError>)
    requires Finds(w, at, picked)
    ensures picked.Failure? ==> Ends(Alone(w, at), [DBegin, DScanFails], w, Failure(picked.error))
    ensures picked == Success(None) ==> Ends(Alone(w, at), [DBegin, DNothing], w, Success(Idle))
  {
    var s := Alone(w, at);
    var begun := s.(d := DBegun(at));
    DBegins(s);
    FoundNothing(begun, picked);
    if picked.Failure? {
      TwoSteps(s, DBegin, DScanFails);
      Opening(s, [DBegin, DScanFails], [], w, Failure(picked.error));
    } else if picked.value.None? {
      Empty(w, at);
      TwoSteps(s, DBegin, DNothing);
      Opening(s, [DBegin, DNothing], [], w, Success(Idle));
    }
  }

  /** `tick_once` of delivery. */
  method DeliveryTick(store: SqliteStore, startedAt: Time, id: Id, answer: Answer, finishedAt: Time)
    returns (tick: Tick, ghost steps: seq<Step>)
    requires store.Valid() && startedAt <= finishedAt
    requires !TryIdUsed(store.World(), id)
    modifies store
    ensures store.Valid()
    ensures Ends(Alone(old(store.World()), startedAt), steps, store.World(), tick)
    ensures |steps| >= 2 && steps[0] == DBegin
    ensures steps[1..] == [DNothing] || steps[1..] == [DScanFails]
            || (steps[1].DPick?
                && (steps[2..] == [DStart(id)] || steps[2..] == [DStart(id), Advance(finishedAt), DFinish(answer)]))
  {
    ghost var s := Alone(store.World(), startedAt);
    ghost var begun := s.(d := DBegun(startedAt));
    var picked := PickDueDelivery(store, startedAt);
    if picked.Failure? {
      NothingToDeliver(s.w, startedAt, picked);
      return Failure(picked.error), [DBegin, DScanFails];
    }
    if picked.value.None? {
      NothingToDeliver(s.w, startedAt, picked);
      return Success(Idle), [DBegin, DNothing];
    }
    DBegins(s);
    FoundOne(begun, picked);
    var c := picked.value.value;
    ghost var held := s.(d := DPicked(c.recordingId, startedAt, c.delivery.retryDeadlineAt));
    tick, steps := Deliver(store, held, c, id, startedAt, answer, finishedAt);
    TwoSteps(s, DBegin, DPick(c.recordingId));
    Opening(s, [DBegin, DPick(c.recordingId)], steps, store.World(), tick);
    steps := [DBegin, DPick(c.recordingId)] + steps;
  }
}
