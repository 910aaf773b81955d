/** What holds of every reachable state of the service. */
module PipelineTheorems {
  import opened Domain
  import opened Ledger
  import opened Pipeline
  import opened PipelineInv
  import opened Queues
  import opened Retry
  import opened StoreLaws
  import opened Timeline
  import opened Timestamp
  import opened Tracks
  import opened Wrappers

  /** Reachable from an empty database by any legal interleaving. */
  ghost predicate Reachable(s: Sys) {
    exists clock, n, steps :: Reaches(clock, n, steps, s)
  }

  ghost predicate Reaches(clock: Time, n: nat, steps: seq<Step>, s: Sys) {
    Legal(Init(clock, n), steps) && Run(Init(clock, n), steps) == s
  }

  lemma ReachableInv(s: Sys)
    requires Reachable(s)
    ensures Inv(s) && Sound(s.w)
    ensures forall r | r in s.w :: CaseInv(s.w[r], s.clock)
  {
    var clock, n, steps :| Reaches(clock, n, steps, s);
    InitInv(clock, n);
    RunInv(Init(clock, n), steps);
    InvIsSound(s);
    forall r | r in s.w ensures CaseInv(s.w[r], s.clock) { assert AllCases(s.w, s.clock); }
  }

  // -- Nothing is stranded ----------------------------------------------------------------

  datatype Stage = Claimable | AwaitingRetry | AwaitingRouting | AwaitingDelivery | AwaitingOperator | Finished

  ghost predicate AtStage(w: World, r: Id, stage: Stage)
    requires r in w
  {
    var c := w[r];
    match stage
    case Claimable => c.rec.status == Received && c.attempts == []
    case AwaitingRetry => RetryCandidate(c)
    case AwaitingRouting => c.rec.status == Routing && c.transcript.Some?
    case AwaitingDelivery => DeliveryCandidate(c) && c.rec.status == Delivering && c.transcript.Some?
    case AwaitingOperator => OperatorCanAct(w, r)
    case Finished => c.rec.status == Delivered && c.transcript.Some?
  }

  /** Some Operator action on the Recording would be accepted. */
  ghost predicate OperatorCanAct(w: World, r: Id) {
    || (exists id :: ManualRoute(w, r, id, "", 0, 0).reply.Done?)
    || ManualRetryTranscription(w, r, 0).reply.Done?
    || ManualRetryDelivery(w, r, 0, 0).reply.Done?
  }

  function StageOf(status: RecordingStatus): Stage {
    match status
    case Received => Claimable
    case Transcribing => AwaitingRetry
    case Routing => AwaitingRouting
    case Delivering => AwaitingDelivery
    case Delivered => Finished
    case _ => AwaitingOperator
  }

  /** The Recording is in the hands of neither loop. */
  ghost predicate Unheld(s: Sys, r: Id) {
    !Claims(s.t, r) && !Calls(s.t, r) && !Delivers(s.d, r)
  }

  lemma FreshDeliveryId(w: World)
    ensures exists id :: !DeliveryIdUsed(w, id)
  {
    var used := set r | r in w && w[r].delivery.Some? :: w[r].delivery.value.id;
    var id := FreshNat(used);
    forall r | r in w ensures !OwnsDelivery(w[r], id) {
      assert OwnsDelivery(w[r], id) ==> id in used;
    }
    assert !DeliveryIdUsed(w, id);
  }

  lemma FreshNat(used: set<nat>) returns (n: nat)
    ensures n !in used
  {
    n := 0;
    var rest := used;
    while exists m | m in rest :: n <= m
      invariant forall m | m in used :: m in rest || m < n
      invariant rest <= used
      decreases rest
    {
      var m :| m in rest && n <= m;
      n := m + 1;
      rest := rest - {m};
    }
  }

  lemma StageIsStatus(s: Sys, r: Id)
    requires r in s.w && CaseInv(s.w[r], s.clock) && Owned(s.w[r], r, s.t, s.d) && Unheld(s, r)
    requires exists id :: !DeliveryIdUsed(s.w, id)
    ensures forall stage :: AtStage(s.w, r, stage) <==> stage == StageOf(s.w[r].rec.status)
  {
    if s.w[r].rec.status == Backlogged {
      var id :| !DeliveryIdUsed(s.w, id);
      assert ManualRoute(s.w, r, id, "", 0, 0).reply.Done?;
    }
  }

  /**
   Every Recording no loop is working on is in exactly one place where work or an
   Operator will find it.
   */
  lemma NothingIsStranded(s: Sys, r: Id)
    requires Reachable(s) && r in s.w && Unheld(s, r)
    ensures forall stage :: AtStage(s.w, r, stage) <==> stage == StageOf(s.w[r].rec.status)
  {
    ReachableInv(s);
    assert Owned(s.w[r], r, s.t, s.d);
    FreshDeliveryId(s.w);
    StageIsStatus(s, r);
  }

  /** From some moment on a waiting retry is due, and so is a waiting Delivery. */
  lemma WaitingWorkBecomesDue(s: Sys, r: Id, now: Time)
    requires Reachable(s) && r in s.w && s.clock + 6 * HOUR <= now
    ensures RetryCandidate(s.w[r]) ==> DueForRetry(s.w, r, now)
    ensures DeliveryCandidate(s.w[r]) ==> DueForDelivery(s.w, r, now)
  {
    ReachableInv(s);
    DueInTime(s.w[r], s.clock, now);
  }

  lemma DueInTime(c: Case, clock: Time, now: Time)
    requires CaseInv(c, clock) && clock + 6 * HOUR <= now
    ensures RetryCandidate(c) ==> RetryDue(c, now)
    ensures DeliveryCandidate(c) ==> DeliveryDue(c, now)
  {
    if RetryCandidate(c) {
      assert !c.attempts[|c.attempts| - 1].Open();
      AllFinished(TTrack(c), clock);
    }
    if DeliveryCandidate(c) && c.tries != [] {
      assert !c.tries[|c.tries| - 1].Open();
      AllFinished(DTrack(c), clock);
    }
  }

  /** The schedule, attempt by attempt. */
  predicate WaitIsOver(attempts: nat, finishedAt: Time, now: Time) {
    || (attempts == 1 && now >= finishedAt + MINUTE)
    || (attempts == 2 && now >= finishedAt + 5 * MINUTE)
    || (attempts == 3 && now >= finishedAt + 15 * MINUTE)
    || (attempts == 4 && now >= finishedAt + HOUR)
    || (attempts >= 5 && now >= finishedAt + 6 * HOUR)
  }

  /**
   When a retry is due: the Recording is `transcribing`, its last attempt is over,
   and either the Operator asked for a retry since then, by the log, or the wait
   after that many attempts has passed.
   */
  lemma RetryIsDueExactly(s: Sys, r: Id, now: Time)
    requires Reachable(s)
    ensures DueForRetry(s.w, r, now) <==>
              && r in s.w && s.w[r].rec.status == Transcribing && s.w[r].attempts != []
              && var (c, last) := (s.w[r], s.w[r].attempts[|s.w[r].attempts| - 1]);
                 && !last.state.InProgress?
                 && (LastLoggedAfter(c.audit, RetriedTranscription, last.state.at)
                     || WaitIsOver(|c.attempts|, last.state.at, now))
  {
    ReachableInv(s);
    if r in s.w && s.w[r].attempts != [] {
      RetryDueIs(s.w[r], s.clock, now);
    }
  }

  lemma RetryDueIs(c: Case, clock: Time, now: Time)
    requires CaseInv(c, clock) && c.attempts != []
    ensures var last := c.attempts[|c.attempts| - 1];
            && (RetryCandidate(c) <==> c.rec.status == Transcribing && !last.state.InProgress?)
            && (RetryCandidate(c) ==>
                  (RetryDue(c, now) <==> LastLoggedAfter(c.audit, RetriedTranscription, last.state.at)
                                         || WaitIsOver(|c.attempts|, last.state.at, now)))
  {
    var last := c.attempts[|c.attempts| - 1];
    if !last.state.InProgress? {
      LatestIsLogged(c.audit, RetriedTranscription, last.state.at);
    }
  }

  /** The same for a Delivery; one that was never tried is due as soon as it is selected. */
  lemma DeliveryIsDueExactly(s: Sys, r: Id, now: Time)
    requires Reachable(s)
    ensures DueForDelivery(s.w, r, now) <==>
              && r in s.w && s.w[r].delivery.Some? && s.w[r].rec.status == Delivering
              && if s.w[r].tries == [] then now >= s.w[r].delivery.value.selectedAt
                 else
                   var (c, last) := (s.w[r], s.w[r].tries[|s.w[r].tries| - 1]);
                   && !last.state.InProgress?
                   && (LastLoggedAfter(c.audit, RetriedDelivery, last.state.at)
                       || WaitIsOver(|c.tries|, last.state.at, now))
  {
    ReachableInv(s);
    if r in s.w && s.w[r].delivery.Some? {
      DeliveryDueIs(s.w[r], s.clock, now);
    }
  }

  lemma DeliveryDueIs(c: Case, clock: Time, now: Time)
    requires CaseInv(c, clock) && c.delivery.Some?
    ensures DeliveryCandidate(c) <==>
              c.rec.status == Delivering && (c.tries != [] ==> !c.tries[|c.tries| - 1].state.InProgress?)
    ensures DeliveryCandidate(c) && c.tries == [] ==> (DeliveryDue(c, now) <==> now >= c.delivery.value.selectedAt)
    ensures DeliveryCandidate(c) && c.tries != [] ==>
              var last := c.tries[|c.tries| - 1];
              DeliveryDue(c, now) <==> LastLoggedAfter(c.audit, RetriedDelivery, last.state.at)
                                       || WaitIsOver(|c.tries|, last.state.at, now)
  {
    if c.tries == [] {
      assert Terminals(c.tries, 0) == 0;
    } else if !c.tries[|c.tries| - 1].state.InProgress? {
      LatestIsLogged(c.audit, RetriedDelivery, c.tries[|c.tries| - 1].state.at);
    }
  }

  lemma {:induction false} NoTickFails(s: Sys, steps: seq<Step>)
    requires Inv(s) && s.up && Legal(s, steps)
    requires forall i | 0 <= i < |steps| :: !steps[i].Crash?
    ensures Run(s, steps).up
    decreases |steps|
  {
    if steps != [] {
      StepInv(s, steps[0]);
      NoTickFails(Apply(s, steps[0]), steps[1..]);
    }
  }

  lemma ServiceNeverFails(clock: Time, n: nat, steps: seq<Step>)
    requires Legal(Init(clock, n), steps) && forall i | 0 <= i < |steps| :: !steps[i].Crash?
    ensures Run(Init(clock, n), steps).up
  {
    InitInv(clock, n);
    NoTickFails(Init(clock, n), steps);
  }

  /** A start after a claim or a pick always wins its attempt. */
  lemma StartsAlwaysWin(s: Sys, id: Id)
    requires Reachable(s)
    ensures s.t.TClaimed? && !AttemptIdUsed(s.w, id) ==>
              StartTranscription(s.w, id, s.t.r, s.t.startedAt).reply.Started?
    ensures s.d.DPicked? && !TryIdUsed(s.w, id) ==>
              StartDelivery(s.w, id, s.d.r, s.d.startedAt).reply.Started?
  {
    ReachableInv(s);
    if s.t.TClaimed? && !AttemptIdUsed(s.w, id) { TStartInv(s, id); }
    if s.d.DPicked? && !TryIdUsed(s.w, id) { DStartInv(s, id); }
  }

  ghost function RowsWithAttemptId(w: World, id: Id): set<(Id, nat)> {
    set r, i: nat | r in w && i < |w[r].attempts| && w[r].attempts[i].id == id :: (r, i)
  }

  ghost function RowsWithTryId(w: World, id: Id): set<(Id, nat)> {
    set r, i: nat | r in w && i < |w[r].tries| && w[r].tries[i].id == id :: (r, i)
  }

  lemma OnlyRowOfAttempt(w: World, r: Id, id: Id, n: nat)
    requires AllSeparate(w) && r in w && SoundCase(w[r]) && n < |w[r].attempts| && w[r].attempts[n].id == id
    ensures RowsWithAttemptId(w, id) == {(r, n)}
  {
    assert id in Ids(w[r].attempts);
    forall q, i: nat | (q, i) in RowsWithAttemptId(w, id) ensures (q, i) == (r, n) {
      assert id in Ids(w[q].attempts);
      assert q == r || Separate(w[r], w[q]);
    }
  }

  lemma OnlyRowOfTry(w: World, r: Id, id: Id, n: nat)
    requires AllSeparate(w) && r in w && SoundCase(w[r]) && n < |w[r].tries| && w[r].tries[n].id == id
    ensures RowsWithTryId(w, id) == {(r, n)}
  {
    assert id in Ids(w[r].tries);
    forall q, i: nat | (q, i) in RowsWithTryId(w, id) ensures (q, i) == (r, n) {
      assert id in Ids(w[q].tries);
      assert q == r || Separate(w[r], w[q]);
    }
  }

  /** The Transcription loop's finish hits exactly one row, the unfinished one of a `transcribing` Recording. */
  lemma FinishHitsOneAttempt(s: Sys)
    requires Reachable(s) && s.t.TCalling?
    ensures s.t.r in s.w && s.w[s.t.r].rec.status == Transcribing && s.w[s.t.r].attempts != []
    ensures var c := s.w[s.t.r];
            RowsWithAttemptId(s.w, s.t.id) == {(s.t.r, |c.attempts| - 1)}
            && c.attempts[|c.attempts| - 1].Open()
  {
    ReachableInv(s);
    var c := s.w[s.t.r];
    assert CallingCase(c, s.t.id, s.t.anchor, s.t.audioDurationMs);
    assert CaseInv(c, s.clock);
    OnlyRowOfAttempt(s.w, s.t.r, s.t.id, |c.attempts| - 1);
  }

  lemma FinishHitsOneTry(s: Sys)
    requires Reachable(s) && s.d.DCalling?
    ensures s.d.r in s.w && s.w[s.d.r].rec.status == Delivering && s.w[s.d.r].tries != []
    ensures var c := s.w[s.d.r];
            RowsWithTryId(s.w, s.d.id) == {(s.d.r, |c.tries| - 1)}
            && c.tries[|c.tries| - 1].Open()
            && c.delivery.Some? && c.delivery.value.status == InDelivery
  {
    ReachableInv(s);
    var c := s.w[s.d.r];
    assert DeliveringCase(c, s.d.id, s.d.deadline);
    assert CaseInv(c, s.clock);
    OnlyRowOfTry(s.w, s.d.r, s.d.id, |c.tries| - 1);
  }

  /** Work in flight belongs to a loop: an unfinished attempt implies `transcribing`, an unfinished try `delivering`. */
  lemma InFlightIsActive(s: Sys, r: Id)
    requires Reachable(s) && r in s.w
    ensures HasOpen(s.w[r].attempts) ==> Calls(s.t, r) && s.w[r].rec.status == Transcribing
    ensures HasOpen(s.w[r].tries) ==> Delivers(s.d, r) && s.w[r].rec.status == Delivering
    ensures s.w[r].rec.status == Received ==> s.w[r].attempts == []
  {
    ReachableInv(s);
    InFlightUnderInv(s, r);
  }

  lemma InFlightUnderInv(s: Sys, r: Id)
    requires Inv(s) && r in s.w
    ensures HasOpen(s.w[r].attempts) ==> Calls(s.t, r) && s.w[r].rec.status == Transcribing
    ensures HasOpen(s.w[r].tries) ==> Delivers(s.d, r) && s.w[r].rec.status == Delivering
    ensures s.w[r].rec.status == Received ==> s.w[r].attempts == []
  {
    assert Owned(s.w[r], r, s.t, s.d);
    assert CaseInv(s.w[r], s.clock);
  }

  // -- Conservation -------------------------------------------------------------------------------

  /**
   Terminal failures match Operator retries plus an unanswered one; exactly one
   attempt succeeded iff there is a Transcript.
   */
  lemma TranscriptionIsConserved(s: Sys, r: Id)
    requires Reachable(s) && r in s.w
    ensures var c := s.w[r];
            && Terminals(c.attempts, |c.attempts|) == |Times(c.audit, RetriedTranscription)|
                 + (if c.rec.status == TranscriptionFailed then 1 else 0)
            && Successes(c.attempts) == (if c.transcript.Some? then 1 else 0)
  {
    ReachableInv(s);
    SuccessIsConserved(TTrack(s.w[r]), s.clock);
  }

  lemma DeliveryIsConserved(s: Sys, r: Id)
    requires Reachable(s) && r in s.w
    ensures var c := s.w[r];
            && Terminals(c.tries, |c.tries|) == |Times(c.audit, RetriedDelivery)|
                 + (if c.rec.status == DeliveryFailed then 1 else 0)
            && Successes(c.tries) == (if c.rec.status == Delivered then 1 else 0)
  {
    ReachableInv(s);
    if s.w[r].delivery.Some? {
      SuccessIsConserved(DTrack(s.w[r]), s.clock);
    }
  }

  // -- Retry windows ----------------------------------------------------------------------------------

  /** The anchor of the window attempt `i` belongs to: the last manual retry before it, else the first attempt. */
  function WindowStart(c: Case, i: nat): Time
    requires i < |c.attempts| && Terminals(c.attempts, i) <= |Times(c.audit, RetriedTranscription)|
  {
    AnchorAt(TTrack(c), i)
  }

  /**
   Over the whole history: every retryable failure a worker recorded finished
   strictly before its window's deadline, at most eight (five, for audio of up to
   an hour) fall in one window, and backoff was waived only after a terminal failure.
   */
  lemma TranscriptionWindows(s: Sys, r: Id, i: nat, k: nat)
    requires Reachable(s) && r in s.w && i < |s.w[r].attempts|
    ensures var (c, a) := (s.w[r], s.w[r].attempts);
            && Terminals(a, i) <= |Times(c.audit, RetriedTranscription)|
            && (a[i].state.RetryableFailure? ==>
                  a[i].FinishedAt() < TranscriptionDeadline(WindowStart(c, i), c.rec.audioDurationMs))
            && (i > 0 && !a[i - 1].state.TerminalFailure? ==>
                  !a[i - 1].Open() && a[i].startedAt >= NextRetryAt(a[i - 1].FinishedAt(), a[i - 1].number))
            && RetriesIn(a, k, |a|) <= 8
            && (TranscriptionWindow(c.rec.audioDurationMs) == 2 * HOUR ==> RetriesIn(a, k, |a|) <= 5)
  {
    ReachableInv(s);
    var c := s.w[r];
    assert GoodAttempt(TTrack(c), i, s.clock);
    WindowIsClamped(c.rec.audioDurationMs);
    RetriesPerWindow(TTrack(c), k, |c.attempts|, s.clock);
  }

  lemma DeliveryWindows(s: Sys, r: Id, i: nat, k: nat)
    requires Reachable(s) && r in s.w && i < |s.w[r].tries|
    ensures var (c, a) := (s.w[r], s.w[r].tries);
            && c.delivery.Some?
            && Terminals(a, i) <= |Times(c.audit, RetriedDelivery)|
            && (a[i].state.RetryableFailure? ==>
                  a[i].FinishedAt() < AnchorAt(DTrack(c), i) + 24 * HOUR)
            && (i > 0 && !a[i - 1].state.TerminalFailure? ==>
                  !a[i - 1].Open() && a[i].startedAt >= NextRetryAt(a[i - 1].FinishedAt(), a[i - 1].number))
            && RetriesIn(a, k, |a|) <= 8
  {
    ReachableInv(s);
    var c := s.w[r];
    assert GoodAttempt(DTrack(c), i, s.clock);
    RetriesPerWindow(DTrack(c), k, |c.tries|, s.clock);
  }

  /**
   A Delivery's deadline is its last manual retry, else its selection, plus 24 h;
   both windows open at the logged time.
   */
  lemma Deadlines(s: Sys, r: Id)
    requires Reachable(s) && r in s.w
    ensures var c := s.w[r];
            && c.rec.retryWindowStartedAt == Latest(Times(c.audit, RetriedTranscription))
            && (c.delivery.Some? ==>
                  && c.delivery.value.retryDeadlineAt ==
                       (match Latest(Times(c.audit, RetriedDelivery))
                        case Some(at) => Some(at + 24 * HOUR)
                        case None => Some(c.delivery.value.selectedAt + 24 * HOUR))
                  && c.delivery.value.retryWindowStartedAt == Latest(Times(c.audit, RetriedDelivery)))
  {
    ReachableInv(s);
  }

  /**
   The deadline a running attempt is held to: anchored at the last manual retry,
   else at the first attempt's start.
   */
  lemma RunningDeadline(s: Sys)
    requires Reachable(s) && s.t.TCalling?
    ensures s.t.r in s.w && s.w[s.t.r].attempts != []
    ensures var c := s.w[s.t.r];
            s.t.anchor == match Latest(Times(c.audit, RetriedTranscription))
                          case Some(at) => at
                          case None => c.attempts[0].startedAt
  {
    ReachableInv(s);
    CallingAnchor(s);
  }

  lemma CallingAnchor(s: Sys)
    requires Inv(s) && s.t.TCalling?
    ensures s.t.r in s.w && s.w[s.t.r].attempts != []
    ensures var c := s.w[s.t.r];
            s.t.anchor == match Latest(Times(c.audit, RetriedTranscription))
                          case Some(at) => at
                          case None => c.attempts[0].startedAt
  {
    var c := s.w[s.t.r];
    assert CaseInv(c, s.clock) && CallingCase(c, s.t.id, s.t.anchor, s.t.audioDurationMs);
    WindowsOpened(TTrack(c), s.clock);
  }

  /** Whether a waiting retry is due before its backoff is over. */
  predicate Waived(c: Case)
    requires RetryCandidate(c)
  {
    c.rec.retryWindowStartedAt.Some?
    && c.rec.retryWindowStartedAt.value > c.attempts[|c.attempts| - 1].FinishedAt()
  }

  /**
   A manual retry waives the backoff of exactly one attempt, and only when it is
   strictly later than the last finish: the waiver shows exactly while the last
   attempt is the terminal failure the retry answered.
   */
  lemma WaivedOnce(s: Sys, r: Id)
    requires Reachable(s) && r in s.w && RetryCandidate(s.w[r])
    ensures var (c, last) := (s.w[r], s.w[r].attempts[|s.w[r].attempts| - 1]);
            && (last.state.TerminalFailure? ==> c.rec.retryWindowStartedAt.Some?)
            && (Waived(c) <==> last.state.TerminalFailure? && c.rec.retryWindowStartedAt.value > last.FinishedAt())
            && forall now | !WaitIsOver(|c.attempts|, last.FinishedAt(), now) :: DueForRetry(s.w, r, now) <==> Waived(c)
  {
    ReachableInv(s);
    forall now ensures DueForRetry(s.w, r, now) <==> RetryDue(s.w[r], now) {}
    forall now { RetryDueIs(s.w[r], s.clock, now); }
    LatestIsLogged(s.w[r].audit, RetriedTranscription, s.w[r].attempts[|s.w[r].attempts| - 1].FinishedAt());
    var c := s.w[r];
    assert !c.attempts[|c.attempts| - 1].Open();
    assert GoodAttempt(TTrack(c), |c.attempts| - 1, s.clock);
    WindowsOpened(TTrack(c), s.clock);
  }

  predicate DeliveryWaived(c: Case)
    requires DeliveryCandidate(c) && c.tries != []
  {
    var window := c.delivery.value.retryWindowStartedAt;
    window.Some? && window.value > c.tries[|c.tries| - 1].FinishedAt()
  }

  /** The same for a Delivery; one that was never tried was never retried by hand. */
  lemma DeliveryWaivedOnce(s: Sys, r: Id)
    requires Reachable(s) && r in s.w && DeliveryCandidate(s.w[r])
    ensures var c := s.w[r];
            var window := c.delivery.value.retryWindowStartedAt;
            if c.tries == [] then window.None?
            else
              var last := c.tries[|c.tries| - 1];
              && (last.state.TerminalFailure? ==> window.Some?)
              && (DeliveryWaived(c) <==> last.state.TerminalFailure? && window.value > last.FinishedAt())
              && forall now | !WaitIsOver(|c.tries|, last.FinishedAt(), now) ::
                   DueForDelivery(s.w, r, now) <==> DeliveryWaived(c)
  {
    ReachableInv(s);
    var c := s.w[r];
    forall now { DeliveryDueIs(c, s.clock, now); }
    if c.tries != [] {
      WindowsOpened(DTrack(c), s.clock);
      assert !c.tries[|c.tries| - 1].Open();
      assert GoodAttempt(DTrack(c), |c.tries| - 1, s.clock);
    }
  }

  /** The text minimum read when an attempt starts is the first attempt's start, whenever it is read. */
  lemma MinStartIsFirst(s: Sys, id: Id)
    requires Reachable(s) && s.t.TClaimed? && !AttemptIdUsed(s.w, id)
    ensures s.t.r in s.w
    ensures var c := s.w[s.t.r];
            var d := WithAttempt(c, id, s.t.startedAt);
            c.rec.retryWindowStartedAt.None? ==> TextMinStart(d.attempts) == d.attempts[0].startedAt
  {
    ReachableInv(s);
    var c := s.w[s.t.r];
    assert !HasId(c.attempts, id);
    StartedCase(c, id, s.t.startedAt, s.t.audioDurationMs, s.clock);
    var d := WithAttempt(c, id, s.t.startedAt);
    if c.rec.retryWindowStartedAt.None? {
      EarliestStart(TTrack(d), s.clock);
    }
  }
}
