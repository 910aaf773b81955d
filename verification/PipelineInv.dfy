/** The global invariant of the running service, kept by every step and across crashes. */
module PipelineInv {
  import opened Domain
  import opened Ledger
  import opened Pipeline
  import opened Queues
  import opened Retry
  import opened StoreLaws
  import opened Timeline
  import opened Timestamp
  import opened Tracks
  import opened Wrappers

  // -- The invariant -------------------------------------------------------------------

  ghost predicate AllCases(w: World, clock: Time) {
    forall r {:trigger CaseInv(w[r], clock)} | r in w :: CaseInv(w[r], clock)
  }

  ghost predicate Calls(t: TranscriptionLoop, r: Id) { t.TCalling? && t.r == r }

  ghost predicate Claims(t: TranscriptionLoop, r: Id) { t.TClaimed? && t.r == r }

  ghost predicate Delivers(d: DeliveryLoop, r: Id) { d.DCalling? && d.r == r }

  /** An attempt in flight, and a claim without an attempt, belong to the loop that made them. */
  ghost predicate Owned(c: Case, r: Id, t: TranscriptionLoop, d: DeliveryLoop) {
    && (HasOpen(c.attempts) ==> Calls(t, r))
    && (HasOpen(c.tries) ==> Delivers(d, r))
    && (c.rec.status == Transcribing && c.attempts == [] ==> Claims(t, r))
  }

  ghost predicate AllOwned(w: World, t: TranscriptionLoop, d: DeliveryLoop) {
    forall r {:trigger Owned(w[r], r, t, d)} | r in w :: Owned(w[r], r, t, d)
  }

  ghost predicate FinishedBy(s: seq<Attempt>, at: Time) {
    forall i | 0 <= i < |s| && !s[i].Open() :: s[i].FinishedAt() <= at
  }

  ghost predicate AttemptsFinishedBy(w: World, at: Time) {
    forall r | r in w :: FinishedBy(w[r].attempts, at)
  }

  ghost predicate TriesFinishedBy(w: World, at: Time) {
    forall r | r in w :: FinishedBy(w[r].tries, at)
  }

  ghost predicate ClaimedCase(c: Case, startedAt: Time, durationMs: Option<int>) {
    && c.rec.status == Transcribing && !HasOpen(c.attempts)
    && Ready(TTrack(c), startedAt)
    && durationMs == c.rec.audioDurationMs
  }

  ghost predicate CallingCase(c: Case, id: Id, anchor: Time, durationMs: Option<int>) {
    && c.rec.status == Transcribing && InFlight(c.attempts, id)
    && Terminals(c.attempts, |c.attempts| - 1) <= |TTrack(c).retries|
    && anchor == AnchorAt(TTrack(c), |c.attempts| - 1)
    && durationMs == c.rec.audioDurationMs
  }

  ghost predicate TranscriptionLoopInv(w: World, clock: Time, t: TranscriptionLoop) {
    match t
    case TIdle => true
    case TBegun(at) => at <= clock && AttemptsFinishedBy(w, at)
    case TScanning(at) => at <= clock && AttemptsFinishedBy(w, at)
    case TClaimed(r, at, ms) => at <= clock && r in w && ClaimedCase(w[r], at, ms)
    case TCalling(r, id, anchor, ms) => r in w && CallingCase(w[r], id, anchor, ms)
  }

  ghost predicate PickedCase(c: Case, startedAt: Time, deadline: Option<Time>) {
    && c.rec.status == Delivering && c.delivery.Some? && !HasOpen(c.tries)
    && Ready(DTrack(c), startedAt)
    && deadline == c.delivery.value.retryDeadlineAt
  }

  ghost predicate DeliveringCase(c: Case, id: Id, deadline: Option<Time>) {
    && c.rec.status == Delivering && c.delivery.Some? && InFlight(c.tries, id)
    && deadline == c.delivery.value.retryDeadlineAt
  }

  ghost predicate DeliveryLoopInv(w: World, clock: Time, d: DeliveryLoop) {
    match d
    case DIdle => true
    case DBegun(at) => at <= clock && TriesFinishedBy(w, at)
    case DPicked(r, at, deadline) => at <= clock && r in w && PickedCase(w[r], at, deadline)
    case DCalling(r, id, deadline) => r in w && DeliveringCase(w[r], id, deadline)
  }

  ghost predicate RoutingLoopInv(w: World, clock: Time, l: RoutingLoop) {
    match l
    case RIdle => true
    case RBegun(now) => now <= clock
    case RHolding(r, now) => r in w && now <= clock
  }

  ghost predicate RoutersInv(w: World, clock: Time, routers: seq<RoutingLoop>) {
    forall i | 0 <= i < |routers| :: RoutingLoopInv(w, clock, routers[i])
  }

  ghost predicate Inv(s: Sys) {
    && AllSeparate(s.w)
    && AllCases(s.w, s.clock)
    && AllOwned(s.w, s.t, s.d)
    && TranscriptionLoopInv(s.w, s.clock, s.t)
    && DeliveryLoopInv(s.w, s.clock, s.d)
    && RoutersInv(s.w, s.clock, s.routers)
  }

  lemma InvIsSound(s: Sys)
    requires Inv(s)
    ensures Sound(s.w)
  {
    forall r | r in s.w ensures SoundCase(s.w[r]) { assert CaseInv(s.w[r], s.clock); }
  }

  // -- Changing one case ------------------------------------------------------------------

  /** Nothing a loop remembers about another Recording is disturbed when one case changes. */
  lemma OtherTranscription(w: World, r: Id, c: Case, clock: Time, t: TranscriptionLoop)
    requires r in w && TranscriptionLoopInv(w, clock, t)
    requires t.TBegun? || t.TScanning? ==> c.attempts == w[r].attempts
    requires (t.TClaimed? || t.TCalling?) && t.r == r ==>
               && c.attempts == w[r].attempts && c.rec == w[r].rec
               && Times(c.audit, RetriedTranscription) == Times(w[r].audit, RetriedTranscription)
    ensures TranscriptionLoopInv(w[r := c], clock, t)
  {
  }

  lemma OtherDelivery(w: World, r: Id, c: Case, clock: Time, d: DeliveryLoop)
    requires r in w && DeliveryLoopInv(w, clock, d)
    requires d.DBegun? ==> c.tries == w[r].tries
    requires (d.DPicked? || d.DCalling?) && d.r == r ==>
               && c.tries == w[r].tries && c.delivery == w[r].delivery
               && c.rec == w[r].rec && c.audit == w[r].audit
    ensures DeliveryLoopInv(w[r := c], clock, d)
  {
  }

  /** The loops after one case changed: what each must still know. */
  ghost predicate LoopsFit(w: World, clock: Time, t: TranscriptionLoop, d: DeliveryLoop) {
    TranscriptionLoopInv(w, clock, t) && DeliveryLoopInv(w, clock, d)
  }

  lemma OneCaseInv(s: Sys, r: Id, c: Case, t: TranscriptionLoop, d: DeliveryLoop)
    requires Inv(s) && r in s.w
    requires CaseInv(c, s.clock)
    requires forall q | q in s.w && q != r :: Separate(c, s.w[q])
    requires Owned(c, r, t, d)
    requires forall q | q in s.w && q != r :: Owned(s.w[q], q, t, d)
    requires LoopsFit(s.w[r := c], s.clock, t, d)
    ensures Inv(s.(w := s.w[r := c], t := t, d := d))
  {
    var v := s.w[r := c];
    forall q | q in s.w && q != r ensures Separate(s.w[q], c) { assert Separate(c, s.w[q]); }
    forall i | 0 <= i < |s.routers| ensures RoutingLoopInv(v, s.clock, s.routers[i]) {
      assert RoutingLoopInv(s.w, s.clock, s.routers[i]);
    }
  }

  lemma SameRowsSeparate(s: Sys, r: Id, c: Case)
    requires Inv(s) && r in s.w && SameIdentity(s.w[r], c)
    ensures forall q | q in s.w && q != r :: Separate(c, s.w[q])
  {
    forall q | q in s.w && q != r ensures Separate(c, s.w[q]) {
      assert Separate(s.w[r], s.w[q]);
    }
  }

  // -- Steps that read or move time -----------------------------------------------------------

  lemma AdvanceInv(s: Sys, to: Time)
    requires Inv(s) && s.clock <= to
    ensures Inv(s.(clock := to))
  {
    forall r | r in s.w ensures CaseInv(s.w[r], to) { ClockTick(s.w[r], s.clock, to); }
    forall i | 0 <= i < |s.routers| ensures RoutingLoopInv(s.w, to, s.routers[i]) {
      assert RoutingLoopInv(s.w, s.clock, s.routers[i]);
    }
  }

  lemma ArriveInv(s: Sys, id: Id, n: NewRecording)
    requires Inv(s) && id !in s.w
    ensures Inv(s.(w := CreateRecording(s.w, id, n).world))
  {
    InvIsSound(s);
    var o := CreateRecording(s.w, id, n);
    CreateKeeps(s.w, id, n);
    if o.reply.Created? {
      FreshInv(n, s.clock);
      forall i | 0 <= i < |s.routers| ensures RoutingLoopInv(o.world, s.clock, s.routers[i]) {
        assert RoutingLoopInv(s.w, s.clock, s.routers[i]);
      }
    }
  }

  lemma AllFinished(t: Track, clock: Time)
    requires ValidTrack(t, clock)
    ensures FinishedBy(t.attempts, clock)
  {
    forall i | 0 <= i < |t.attempts| && !t.attempts[i].Open() ensures t.attempts[i].FinishedAt() <= clock {
      assert GoodAttempt(t, i, clock);
    }
  }

  lemma TBeginInv(s: Sys)
    requires Inv(s) && s.t.TIdle?
    ensures Inv(s.(t := TBegun(s.clock)))
  {
    forall r | r in s.w ensures FinishedBy(s.w[r].attempts, s.clock) {
      assert CaseInv(s.w[r], s.clock);
      AllFinished(TTrack(s.w[r]), s.clock);
    }
    forall r | r in s.w ensures Owned(s.w[r], r, TBegun(s.clock), s.d) { assert Owned(s.w[r], r, s.t, s.d); }
  }

  lemma DBeginInv(s: Sys)
    requires Inv(s) && s.d.DIdle?
    ensures Inv(s.(d := DBegun(s.clock)))
  {
    forall r | r in s.w ensures FinishedBy(s.w[r].tries, s.clock) {
      assert CaseInv(s.w[r], s.clock);
      if s.w[r].delivery.Some? { AllFinished(DTrack(s.w[r]), s.clock); }
    }
    forall r | r in s.w ensures Owned(s.w[r], r, s.t, DBegun(s.clock)) { assert Owned(s.w[r], r, s.t, s.d); }
  }

  lemma LoopChangeOwned(s: Sys, t: TranscriptionLoop, d: DeliveryLoop)
    requires Inv(s)
    requires s.t == t || (!s.t.TClaimed? && !s.t.TCalling?)
    requires s.d == d || !s.d.DCalling?
    ensures AllOwned(s.w, t, d)
  {
    forall r | r in s.w ensures Owned(s.w[r], r, t, d) { assert Owned(s.w[r], r, s.t, s.d); }
  }

  // -- The Transcription loop ------------------------------------------------------------------

  lemma TClaimInv(s: Sys, r: Id)
    requires Inv(s) && s.t.TBegun? && IsReceived(s.w, r)
    ensures Inv(s.(w := ClaimReceived(s.w, r).world,
                   t := TClaimed(r, s.t.startedAt, s.w[r].rec.audioDurationMs)))
  {
    var c := Moved(s.w[r], Transcribing);
    var t := TClaimed(r, s.t.startedAt, s.w[r].rec.audioDurationMs);
    ClaimInv(s.w[r], s.clock);
    SameRowsSeparate(s, r, c);
    LoopChangeOwned(s, t, s.d);
    assert Owned(s.w[r], r, t, s.d);
    OneCaseInv(s, r, c, t, s.d);
  }

  /** A due retry is ready: a waived wait can only follow a terminal failure. */
  lemma DueIsReady(c: Case, now: Time, clock: Time)
    requires CaseInv(c, clock) && RetryCandidate(c) && RetryDue(c, now) && FinishedBy(c.attempts, now)
    ensures Ready(TTrack(c), now)
  {
    var n := |c.attempts|;
    assert !c.attempts[n - 1].Open();
    assert GoodAttempt(TTrack(c), n - 1, clock);
    WindowsOpened(TTrack(c), clock);
  }

  lemma TPickInv(s: Sys, r: Id)
    requires Inv(s) && s.t.TScanning? && DueForRetry(s.w, r, s.t.startedAt)
    ensures Inv(s.(t := TClaimed(r, s.t.startedAt, s.w[r].rec.audioDurationMs)))
  {
    DueIsReady(s.w[r], s.t.startedAt, s.clock);
    LoopChangeOwned(s, TClaimed(r, s.t.startedAt, s.w[r].rec.audioDurationMs), s.d);
  }

  function WithAttempt(c: Case, id: Id, startedAt: Time): Case {
    c.(attempts := c.attempts + [Attempt(id, MaxNumber(c.attempts) + 1, startedAt, InProgress)])
  }

  function WithTry(c: Case, id: Id, startedAt: Time): Case {
    c.(tries := c.tries + [Attempt(id, MaxNumber(c.tries) + 1, startedAt, InProgress)])
  }

  lemma StartedCase(c: Case, id: Id, at: Time, ms: Option<int>, clock: Time)
    requires CaseInv(c, clock) && ClaimedCase(c, at, ms) && at <= clock && !HasId(c.attempts, id)
    ensures var d := WithAttempt(c, id, at);
            && CaseInv(d, clock) && CallingCase(d, id, Anchor(c, d.attempts), ms)
            && Ids(d.attempts) == Ids(c.attempts) + {id}
  {
    StartInv(c, id, at, clock);
    StartAnchor(c, id, at, clock);
    Appended(c.attempts, Attempt(id, MaxNumber(c.attempts) + 1, at, InProgress));
  }

  /** A case that only gained ids used nowhere else stays apart from the others. */
  lemma FreshIdsSeparate(w: World, r: Id, c: Case, id: Id)
    requires AllSeparate(w) && r in w
    requires || Ids(c.attempts) == Ids(w[r].attempts)
             || (!AttemptIdUsed(w, id) && Ids(c.attempts) == Ids(w[r].attempts) + {id})
    requires || Ids(c.tries) == Ids(w[r].tries)
             || (!TryIdUsed(w, id) && Ids(c.tries) == Ids(w[r].tries) + {id})
    requires c.delivery == w[r].delivery && SameKey(c.rec, w[r].rec.clientId, w[r].rec.clientRecordingId)
    ensures forall q | q in w && q != r :: Separate(c, w[q])
  {
    forall q | q in w && q != r ensures Separate(c, w[q]) {
      assert Separate(w[r], w[q]);
      NotThere(w[q].attempts, id);
      NotThere(w[q].tries, id);
    }
  }

  lemma TStartIs(s: Sys, id: Id)
    requires Inv(s) && s.t.TClaimed? && !AttemptIdUsed(s.w, id)
    ensures s.t.r in s.w && CaseInv(s.w[s.t.r], s.clock) && !HasId(s.w[s.t.r].attempts, id)
    ensures var c := WithAttempt(s.w[s.t.r], id, s.t.startedAt);
            StartTranscription(s.w, id, s.t.r, s.t.startedAt)
            == Outcome(s.w[s.t.r := c], Started(MaxNumber(s.w[s.t.r].attempts) + 1, Anchor(s.w[s.t.r], c.attempts)))
  {
  }

  lemma TStartInv(s: Sys, id: Id)
    requires Inv(s) && s.t.TClaimed? && !AttemptIdUsed(s.w, id)
    ensures var o := StartTranscription(s.w, id, s.t.r, s.t.startedAt);
            o.reply.Started? && Inv(s.(w := o.world, t := TCalling(s.t.r, id, o.reply.anchor, s.t.audioDurationMs)))
  {
    var r, at := s.t.r, s.t.startedAt;
    var c := WithAttempt(s.w[r], id, at);
    var t := TCalling(r, id, Anchor(s.w[r], c.attempts), s.t.audioDurationMs);
    TStartIs(s, id);
    StartedCase(s.w[r], id, at, s.t.audioDurationMs, s.clock);
    FreshIdsSeparate(s.w, r, c, id);
    forall q | q in s.w && q != r ensures Owned(s.w[q], q, t, s.d) { assert Owned(s.w[q], q, s.t, s.d); }
    assert Owned(s.w[r], r, s.t, s.d);
    OneCaseInv(s, r, c, t, s.d);
  }

  lemma NotThere(s: seq<Attempt>, id: Id)
    ensures HasId(s, id) <==> id in Ids(s)
  {
  }

  /** Finishing by id touches the one case whose attempt is in flight. */
  lemma FinishIsLocal(w: World, r: Id, id: Id, state: AttemptState)
    requires AllSeparate(w) && r in w && InFlight(w[r].attempts, id)
    ensures FinishAttempt(w, id, state) == w[r := w[r].(attempts := Mark(w[r].attempts, id, state))]
  {
    assert id in Ids(w[r].attempts);
    forall q | q in w && q != r ensures Mark(w[q].attempts, id, state) == w[q].attempts {
      assert Separate(w[r], w[q]);
      NotThere(w[q].attempts, id);
      MarkNone(w[q].attempts, id, state);
    }
  }

  lemma FinishTryIsLocal(w: World, r: Id, id: Id, state: AttemptState)
    requires AllSeparate(w) && r in w && InFlight(w[r].tries, id)
    ensures FinishTry(w, id, state) == w[r := w[r].(tries := Mark(w[r].tries, id, state))]
  {
    assert id in Ids(w[r].tries);
    forall q | q in w && q != r ensures Mark(w[q].tries, id, state) == w[q].tries {
      assert Separate(w[r], w[q]);
      NotThere(w[q].tries, id);
      MarkNone(w[q].tries, id, state);
    }
  }

  /** Ending the attempt in flight, whatever else happens to the case, leaves the loop idle. */
  lemma TIdleInv(s: Sys, state: AttemptState, c: Case)
    requires Inv(s) && s.t.TCalling? && !state.InProgress?
    requires CaseInv(c, s.clock) && SameIdentity(s.w[s.t.r], c)
    requires c.attempts == Mark(s.w[s.t.r].attempts, s.t.id, state) && c.tries == s.w[s.t.r].tries
    ensures Inv(s.(w := s.w[s.t.r := c], t := TIdle))
  {
    var r, id := s.t.r, s.t.id;
    MarkLast(s.w[r].attempts, id, state);
    SameRowsSeparate(s, r, c);
    assert CaseInv(s.w[r], s.clock);
    forall q | q in s.w && q != r ensures Owned(s.w[q], q, TIdle, s.d) { assert Owned(s.w[q], q, s.t, s.d); }
    assert Owned(s.w[r], r, s.t, s.d) && !HasOpen(c.attempts);
    OneCaseInv(s, r, c, TIdle, s.d);
  }

  lemma TEndInv(s: Sys, state: AttemptState, c: Case)
    requires Inv(s) && s.t.TCalling? && !state.InProgress?
    requires CaseInv(c, s.clock) && SameIdentity(s.w[s.t.r], c)
    requires c.attempts == Mark(s.w[s.t.r].attempts, s.t.id, state) && c.tries == s.w[s.t.r].tries
    ensures FinishAttempt(s.w, s.t.id, state)[s.t.r := c] == s.w[s.t.r := c]
    ensures Inv(s.(w := s.w[s.t.r := c], t := TIdle))
  {
    FinishIsLocal(s.w, s.t.r, s.t.id, state);
    TIdleInv(s, state, c);
  }

  lemma SameIds(c: Case, d: Case, id: Id, state: AttemptState)
    requires SoundCase(c) && !state.InProgress?
    requires d.attempts == Mark(c.attempts, id, state) && d.tries == c.tries && d.delivery == c.delivery
    requires SameKey(d.rec, c.rec.clientId, c.rec.clientRecordingId)
    ensures SameIdentity(c, d)
  {
    MarkedAttempt(c, id, state);
  }

  lemma TSucceedInv(s: Sys, text: string)
    requires Inv(s) && s.t.TCalling?
    ensures var o := SucceedTranscription(s.w, s.t.id, s.t.r, s.clock, text);
            o.reply.Done? && Inv(s.(w := o.world, t := TIdle))
  {
    var id, c := s.t.id, s.w[s.t.r];
    assert CaseInv(c, s.clock);
    var d := Transcribed(c.(attempts := Mark(c.attempts, id, Succeeded(s.clock))), text, s.clock);
    SucceedInv(c, id, text, s.clock);
    SameIds(c, d, id, Succeeded(s.clock));
    TEndInv(s, Succeeded(s.clock), d);
  }

  lemma TRetryInv(s: Sys, message: string)
    requires Inv(s) && s.t.TCalling? && s.clock < TranscriptionDeadline(s.t.anchor, s.t.audioDurationMs)
    ensures var o := RetryTranscription(s.w, s.t.id, s.t.r, s.clock, message);
            o.reply.Done? && Inv(s.(w := o.world, t := TIdle))
  {
    var id, c := s.t.id, s.w[s.t.r];
    assert CaseInv(c, s.clock);
    var state := RetryableFailure(s.clock, message);
    var d := Troubled(c.(attempts := Mark(c.attempts, id, state)), message);
    RetryInv(c, id, message, s.clock);
    SameIds(c, d, id, state);
    TEndInv(s, state, d);
  }

  lemma TFailInv(s: Sys, message: string)
    requires Inv(s) && s.t.TCalling?
    ensures var o := FailTranscription(s.w, s.t.id, s.t.r, s.clock, message);
            o.reply.Done? && Inv(s.(w := o.world, t := TIdle))
  {
    var id, c := s.t.id, s.w[s.t.r];
    assert CaseInv(c, s.clock);
    var state := TerminalFailure(s.clock, message);
    var d := Moved(Troubled(c.(attempts := Mark(c.attempts, id, state)), message), TranscriptionFailed);
    FailInv(c, id, message, s.clock);
    SameIds(c, d, id, state);
    TEndInv(s, state, d);
  }

  /** No finishing transaction of the Transcription loop can be refused, and the invariant survives it. */
  lemma TFinishInv(s: Sys, answer: Answer)
    requires Inv(s) && s.t.TCalling?
    ensures EndTranscription(s, answer).reply.Done?
    ensures Inv(s.(w := EndTranscription(s, answer).world, t := TIdle))
  {
    match answer
    case Good(text) => TSucceedInv(s, text);
    case Terminal(message) => TFailInv(s, message);
    case Retryable(message) =>
      if s.clock >= TranscriptionDeadline(s.t.anchor, s.t.audioDurationMs) {
        TFailInv(s, message);
      } else {
        TRetryInv(s, message);
      }
  }

  // -- The Routing loops -------------------------------------------------------------------------

  lemma RouterChange(s: Sys, i: nat, l: RoutingLoop)
    requires Inv(s) && i < |s.routers| && RoutingLoopInv(s.w, s.clock, l)
    ensures Inv(s.(routers := s.routers[i := l]))
  {
    var routers := s.routers[i := l];
    forall j | 0 <= j < |routers| ensures RoutingLoopInv(s.w, s.clock, routers[j]) {
      if j != i { assert RoutingLoopInv(s.w, s.clock, s.routers[j]); }
    }
  }

  /** Dispatching or backlogging a Recording disturbs neither loop: it is past Transcription and before Delivery. */
  lemma DispatchStep(s: Sys, r: Id, c: Case)
    requires Inv(s) && r in s.w && s.w[r].rec.status in {Routing, Backlogged}
    requires CaseInv(c, s.clock) && c.rec.status in {Backlogged, Delivering}
    requires c.attempts == s.w[r].attempts && c.tries == s.w[r].tries
    requires SameKey(c.rec, s.w[r].rec.clientId, s.w[r].rec.clientRecordingId)
    requires c.delivery.Some? ==> !DeliveryIdUsed(s.w, c.delivery.value.id)
    ensures Inv(s.(w := s.w[r := c]))
  {
    assert CaseInv(s.w[r], s.clock);
    forall q | q in s.w && q != r ensures Separate(c, s.w[q]) && Owned(s.w[q], q, s.t, s.d) {
      assert Separate(s.w[r], s.w[q]) && Owned(s.w[q], q, s.t, s.d);
      assert c.delivery.Some? ==> !OwnsDelivery(s.w[q], c.delivery.value.id);
    }
    assert Owned(s.w[r], r, s.t, s.d);
    OtherTranscription(s.w, r, c, s.clock, s.t);
    OtherDelivery(s.w, r, c, s.clock, s.d);
    OneCaseInv(s, r, c, s.t, s.d);
  }

  /** A routing decision is never fatal, takes effect only on a Recording still `routing`, and keeps the invariant. */
  lemma DecideInv(s: Sys, r: Id, now: Time, v: Verdict)
    requires Inv(s) && r in s.w && now <= s.clock
    requires v.ToSink? ==> !DeliveryIdUsed(s.w, v.id)
    ensures var o := DecideRoute(s.w, r, now, v);
            !Fatal(o.reply) && Inv(s.(w := o.world))
  {
    var c := s.w[r];
    assert CaseInv(c, s.clock);
    if c.rec.status == Routing {
      match v
      case ToBacklog =>
        BacklogInv(c, s.clock);
        DispatchStep(s, r, Moved(c, Backlogged));
      case ToSink(id, sink) =>
        var n := NewDelivery(id, sink, now, Some(now + DELIVERY_WINDOW));
        DispatchInv(c, n, s.clock);
        DispatchStep(s, r, Dispatched(c, n));
    }
  }

  // -- The Delivery loop ---------------------------------------------------------------------------

  /** The candidate scan never misses a Transcript. */
  lemma ScanWorks(s: Sys)
    requires Inv(s)
    ensures DeliveryScanWorks(s.w)
  {
    forall r | r in s.w && DeliveryCandidate(s.w[r]) ensures s.w[r].transcript.Some? {
      assert CaseInv(s.w[r], s.clock);
    }
  }

  lemma DueDeliveryIsReady(c: Case, now: Time, clock: Time)
    requires CaseInv(c, clock) && DeliveryCandidate(c) && DeliveryDue(c, now) && FinishedBy(c.tries, now)
    ensures Ready(DTrack(c), now) && c.rec.status == Delivering
  {
    var n := |c.tries|;
    if n > 0 {
      assert !c.tries[n - 1].Open();
      assert GoodAttempt(DTrack(c), n - 1, clock);
      WindowsOpened(DTrack(c), clock);
    }
  }

  lemma DPickInv(s: Sys, r: Id)
    requires Inv(s) && s.d.DBegun? && DueForDelivery(s.w, r, s.d.startedAt)
    ensures Inv(s.(d := DPicked(r, s.d.startedAt, s.w[r].delivery.value.retryDeadlineAt)))
  {
    assert CaseInv(s.w[r], s.clock);
    DueDeliveryIsReady(s.w[r], s.d.startedAt, s.clock);
    LoopChangeOwned(s, s.t, DPicked(r, s.d.startedAt, s.w[r].delivery.value.retryDeadlineAt));
  }

  lemma StartedTry(c: Case, id: Id, at: Time, deadline: Option<Time>, clock: Time)
    requires CaseInv(c, clock) && PickedCase(c, at, deadline) && at <= clock && !HasId(c.tries, id)
    ensures var d := WithTry(c, id, at);
            && CaseInv(d, clock) && DeliveringCase(d, id, deadline)
            && Ids(d.tries) == Ids(c.tries) + {id}
  {
    StartTryInv(c, id, at, clock);
    Appended(c.tries, Attempt(id, MaxNumber(c.tries) + 1, at, InProgress));
  }

  lemma DStartInv(s: Sys, id: Id)
    requires Inv(s) && s.d.DPicked? && !TryIdUsed(s.w, id)
    ensures var o := StartDelivery(s.w, id, s.d.r, s.d.startedAt);
            o.reply.Started? && Inv(s.(w := o.world, d := DCalling(s.d.r, id, s.d.deadline)))
  {
    var r, at := s.d.r, s.d.startedAt;
    var c := WithTry(s.w[r], id, at);
    var d := DCalling(r, id, s.d.deadline);
    assert CaseInv(s.w[r], s.clock) && !HasId(s.w[r].tries, id);
    StartedTry(s.w[r], id, at, s.d.deadline, s.clock);
    FreshIdsSeparate(s.w, r, c, id);
    forall q | q in s.w && q != r ensures Owned(s.w[q], q, s.t, d) { assert Owned(s.w[q], q, s.t, s.d); }
    assert Owned(s.w[r], r, s.t, s.d);
    OtherTranscription(s.w, r, c, s.clock, s.t);
    OneCaseInv(s, r, c, s.t, d);
  }

  lemma DIdleInv(s: Sys, state: AttemptState, c: Case)
    requires Inv(s) && s.d.DCalling? && !state.InProgress?
    requires CaseInv(c, s.clock) && SameIdentity(s.w[s.d.r], c) && PastTranscription(c.rec.status)
    requires c.tries == Mark(s.w[s.d.r].tries, s.d.id, state) && c.attempts == s.w[s.d.r].attempts
    ensures Inv(s.(w := s.w[s.d.r := c], d := DIdle))
  {
    var r, id := s.d.r, s.d.id;
    MarkLast(s.w[r].tries, id, state);
    SameRowsSeparate(s, r, c);
    assert CaseInv(s.w[r], s.clock);
    forall q | q in s.w && q != r ensures Owned(s.w[q], q, s.t, DIdle) { assert Owned(s.w[q], q, s.t, s.d); }
    assert Owned(s.w[r], r, s.t, s.d) && !HasOpen(c.tries);
    OtherTranscription(s.w, r, c, s.clock, s.t);
    OneCaseInv(s, r, c, s.t, DIdle);
  }

  lemma DEndInv(s: Sys, state: AttemptState, c: Case)
    requires Inv(s) && s.d.DCalling? && !state.InProgress?
    requires CaseInv(c, s.clock) && SameIdentity(s.w[s.d.r], c) && PastTranscription(c.rec.status)
    requires c.tries == Mark(s.w[s.d.r].tries, s.d.id, state) && c.attempts == s.w[s.d.r].attempts
    ensures FinishTry(s.w, s.d.id, state)[s.d.r := c] == s.w[s.d.r := c]
    ensures Inv(s.(w := s.w[s.d.r := c], d := DIdle))
  {
    FinishTryIsLocal(s.w, s.d.r, s.d.id, state);
    DIdleInv(s, state, c);
  }

  lemma SameTryIds(c: Case, d: Case, id: Id, state: AttemptState)
    requires SoundCase(c) && !state.InProgress? && c.delivery.Some?
    requires d.tries == Mark(c.tries, id, state) && d.attempts == c.attempts
    requires d.delivery.Some? && d.delivery.value.id == c.delivery.value.id
    requires SameKey(d.rec, c.rec.clientId, c.rec.clientRecordingId)
    ensures SameIdentity(c, d)
  {
    MarkedTry(c, id, state);
  }

  lemma DSucceedInv(s: Sys)
    requires Inv(s) && s.d.DCalling?
    ensures var o := SucceedDelivery(s.w, s.d.id, s.d.r, s.clock);
            o.reply.Done? && Inv(s.(w := o.world, d := DIdle))
  {
    var id, c := s.d.id, s.w[s.d.r];
    assert CaseInv(c, s.clock);
    var d := Arrived(c.(tries := Mark(c.tries, id, Succeeded(s.clock))), s.clock);
    Timeline.ArriveInv(c, id, s.clock);
    SameTryIds(c, d, id, Succeeded(s.clock));
    DEndInv(s, Succeeded(s.clock), d);
  }

  lemma DRetryInv(s: Sys, message: string)
    requires Inv(s) && s.d.DCalling? && s.d.deadline.Some? && s.clock < s.d.deadline.value
    ensures var o := RetryDelivery(s.w, s.d.id, s.d.r, s.clock, message);
            o.reply.Done? && Inv(s.(w := o.world, d := DIdle))
  {
    var id, c := s.d.id, s.w[s.d.r];
    assert CaseInv(c, s.clock);
    var state := RetryableFailure(s.clock, message);
    var d := DeliveryTroubled(c.(tries := Mark(c.tries, id, state)), message);
    WindowsOpened(DTrack(c), s.clock);
    RetryTryInv(c, id, message, s.clock);
    SameTryIds(c, d, id, state);
    DEndInv(s, state, d);
  }

  lemma DFailInv(s: Sys, message: string)
    requires Inv(s) && s.d.DCalling?
    ensures var o := FailDelivery(s.w, s.d.id, s.d.r, s.clock, message);
            o.reply.Done? && Inv(s.(w := o.world, d := DIdle))
  {
    var id, c := s.d.id, s.w[s.d.r];
    assert CaseInv(c, s.clock);
    var state := TerminalFailure(s.clock, message);
    var d := DeliveryGivenUp(c.(tries := Mark(c.tries, id, state)), s.clock, message);
    GiveUpInv(c, id, message, s.clock);
    SameTryIds(c, d, id, state);
    DEndInv(s, state, d);
  }

  /** No finishing transaction of the Delivery loop can be refused, and the invariant survives it. */
  lemma DFinishInv(s: Sys, answer: Answer)
    requires Inv(s) && s.d.DCalling?
    ensures EndDelivery(s, answer).reply.Done?
    ensures Inv(s.(w := EndDelivery(s, answer).world, d := DIdle))
  {
    assert CaseInv(s.w[s.d.r], s.clock);
    match answer
    case Good(_) => DSucceedInv(s);
    case Terminal(message) => DFailInv(s, message);
    case Retryable(message) =>
      if s.d.deadline.Some? && s.clock >= s.d.deadline.value {
        DFailInv(s, message);
      } else {
        DRetryInv(s, message);
      }
  }

  // -- The Operator -----------------------------------------------------------------------------------

  lemma ManualRouteInv(s: Sys, r: Id, id: Id, sink: string, at: Time)
    requires Inv(s) && at <= s.clock && !DeliveryIdUsed(s.w, id)
    ensures Inv(s.(w := ManualRoute(s.w, r, id, sink, at, at + DELIVERY_WINDOW).world))
  {
    if r in s.w && s.w[r].rec.status == Backlogged {
      var c := s.w[r];
      assert CaseInv(c, s.clock);
      var n := NewDelivery(id, sink, at, Some(at + DELIVERY_WINDOW));
      DispatchInv(c, n, s.clock);
      DispatchStep(s, r, Logged(Dispatched(c, n), at, RoutedManually(sink)));
    }
  }

  /** Reopening a failed case: no loop holds it. */
  lemma ReopenStep(s: Sys, r: Id, c: Case)
    requires Inv(s) && r in s.w && s.w[r].rec.status in {TranscriptionFailed, DeliveryFailed}
    requires CaseInv(c, s.clock) && SameIdentity(s.w[r], c)
    requires c.attempts == s.w[r].attempts && c.tries == s.w[r].tries
    requires c.rec.status == Transcribing ==> c.attempts != []
    ensures Inv(s.(w := s.w[r := c]))
  {
    assert CaseInv(s.w[r], s.clock);
    SameRowsSeparate(s, r, c);
    forall q | q in s.w && q != r ensures Owned(s.w[q], q, s.t, s.d) { assert Owned(s.w[q], q, s.t, s.d); }
    assert Owned(s.w[r], r, s.t, s.d);
    OtherTranscription(s.w, r, c, s.clock, s.t);
    OtherDelivery(s.w, r, c, s.clock, s.d);
    OneCaseInv(s, r, c, s.t, s.d);
  }

  lemma ManualRetryInv(s: Sys, r: Id, at: Time)
    requires Inv(s) && at <= s.clock
    ensures Inv(s.(w := ManualRetryTranscription(s.w, r, at).world))
    ensures Inv(s.(w := ManualRetryDelivery(s.w, r, at, at + DELIVERY_WINDOW).world))
  {
    if r in s.w {
      assert CaseInv(s.w[r], s.clock);
      if s.w[r].rec.status == TranscriptionFailed {
        ReopenTranscriptionInv(s.w[r], at, s.clock);
        ReopenStep(s, r, TranscriptionReopened(s.w[r], at));
      }
      if s.w[r].rec.status == DeliveryFailed {
        ReopenDeliveryInv(s.w[r], at, s.clock);
        ReopenStep(s, r, DeliveryReopened(s.w[r], at, at + DELIVERY_WINDOW));
      }
    }
  }

  // -- Restart ----------------------------------------------------------------------------------------

  lemma OwnedIsActive(s: Sys, r: Id)
    requires Inv(s) && r in s.w
    ensures OpenIsActive(s.w[r])
  {
    assert Owned(s.w[r], r, s.t, s.d);
  }

  /** Recovery turns whatever a crash left behind into a state without work in flight. */
  lemma RestartInv(s: Sys, n: nat)
    requires Inv(s)
    ensures Inv(s.(w := Recover(s.w, s.clock), up := true, t := TIdle, d := DIdle, routers := seq(n, _ => RIdle)))
  {
    InvIsSound(s);
    RecoverKeeps(s.w, s.clock);
    var v := Recover(s.w, s.clock);
    forall r | r in v ensures CaseInv(v[r], s.clock) && Owned(v[r], r, TIdle, DIdle) {
      OwnedIsActive(s, r);
      assert CaseInv(s.w[r], s.clock);
      RecoverInv(s.w[r], s.clock);
    }
  }

  // -- Every step, every run ------------------------------------------------------------------------------

  predicate OfTranscription(step: Step) {
    || step.TBegin? || step.TClaim? || step.TNoneReceived? || step.TPick?
    || step.TNothing? || step.TStart? || step.TFinish?
  }

  predicate OfDelivery(step: Step) {
    step.DBegin? || step.DPick? || step.DNothing? || step.DScanFails? || step.DStart? || step.DFinish?
  }

  predicate OfRouting(step: Step) {
    step.RBegin? || step.RPick? || step.RNothing? || step.RDecide?
  }

  lemma LoopStepInv(s: Sys, step: Step)
    requires Inv(s) && Enabled(s, step)
    requires OfTranscription(step)
    ensures Inv(Apply(s, step)) && Apply(s, step).up
  {
    match step
    case TBegin => TBeginInv(s);
    case TClaim(r) => TClaimInv(s, r);
    case TNoneReceived => LoopChangeOwned(s, TScanning(s.t.startedAt), s.d);
    case TPick(r) => TPickInv(s, r);
    case TNothing => LoopChangeOwned(s, TIdle, s.d);
    case TStart(id) => TStartInv(s, id);
    case TFinish(answer) => TFinishInv(s, answer);
  }

  lemma DeliveryStepInv(s: Sys, step: Step)
    requires Inv(s) && Enabled(s, step)
    requires OfDelivery(step)
    ensures Inv(Apply(s, step)) && Apply(s, step).up
  {
    ScanWorks(s);
    match step
    case DBegin => DBeginInv(s);
    case DPick(r) => DPickInv(s, r);
    case DNothing => LoopChangeOwned(s, s.t, DIdle);
    case DScanFails => assert false;
    case DStart(id) => DStartInv(s, id);
    case DFinish(answer) => DFinishInv(s, answer);
  }

  lemma RoutingStepInv(s: Sys, step: Step)
    requires Inv(s) && Enabled(s, step)
    requires OfRouting(step)
    ensures Inv(Apply(s, step)) && Apply(s, step).up
  {
    assert RoutingLoopInv(s.w, s.clock, s.routers[step.i]);
    match step
    case RBegin(i) => RouterChange(s, i, RBegun(s.clock));
    case RPick(i, r) => RouterChange(s, i, RHolding(r, s.routers[i].now));
    case RNothing(i) => RouterChange(s, i, RIdle);
    case RDecide(i, v) =>
      DecideInv(s, s.routers[i].r, s.routers[i].now, v);
      RouterChange(s.(w := DecideRoute(s.w, s.routers[i].r, s.routers[i].now, v).world), i, RIdle);
  }

  lemma OtherStepInv(s: Sys, step: Step)
    requires Inv(s) && Enabled(s, step)
    requires !OfTranscription(step) && !OfDelivery(step) && !OfRouting(step)
    ensures Inv(Apply(s, step)) && (s.up && !step.Crash? ==> Apply(s, step).up)
  {
    match step
    case Advance(to) => AdvanceInv(s, to);
    case Arrive(id, n) => ArriveInv(s, id, n);
    case OpRoute(r, id, sink, at) => ManualRouteInv(s, r, id, sink, at);
    case OpRetryTranscription(r, at) => ManualRetryInv(s, r, at);
    case OpRetryDelivery(r, at) => ManualRetryInv(s, r, at);
    case Crash =>
    case Restart => RestartInv(s, |s.routers|);
  }

  /** Every step keeps the invariant, and only a crash stops the service: no tick ever reports an error. */
  lemma StepInv(s: Sys, step: Step)
    requires Inv(s) && Enabled(s, step)
    ensures Inv(Apply(s, step))
    ensures s.up && !step.Crash? ==> Apply(s, step).up
  {
    if OfTranscription(step) {
      LoopStepInv(s, step);
    } else if OfDelivery(step) {
      DeliveryStepInv(s, step);
    } else if OfRouting(step) {
      RoutingStepInv(s, step);
    } else {
      OtherStepInv(s, step);
    }
  }

  lemma InitInv(clock: Time, n: nat)
    ensures Inv(Init(clock, n))
  {
  }

  lemma {:induction false} RunInv(s: Sys, steps: seq<Step>)
    requires Inv(s) && Legal(s, steps)
    ensures Inv(Run(s, steps))
    decreases |steps|
  {
    if steps != [] {
      StepInv(s, steps[0]);
      RunInv(Apply(s, steps[0]), steps[1..]);
    }
  }
}
