/** The two tracks of one Recording, and what each transaction does to them. */
module Timeline {
  import opened Domain
  import opened Ledger
  import opened Retry
  import opened StoreLaws
  import opened Timestamp
  import opened Tracks
  import opened Wrappers

  /** When the Operator logged actions of one kind, oldest first. */
  function Times(audit: seq<AuditEvent>, kind: AuditKind): seq<Time> {
    if audit == [] then []
    else
      var last := audit[|audit| - 1];
      Times(audit[..|audit| - 1], kind) + (if last.kind == kind then [last.at] else [])
  }

  function Latest(times: seq<Time>): Option<Time> {
    if times == [] then None else Some(times[|times| - 1])
  }

  /** Event `i` is the last of its kind in the log. */
  predicate IsLast(audit: seq<AuditEvent>, kind: AuditKind, i: nat) {
    i < |audit| && audit[i].kind == kind && forall j | i < j < |audit| :: audit[j].kind != kind
  }

  /** The last event of its kind in the log is later than `at`. */
  ghost predicate LastLoggedAfter(audit: seq<AuditEvent>, kind: AuditKind, at: Time) {
    exists i: nat :: IsLast(audit, kind, i) && audit[i].at > at
  }

  lemma {:induction false} LatestIsLast(audit: seq<AuditEvent>, kind: AuditKind, i: nat)
    requires IsLast(audit, kind, i)
    ensures Latest(Times(audit, kind)) == Some(audit[i].at)
    decreases |audit|
  {
    if i < |audit| - 1 {
      assert IsLast(audit[..|audit| - 1], kind, i);
      LatestIsLast(audit[..|audit| - 1], kind, i);
    }
  }

  lemma {:induction false} SomeIsLast(audit: seq<AuditEvent>, kind: AuditKind)
    requires Times(audit, kind) != []
    ensures exists i: nat :: IsLast(audit, kind, i)
  {
    var n := |audit| - 1;
    if audit[n].kind == kind {
      assert IsLast(audit, kind, n);
    } else {
      SomeIsLast(audit[..n], kind);
      var i: nat :| IsLast(audit[..n], kind, i);
      assert IsLast(audit, kind, i);
    }
  }

  lemma LatestIsLogged(audit: seq<AuditEvent>, kind: AuditKind, at: Time)
    ensures LastLoggedAfter(audit, kind, at)
      <==> Latest(Times(audit, kind)).Some? && Latest(Times(audit, kind)).value > at
  {
    if LastLoggedAfter(audit, kind, at) {
      var i: nat :| IsLast(audit, kind, i) && audit[i].at > at;
      LatestIsLast(audit, kind, i);
    }
    if Times(audit, kind) != [] {
      SomeIsLast(audit, kind);
      var i: nat :| IsLast(audit, kind, i);
      LatestIsLast(audit, kind, i);
    }
  }

  lemma LoggedTimes(c: Case, at: Time, kind: AuditKind, other: AuditKind)
    ensures Times(Logged(c, at, kind).audit, other)
            == Times(c.audit, other) + (if kind == other then [at] else [])
  {
    assert Logged(c, at, kind).audit[..|c.audit|] == c.audit;
  }

  function TranscriptionPhase(status: RecordingStatus): Phase {
    if status == TranscriptionFailed then GivenUp
    else if PastTranscription(status) then Phase.Done
    else Active
  }

  function DeliveryPhase(status: DeliveryStatus): Phase {
    match status
    case InDelivery => Active
    case Complete => Phase.Done
    case Failed => GivenUp
  }

  function TTrack(c: Case): Track {
    Track.Track(c.attempts,
                if c.attempts == [] then 0 else c.attempts[0].startedAt,
                Times(c.audit, RetriedTranscription),
                TranscriptionWindow(c.rec.audioDurationMs),
                TranscriptionPhase(c.rec.status))
  }

  function DTrack(c: Case): Track
    requires c.delivery.Some?
  {
    var d := c.delivery.value;
    Track.Track(c.tries, d.selectedAt, Times(c.audit, RetriedDelivery), DELIVERY_WINDOW, DeliveryPhase(d.status))
  }

  /** A Delivery's deadline: its last manual retry, else its selection, plus 24 h. */
  function DeliveryDeadline(c: Case): Time
    requires c.delivery.Some?
  {
    match Latest(Times(c.audit, RetriedDelivery))
    case Some(at) => at + DELIVERY_WINDOW
    case None => c.delivery.value.selectedAt + DELIVERY_WINDOW
  }

  ghost predicate TranscriptionInv(c: Case, clock: Time) {
    && ValidTrack(TTrack(c), clock)
    && (c.rec.status == Received ==> c.attempts == [])
    && c.rec.retryWindowStartedAt == Latest(Times(c.audit, RetriedTranscription))
  }

  ghost predicate DeliveryInv(c: Case, clock: Time) {
    match c.delivery
    case None => Times(c.audit, RetriedDelivery) == []
    case Some(d) =>
      && ValidTrack(DTrack(c), clock)
      && d.selectedAt <= clock
      && d.retryWindowStartedAt == Latest(Times(c.audit, RetriedDelivery))
      && d.retryDeadlineAt == Some(DeliveryDeadline(c))
  }

  ghost predicate CaseInv(c: Case, clock: Time) {
    SoundCase(c) && TranscriptionInv(c, clock) && DeliveryInv(c, clock)
  }

  lemma ClockTick(c: Case, clock: Time, later: Time)
    requires CaseInv(c, clock) && clock <= later
    ensures CaseInv(c, later)
  {
    ClockAdvances(TTrack(c), clock, later);
    if c.delivery.Some? {
      ClockAdvances(DTrack(c), clock, later);
    }
  }

  lemma FreshInv(n: NewRecording, clock: Time)
    ensures CaseInv(FreshCase(n), clock)
  {
  }

  // -- Marking the attempt in flight ---------------------------------------------------

  lemma OnlyLastOpen(s: seq<Attempt>)
    requires Disciplined(s) && HasOpen(s)
    ensures s != [] && s[|s| - 1].Open()
  {
  }

  /** Finishing by id touches exactly the attempt in flight. */
  lemma MarkLast(s: seq<Attempt>, id: Id, state: AttemptState)
    requires Unique(s) && s != [] && s[|s| - 1].id == id
    ensures Mark(s, id, state) == s[|s| - 1 := s[|s| - 1].(state := state)]
  {
  }

  lemma MarkNone(s: seq<Attempt>, id: Id, state: AttemptState)
    requires !HasId(s, id)
    ensures Mark(s, id, state) == s
  {
    forall i | 0 <= i < |s| ensures s[i].id != id {}
  }

  lemma CloseLast(s: seq<Attempt>, at: Time)
    requires Disciplined(s)
    ensures HasOpen(s) ==> CloseOpen(s, at) == s[|s| - 1 := s[|s| - 1].(state := Abandoned(at))]
    ensures !HasOpen(s) ==> CloseOpen(s, at) == s
  {
  }

  // -- Transcription ---------------------------------------------------------------------

  lemma ClaimInv(c: Case, clock: Time)
    requires CaseInv(c, clock) && c.rec.status == Received
    ensures CaseInv(Moved(c, Transcribing), clock)
  {
    assert TTrack(Moved(c, Transcribing)) == TTrack(c);
  }

  lemma StartInv(c: Case, id: Id, startedAt: Time, clock: Time)
    requires CaseInv(c, clock) && c.rec.status == Transcribing && !HasOpen(c.attempts)
    requires Ready(TTrack(c), startedAt) && startedAt <= clock && !HasId(c.attempts, id)
    ensures var a := Attempt(id, MaxNumber(c.attempts) + 1, startedAt, InProgress);
            CaseInv(c.(attempts := c.attempts + [a]), clock)
  {
    var a := Attempt(id, MaxNumber(c.attempts) + 1, startedAt, InProgress);
    var d := c.(attempts := c.attempts + [a]);
    Appended(c.attempts, a);
    Opened(TTrack(c), a, TTrack(d).first, clock);
    assert TTrack(d) == TTrack(c).(attempts := c.attempts + [a], first := TTrack(d).first);
  }

  /** The anchor returned by the start is the one the track prescribes: text order cannot mislead it. */
  lemma StartAnchor(c: Case, id: Id, startedAt: Time, clock: Time)
    requires CaseInv(c, clock) && c.rec.status == Transcribing && !HasOpen(c.attempts)
    requires Ready(TTrack(c), startedAt) && startedAt <= clock && !HasId(c.attempts, id)
    ensures var a := Attempt(id, MaxNumber(c.attempts) + 1, startedAt, InProgress);
            var d := c.(attempts := c.attempts + [a]);
            && Terminals(d.attempts, |c.attempts|) <= |TTrack(d).retries|
            && Anchor(c, d.attempts) == AnchorAt(TTrack(d), |c.attempts|)
  {
    var a := Attempt(id, MaxNumber(c.attempts) + 1, startedAt, InProgress);
    var d := c.(attempts := c.attempts + [a]);
    var n := |c.attempts|;
    StartInv(c, id, startedAt, clock);
    assert d.attempts[..n] == c.attempts[..n];
    TerminalsFrame(c.attempts, d.attempts, n);
    assert Terminals(d.attempts, n) == |TTrack(c).retries|;
    if TTrack(c).retries == [] {
      EarliestStart(TTrack(d), clock);
    }
  }

  lemma EarliestStart(t: Track, clock: Time)
    requires ValidTrack(t, clock) && t.attempts != [] && Terminals(t.attempts, |t.attempts| - 1) == 0
    ensures TextMinStart(t.attempts) == t.attempts[0].startedAt
  {
    FirstStartIsLeast(t, |t.attempts|, clock);
    assert t.attempts[..|t.attempts|] == t.attempts;
  }

  lemma {:induction false} StartsApart(t: Track, i: nat, clock: Time)
    requires ValidTrack(t, clock) && 0 < i < |t.attempts| && Terminals(t.attempts, i) == 0
    ensures t.attempts[0].startedAt + MINUTE <= t.attempts[i].startedAt
  {
    assert GoodAttempt(t, i, clock) && GoodAttempt(t, i - 1, clock);
    BackoffMonotone(1, i);
    if i > 1 {
      StartsApart(t, i - 1, clock);
    }
  }

  /** `MIN(started_at)` over text is the first attempt's start while no attempt failed for good. */
  lemma {:induction false} FirstStartIsLeast(t: Track, n: nat, clock: Time)
    requires ValidTrack(t, clock) && 1 <= n <= |t.attempts| && Terminals(t.attempts, n - 1) == 0
    ensures TextMinStart(t.attempts[..n]) == t.attempts[0].startedAt
    decreases n
  {
    if n > 1 {
      FirstStartIsLeast(t, n - 1, clock);
      StartsApart(t, n - 1, clock);
      TextBeforeAcrossSeconds(t.attempts[0].startedAt, t.attempts[n - 1].startedAt);
      assert t.attempts[..n][..n - 1] == t.attempts[..n - 1];
    }
  }

  /** The Recording's attempt in flight is the last one, with id `id`. */
  ghost predicate InFlight(s: seq<Attempt>, id: Id) {
    s != [] && s[|s| - 1].Open() && s[|s| - 1].id == id
  }

  lemma EndTrack(c: Case, id: Id, state: AttemptState, clock: Time)
    requires CaseInv(c, clock) && c.rec.status == Transcribing && InFlight(c.attempts, id)
    requires !state.InProgress? && state.at == clock
    requires Terminals(c.attempts, |c.attempts| - 1) <= |TTrack(c).retries|
    requires state.RetryableFailure? ==> clock < AnchorAt(TTrack(c), |c.attempts| - 1) + TTrack(c).window
    ensures var s := Mark(c.attempts, id, state);
            && ValidTrack(TTrack(c).(attempts := s, phase := PhaseAfter(state)), clock)
            && SoundCase(c.(attempts := s)) && s != [] && s[0].startedAt == c.attempts[0].startedAt
  {
    MarkLast(c.attempts, id, state);
    MarkedAttempt(c, id, state);
    Closed(TTrack(c), state, clock);
  }

  lemma SucceedInv(c: Case, id: Id, text: string, clock: Time)
    requires CaseInv(c, clock) && c.rec.status == Transcribing && InFlight(c.attempts, id)
    ensures CaseInv(Transcribed(c.(attempts := Mark(c.attempts, id, Succeeded(clock))), text, clock), clock)
  {
    WindowsOpened(TTrack(c), clock);
    EndTrack(c, id, Succeeded(clock), clock);
    var d := Transcribed(c.(attempts := Mark(c.attempts, id, Succeeded(clock))), text, clock);
    assert TTrack(d) == TTrack(c).(attempts := d.attempts, phase := Phase.Done);
    assert d.delivery.None?;
  }

  lemma RetryInv(c: Case, id: Id, message: string, clock: Time)
    requires CaseInv(c, clock) && c.rec.status == Transcribing && InFlight(c.attempts, id)
    requires Terminals(c.attempts, |c.attempts| - 1) <= |TTrack(c).retries|
    requires clock < AnchorAt(TTrack(c), |c.attempts| - 1) + TTrack(c).window
    ensures CaseInv(Troubled(c.(attempts := Mark(c.attempts, id, RetryableFailure(clock, message))), message), clock)
  {
    EndTrack(c, id, RetryableFailure(clock, message), clock);
    var d := Troubled(c.(attempts := Mark(c.attempts, id, RetryableFailure(clock, message))), message);
    assert TTrack(d) == TTrack(c).(attempts := d.attempts);
    assert d.delivery.None?;
  }

  lemma FailInv(c: Case, id: Id, message: string, clock: Time)
    requires CaseInv(c, clock) && c.rec.status == Transcribing && InFlight(c.attempts, id)
    ensures CaseInv(Moved(Troubled(c.(attempts := Mark(c.attempts, id, TerminalFailure(clock, message))), message),
                          TranscriptionFailed), clock)
  {
    WindowsOpened(TTrack(c), clock);
    EndTrack(c, id, TerminalFailure(clock, message), clock);
    var d := Moved(Troubled(c.(attempts := Mark(c.attempts, id, TerminalFailure(clock, message))), message),
                   TranscriptionFailed);
    assert TTrack(d) == TTrack(c).(attempts := d.attempts, phase := GivenUp);
    assert d.delivery.None?;
  }

  lemma ReopenTranscriptionInv(c: Case, at: Time, clock: Time)
    requires CaseInv(c, clock) && c.rec.status == TranscriptionFailed && at <= clock
    ensures CaseInv(TranscriptionReopened(c, at), clock)
  {
    var d := TranscriptionReopened(c, at);
    LoggedTimes(c, at, RetriedTranscription, RetriedTranscription);
    LoggedTimes(c, at, RetriedTranscription, RetriedDelivery);
    Reopened(TTrack(c), at, clock);
    assert d.audit == Logged(c, at, RetriedTranscription).audit;
    assert TTrack(d) == TTrack(c).(retries := TTrack(c).retries + [at], phase := Active);
    assert d.delivery.None?;
    CaseLaws(c, at, "", at);
  }

  // -- Routing -----------------------------------------------------------------------------

  lemma BacklogInv(c: Case, clock: Time)
    requires CaseInv(c, clock) && c.rec.status == Routing
    ensures CaseInv(Moved(c, Backlogged), clock)
  {
    assert TTrack(Moved(c, Backlogged)) == TTrack(c);
  }

  lemma DispatchInv(c: Case, n: NewDelivery, clock: Time)
    requires CaseInv(c, clock) && c.rec.status in {Routing, Backlogged} && n.selectedAt <= clock
    requires n.retryDeadlineAt == Some(n.selectedAt + DELIVERY_WINDOW)
    ensures CaseInv(Dispatched(c, n), clock)
    ensures CaseInv(Logged(Dispatched(c, n), n.selectedAt, RoutedManually(n.sink)), clock)
  {
    var d := Dispatched(c, n);
    assert TTrack(d) == TTrack(c);
    var l := Logged(d, n.selectedAt, RoutedManually(n.sink));
    LoggedTimes(d, n.selectedAt, RoutedManually(n.sink), RetriedTranscription);
    LoggedTimes(d, n.selectedAt, RoutedManually(n.sink), RetriedDelivery);
    assert TTrack(l) == TTrack(c);
    assert DTrack(l) == DTrack(d);
  }

  // -- Delivery ------------------------------------------------------------------------------

  lemma StartTryInv(c: Case, id: Id, startedAt: Time, clock: Time)
    requires CaseInv(c, clock) && c.delivery.Some? && !HasOpen(c.tries)
    requires Ready(DTrack(c), startedAt) && startedAt <= clock && !HasId(c.tries, id)
    ensures var a := Attempt(id, MaxNumber(c.tries) + 1, startedAt, InProgress);
            CaseInv(c.(tries := c.tries + [a]), clock)
  {
    var a := Attempt(id, MaxNumber(c.tries) + 1, startedAt, InProgress);
    var d := c.(tries := c.tries + [a]);
    Appended(c.tries, a);
    Opened(DTrack(c), a, DTrack(c).first, clock);
    assert DTrack(d) == DTrack(c).(attempts := c.tries + [a], first := DTrack(c).first);
    assert TTrack(d) == TTrack(c);
  }

  lemma EndTry(c: Case, id: Id, state: AttemptState, clock: Time)
    requires CaseInv(c, clock) && c.delivery.Some? && c.rec.status == Delivering && InFlight(c.tries, id)
    requires !state.InProgress? && state.at == clock
    requires Terminals(c.tries, |c.tries| - 1) <= |DTrack(c).retries|
    requires state.RetryableFailure? ==> clock < AnchorAt(DTrack(c), |c.tries| - 1) + DELIVERY_WINDOW
    ensures var s := Mark(c.tries, id, state);
            && ValidTrack(DTrack(c).(attempts := s, phase := PhaseAfter(state)), clock)
            && SoundCase(c.(tries := s))
  {
    MarkLast(c.tries, id, state);
    MarkedTry(c, id, state);
    Closed(DTrack(c), state, clock);
  }

  /** Ending a try, with what goes with it on the Delivery and the Recording. */
  lemma EndedTryInv(c: Case, d: Case, id: Id, state: AttemptState, clock: Time)
    requires CaseInv(c, clock) && c.delivery.Some? && c.rec.status == Delivering && InFlight(c.tries, id)
    requires !state.InProgress? && state.at == clock
    requires state.RetryableFailure? ==>
               && Terminals(c.tries, |c.tries| - 1) <= |DTrack(c).retries|
               && clock < AnchorAt(DTrack(c), |c.tries| - 1) + DELIVERY_WINDOW
    requires d == c.(tries := Mark(c.tries, id, state), rec := d.rec, delivery := d.delivery)
    requires d.rec == c.rec.(status := d.rec.status, latestError := d.rec.latestError)
    requires d.delivery.Some?
    requires var (a, b) := (c.delivery.value, d.delivery.value);
             && b == a.(status := b.status, completedAt := b.completedAt, latestError := b.latestError)
             && DeliveryPhase(b.status) == PhaseAfter(state) && d.rec.status == StatusOf(b.status)
    ensures CaseInv(d, clock)
  {
    WindowsOpened(DTrack(c), clock);
    EndTry(c, id, state, clock);
    assert SoundCase(d) && TTrack(d) == TTrack(c);
    assert DTrack(d) == DTrack(c).(attempts := d.tries, phase := PhaseAfter(state));
  }

  lemma ArriveInv(c: Case, id: Id, clock: Time)
    requires CaseInv(c, clock) && c.delivery.Some? && c.rec.status == Delivering && InFlight(c.tries, id)
    ensures CaseInv(Arrived(c.(tries := Mark(c.tries, id, Succeeded(clock))), clock), clock)
  {
    var d := Arrived(c.(tries := Mark(c.tries, id, Succeeded(clock))), clock);
    EndedTryInv(c, d, id, Succeeded(clock), clock);
  }

  lemma RetryTryInv(c: Case, id: Id, message: string, clock: Time)
    requires CaseInv(c, clock) && c.delivery.Some? && c.rec.status == Delivering && InFlight(c.tries, id)
    requires Terminals(c.tries, |c.tries| - 1) <= |DTrack(c).retries|
    requires clock < AnchorAt(DTrack(c), |c.tries| - 1) + DELIVERY_WINDOW
    ensures CaseInv(DeliveryTroubled(c.(tries := Mark(c.tries, id, RetryableFailure(clock, message))), message), clock)
  {
    var d := DeliveryTroubled(c.(tries := Mark(c.tries, id, RetryableFailure(clock, message))), message);
    EndedTryInv(c, d, id, RetryableFailure(clock, message), clock);
  }

  lemma GiveUpInv(c: Case, id: Id, message: string, clock: Time)
    requires CaseInv(c, clock) && c.delivery.Some? && c.rec.status == Delivering && InFlight(c.tries, id)
    ensures CaseInv(DeliveryGivenUp(c.(tries := Mark(c.tries, id, TerminalFailure(clock, message))), clock, message),
                    clock)
  {
    var d := DeliveryGivenUp(c.(tries := Mark(c.tries, id, TerminalFailure(clock, message))), clock, message);
    EndedTryInv(c, d, id, TerminalFailure(clock, message), clock);
  }

  lemma ReopenDeliveryInv(c: Case, at: Time, clock: Time)
    requires CaseInv(c, clock) && c.delivery.Some? && c.rec.status == DeliveryFailed && at <= clock
    ensures CaseInv(DeliveryReopened(c, at, at + DELIVERY_WINDOW), clock)
  {
    var d := DeliveryReopened(c, at, at + DELIVERY_WINDOW);
    LoggedTimes(c, at, RetriedDelivery, RetriedTranscription);
    LoggedTimes(c, at, RetriedDelivery, RetriedDelivery);
    Reopened(DTrack(c), at, clock);
    assert d.audit == Logged(c, at, RetriedDelivery).audit;
    assert DTrack(d) == DTrack(c).(retries := DTrack(c).retries + [at], phase := Active);
    assert TTrack(d) == TTrack(c);
    DeliveryCaseLaws(c, at, "", at + DELIVERY_WINDOW);
  }

  // -- Recovery ------------------------------------------------------------------------------

  /** Unfinished attempts belong to work that is still active. */
  ghost predicate OpenIsActive(c: Case) {
    && (HasOpen(c.attempts) ==> c.rec.status == Transcribing)
    && (HasOpen(c.tries) ==> c.rec.status == Delivering)
  }

  lemma AbandonedTrack(t: Track, clock: Time)
    requires ValidTrack(t, clock) && Disciplined(t.attempts) && (HasOpen(t.attempts) ==> t.phase.Active?)
    ensures ValidTrack(t.(attempts := CloseOpen(t.attempts, clock)), clock)
  {
    CloseLast(t.attempts, clock);
    if HasOpen(t.attempts) {
      OnlyLastOpen(t.attempts);
      WindowsOpened(t, clock);
      Closed(t, Abandoned(clock), clock);
    }
  }

  lemma RecoverTranscription(c: Case, clock: Time)
    requires CaseInv(c, clock) && OpenIsActive(c)
    ensures TranscriptionInv(RecoverCase(c, clock), clock)
  {
    var d := RecoverCase(c, clock);
    AbandonedTrack(TTrack(c), clock);
    assert TTrack(d) == TTrack(c).(attempts := CloseOpen(c.attempts, clock));
  }

  lemma RecoverDelivery(c: Case, clock: Time)
    requires CaseInv(c, clock) && OpenIsActive(c)
    ensures DeliveryInv(RecoverCase(c, clock), clock)
  {
    var d := RecoverCase(c, clock);
    if c.delivery.Some? {
      AbandonedTrack(DTrack(c), clock);
      assert DTrack(d) == DTrack(c).(attempts := CloseOpen(c.tries, clock));
    }
  }

  lemma RecoverInv(c: Case, clock: Time)
    requires CaseInv(c, clock) && OpenIsActive(c)
    ensures CaseInv(RecoverCase(c, clock), clock)
    ensures !HasOpen(RecoverCase(c, clock).attempts) && !HasOpen(RecoverCase(c, clock).tries)
  {
    RecoveredCase(c, clock);
    RecoverTranscription(c, clock);
    RecoverDelivery(c, clock);
  }
}
