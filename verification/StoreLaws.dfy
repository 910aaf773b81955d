/**
 What the store keeps whoever calls it.

 Every law here holds of any sequence of transactions with any arguments, so it
 holds of any number of workers of each kind acting on stale information.
 */
module StoreLaws {
  import opened Domain
  import opened Ledger
  import opened Timestamp
  import opened Wrappers

  // -- One state -------------------------------------------------------------------

  /** Attempts are numbered 1..n without gaps and only the highest may be unfinished. */
  ghost predicate Disciplined(s: seq<Attempt>) {
    && (forall i | 0 <= i < |s| :: s[i].number == i + 1)
    && (forall i | 0 <= i < |s| - 1 :: !s[i].Open())
  }

  predicate PastTranscription(status: RecordingStatus) {
    status in {Routing, Backlogged, Delivering, Delivered, DeliveryFailed}
  }

  predicate PastRouting(status: RecordingStatus) {
    status in {Delivering, Delivered, DeliveryFailed}
  }

  function StatusOf(status: DeliveryStatus): RecordingStatus {
    match status
    case InDelivery => Delivering
    case Complete => Delivered
    case Failed => DeliveryFailed
  }

  /** The tables agree about one Recording. */
  ghost predicate Agreement(c: Case) {
    && (c.transcript.Some? <==> PastTranscription(c.rec.status))
    && (c.delivery.Some? <==> PastRouting(c.rec.status))
    && (c.delivery.Some? ==> c.rec.status == StatusOf(c.delivery.value.status)
                             && c.rec.selectedSink == Some(c.delivery.value.sink))
    && (c.delivery.None? ==> c.rec.selectedSink.None? && c.tries == [])
  }

  ghost function Ids(s: seq<Attempt>): set<Id> {
    set i | 0 <= i < |s| :: s[i].id
  }

  ghost predicate Unique(s: seq<Attempt>) {
    forall i, j | 0 <= i < j < |s| :: s[i].id != s[j].id
  }

  ghost predicate SoundCase(c: Case) {
    && Disciplined(c.attempts) && Unique(c.attempts)
    && Disciplined(c.tries) && Unique(c.tries)
    && Agreement(c)
  }

  /** Two Recordings share no attempt, Delivery or idempotency key. */
  ghost predicate Separate(c: Case, d: Case) {
    && Ids(c.attempts) !! Ids(d.attempts)
    && Ids(c.tries) !! Ids(d.tries)
    && (c.delivery.Some? && d.delivery.Some? ==> c.delivery.value.id != d.delivery.value.id)
    && !SameKey(c.rec, d.rec.clientId, d.rec.clientRecordingId)
  }

  ghost predicate AllSound(w: World) {
    forall r {:trigger SoundCase(w[r])} | r in w :: SoundCase(w[r])
  }

  ghost predicate AllSeparate(w: World) {
    forall p, q {:trigger Separate(w[p], w[q])} | p in w && q in w && p != q :: Separate(w[p], w[q])
  }

  ghost predicate Sound(w: World) {
    AllSound(w) && AllSeparate(w)
  }

  // -- Two states ------------------------------------------------------------------

  /** Rows are only added; the identity, number and start of a row never change. */
  ghost predicate RowsKept(s: seq<Attempt>, t: seq<Attempt>) {
    |s| <= |t| && forall i | 0 <= i < |s| ::
      t[i].id == s[i].id && t[i].number == s[i].number && t[i].startedAt == s[i].startedAt
      && (!s[i].Open() ==> !t[i].Open())
  }

  /** The documented status graph, plus recovery's one edge back for a claim without an attempt. */
  ghost predicate StatusStep(c: Case, d: Case, recovery: bool) {
    || c.rec.status == d.rec.status
    || CanTransitionTo(c.rec.status, d.rec.status)
    || (recovery && c.rec.status == Transcribing && d.rec.status == Received && c.attempts == [])
  }

  /** At most one event is logged, and Manual Routing is logged exactly on the way out of the Backlog. */
  ghost predicate AuditStep(c: Case, d: Case) {
    var exit := c.rec.status == Backlogged && d.rec.status != Backlogged;
    || (d.audit == c.audit && !exit)
    || (|d.audit| == |c.audit| + 1 && c.audit <= d.audit
        && (d.audit[|c.audit|].kind.RoutedManually? <==> exit))
  }

  ghost predicate SameDelivery(a: Delivery, b: Delivery) {
    b.id == a.id && b.sink == a.sink && b.selectedAt == a.selectedAt
  }

  ghost predicate Evolves(c: Case, d: Case, recovery: bool := false) {
    && SameKey(d.rec, c.rec.clientId, c.rec.clientRecordingId)
    && d.rec.audioDurationMs == c.rec.audioDurationMs
    && d.rec.receivedAt == c.rec.receivedAt
    && StatusStep(c, d, recovery)
    && (c.transcript.Some? ==> d.transcript == c.transcript)
    && (c.rec.selectedSink.Some? ==> d.rec.selectedSink == c.rec.selectedSink)
    && (c.delivery.Some? ==> d.delivery.Some? && SameDelivery(c.delivery.value, d.delivery.value))
    && RowsKept(c.attempts, d.attempts)
    && RowsKept(c.tries, d.tries)
    && AuditStep(c, d)
  }

  ghost predicate WorldEvolves(w: World, v: World, recovery: bool := false) {
    forall r | r in w :: r in v && Evolves(w[r], v[r], recovery)
  }

  // -- Preservation ------------------------------------------------------------------

  ghost predicate SameIdentity(c: Case, d: Case) {
    && Ids(d.attempts) == Ids(c.attempts)
    && Ids(d.tries) == Ids(c.tries)
    && (d.delivery.Some? ==> c.delivery.Some? && d.delivery.value.id == c.delivery.value.id)
    && SameKey(d.rec, c.rec.clientId, c.rec.clientRecordingId)
  }

  /** A change of one case alone that keeps every law. */
  ghost predicate Inherits(c: Case, d: Case, recovery: bool := false) {
    SoundCase(d) && Evolves(c, d, recovery) && SameIdentity(c, d)
  }

  /** Change one case so that it stays sound and apart from the others. */
  lemma Replace(w: World, r: Id, d: Case)
    requires Sound(w) && r in w
    requires SoundCase(d) && Evolves(w[r], d)
    requires forall q | q in w && q != r :: Separate(d, w[q])
    ensures Sound(w[r := d]) && WorldEvolves(w, w[r := d])
  {
    forall q | q in w ensures Evolves(w[q], w[r := d][q]) {
      Reflexive(w[q]);
    }
    forall q | q in w && q != r ensures Separate(w[q], d) {
      assert Separate(d, w[q]);
    }
  }

  lemma ReplaceSame(w: World, r: Id, d: Case)
    requires Sound(w) && r in w
    requires Inherits(w[r], d)
    ensures Sound(w[r := d]) && WorldEvolves(w, w[r := d])
  {
    forall q | q in w && q != r ensures Separate(d, w[q]) {
      assert Separate(w[r], w[q]);
    }
    Replace(w, r, d);
  }

  lemma Reflexive(c: Case)
    ensures Evolves(c, c)
  {
  }

  /** Change every case, keeping its identity. */
  lemma ReplaceAll(w: World, v: World, recovery: bool := false)
    requires Sound(w) && v.Keys == w.Keys
    requires forall r | r in w :: Inherits(w[r], v[r], recovery)
    ensures Sound(v) && WorldEvolves(w, v, recovery)
  {
    forall p, q | p in v && q in v && p != q ensures Separate(v[p], v[q]) {
      assert Separate(w[p], w[q]);
      assert Inherits(w[p], v[p], recovery) && Inherits(w[q], v[q], recovery);
    }
  }

  lemma NextNumber(s: seq<Attempt>)
    requires Disciplined(s)
    ensures MaxNumber(s) == |s|
  {
    if s != [] {
      assert s[|s| - 1].number == |s|;
    }
  }

  lemma Appended(s: seq<Attempt>, a: Attempt)
    requires Disciplined(s) && Unique(s) && !HasOpen(s) && !HasId(s, a.id)
    requires a.number == MaxNumber(s) + 1
    ensures Disciplined(s + [a]) && Unique(s + [a]) && RowsKept(s, s + [a])
    ensures Ids(s + [a]) == Ids(s) + {a.id}
  {
    NextNumber(s);
    var t := s + [a];
    assert forall i | 0 <= i < |s| :: t[i] == s[i];
    assert t[|s|] == a;
    forall x ensures x in Ids(t) <==> x in Ids(s) + {a.id} {
      if x in Ids(s) { var i :| 0 <= i < |s| && s[i].id == x; assert t[i].id == x; }
    }
  }

  lemma Updated(s: seq<Attempt>, t: seq<Attempt>)
    requires Disciplined(s) && Unique(s) && |t| == |s|
    requires forall i | 0 <= i < |s| :: t[i] == s[i].(state := t[i].state) && (t[i].Open() ==> s[i].Open())
    ensures Disciplined(t) && Unique(t) && RowsKept(s, t) && Ids(t) == Ids(s)
  {
    assert forall i | 0 <= i < |s| :: t[i].id == s[i].id;
    forall x ensures x in Ids(t) <==> x in Ids(s) {
      if x in Ids(s) { var i :| 0 <= i < |s| && s[i].id == x; assert t[i].id == x; }
      if x in Ids(t) { var i :| 0 <= i < |s| && t[i].id == x; assert s[i].id == x; }
    }
  }

  lemma NewAttempt(w: World, r: Id, a: Attempt)
    requires Sound(w) && r in w && !HasOpen(w[r].attempts) && !AttemptIdUsed(w, a.id)
    requires a.number == MaxNumber(w[r].attempts) + 1
    ensures var v := w[r := w[r].(attempts := w[r].attempts + [a])]; Sound(v) && WorldEvolves(w, v)
  {
    var d := w[r].(attempts := w[r].attempts + [a]);
    assert SoundCase(w[r]) && !HasId(w[r].attempts, a.id);
    Appended(w[r].attempts, a);
    forall q | q in w && q != r ensures Separate(d, w[q]) {
      assert Separate(w[r], w[q]) && !HasId(w[q].attempts, a.id);
    }
    Replace(w, r, d);
  }

  lemma NewTry(w: World, r: Id, a: Attempt)
    requires Sound(w) && r in w && !HasOpen(w[r].tries) && !TryIdUsed(w, a.id)
    requires w[r].delivery.Some?
    requires a.number == MaxNumber(w[r].tries) + 1
    ensures var v := w[r := w[r].(tries := w[r].tries + [a])]; Sound(v) && WorldEvolves(w, v)
  {
    var d := w[r].(tries := w[r].tries + [a]);
    assert SoundCase(w[r]) && !HasId(w[r].tries, a.id);
    Appended(w[r].tries, a);
    forall q | q in w && q != r ensures Separate(d, w[q]) {
      assert Separate(w[r], w[q]) && !HasId(w[q].tries, a.id);
    }
    Replace(w, r, d);
  }

  lemma MarkedAttempt(c: Case, id: Id, state: AttemptState)
    requires SoundCase(c) && !state.InProgress?
    ensures Inherits(c, c.(attempts := Mark(c.attempts, id, state)))
  {
    Updated(c.attempts, Mark(c.attempts, id, state));
  }

  lemma MarkedTry(c: Case, id: Id, state: AttemptState)
    requires SoundCase(c) && !state.InProgress?
    ensures Inherits(c, c.(tries := Mark(c.tries, id, state)))
  {
    Updated(c.tries, Mark(c.tries, id, state));
  }

  lemma RecoveredCase(c: Case, now: Time)
    requires SoundCase(c)
    ensures Inherits(c, RecoverCase(c, now), true)
  {
    Updated(c.attempts, CloseOpen(c.attempts, now));
    Updated(c.tries, CloseOpen(c.tries, now));
  }

  lemma FinishAttemptKeeps(w: World, id: Id, state: AttemptState)
    requires Sound(w) && !state.InProgress?
    ensures Sound(FinishAttempt(w, id, state)) && WorldEvolves(w, FinishAttempt(w, id, state))
  {
    forall r | r in w ensures Inherits(w[r], FinishAttempt(w, id, state)[r]) {
      MarkedAttempt(w[r], id, state);
    }
    ReplaceAll(w, FinishAttempt(w, id, state));
  }

  lemma FinishTryKeeps(w: World, id: Id, state: AttemptState)
    requires Sound(w) && !state.InProgress?
    ensures Sound(FinishTry(w, id, state)) && WorldEvolves(w, FinishTry(w, id, state))
  {
    forall r | r in w ensures Inherits(w[r], FinishTry(w, id, state)[r]) {
      MarkedTry(w[r], id, state);
    }
    ReplaceAll(w, FinishTry(w, id, state));
  }

  lemma RecoverKeeps(w: World, now: Time)
    requires Sound(w)
    ensures Sound(Recover(w, now)) && WorldEvolves(w, Recover(w, now), true)
  {
    forall r | r in w ensures Inherits(w[r], Recover(w, now)[r], true) {
      RecoveredCase(w[r], now);
    }
    ReplaceAll(w, Recover(w, now), true);
  }

  lemma EvolvesTransitive(a: World, b: World, c: World)
    requires WorldEvolves(a, b) && WorldEvolves(b, c)
    requires forall r | r in a && r in b :: a[r].rec.status == b[r].rec.status && a[r].audit == b[r].audit
    ensures WorldEvolves(a, c)
  {
    forall r | r in a ensures r in c && Evolves(a[r], c[r]) {
      assert r in b && Evolves(a[r], b[r]) && Evolves(b[r], c[r]);
    }
  }

  lemma Unchanged(w: World)
    ensures WorldEvolves(w, w)
  {
    forall q | q in w ensures Evolves(w[q], w[q]) { Reflexive(w[q]); }
  }

  lemma Insert(w: World, id: Id, d: Case)
    requires Sound(w) && id !in w && SoundCase(d)
    requires forall q | q in w :: Separate(d, w[q])
    ensures Sound(w[id := d]) && WorldEvolves(w, w[id := d])
  {
    Unchanged(w);
    forall q | q in w ensures Separate(w[q], d) { assert Separate(d, w[q]); }
  }

  lemma CreateKeeps(w: World, id: Id, n: NewRecording)
    requires Sound(w)
    ensures var v := CreateRecording(w, id, n).world; Sound(v) && WorldEvolves(w, v)
  {
    Unchanged(w);
    if CreateRecording(w, id, n).reply.Created? {
      var d := FreshCase(n);
      forall q | q in w ensures Separate(d, w[q]) {
        assert !HasKey(w, q, n);
      }
      Insert(w, id, d);
    }
  }

  lemma StartKeeps(w: World, id: Id, r: Id, now: Time)
    requires Sound(w)
    ensures var v := StartTranscription(w, id, r, now).world; Sound(v) && WorldEvolves(w, v)
    ensures var v := StartDelivery(w, id, r, now).world; Sound(v) && WorldEvolves(w, v)
  {
    forall q | q in w ensures Evolves(w[q], w[q]) { Reflexive(w[q]); }
    if StartTranscription(w, id, r, now).reply.Started? {
      NewAttempt(w, r, Attempt(id, MaxNumber(w[r].attempts) + 1, now, InProgress));
    }
    if StartDelivery(w, id, r, now).reply.Started? {
      NewTry(w, r, Attempt(id, MaxNumber(w[r].tries) + 1, now, InProgress));
    }
  }

  /** What a transaction may do to the case it is about. */
  ghost predicate Lawful(c: Case, d: Case) {
    && d.attempts == c.attempts && d.tries == c.tries
    && (d.delivery.Some? ==> c.delivery.Some? && d.delivery.value.id == c.delivery.value.id)
    && Agreement(d) && Evolves(c, d)
  }

  lemma CaseLaws(c: Case, at: Time, message: string, deadline: Time)
    requires SoundCase(c)
    ensures c.rec.status == Received ==> Lawful(c, Moved(c, Transcribing))
    ensures c.rec.status == Transcribing ==> Lawful(c, Transcribed(c, message, at))
    ensures c.rec.status == Transcribing ==> Lawful(c, Moved(Troubled(c, message), TranscriptionFailed))
    ensures c.rec.status == Routing ==> Lawful(c, Moved(c, Backlogged))
    ensures c.rec.status == TranscriptionFailed ==> Lawful(c, TranscriptionReopened(c, at))
    ensures Lawful(c, Troubled(c, message))
  {
    Reflexive(c);
  }

  lemma DeliveryCaseLaws(c: Case, at: Time, message: string, deadline: Time)
    requires SoundCase(c) && c.delivery.Some?
    ensures c.rec.status == Delivering ==> Lawful(c, Arrived(c, at))
    ensures c.rec.status == Delivering ==> Lawful(c, DeliveryGivenUp(c, at, message))
    ensures c.rec.status == DeliveryFailed ==> Lawful(c, DeliveryReopened(c, at, deadline))
    ensures Lawful(c, DeliveryTroubled(c, message))
  {
    Reflexive(c);
  }

  lemma ReplaceLawful(w: World, r: Id, d: Case)
    requires Sound(w) && r in w && Lawful(w[r], d)
    ensures Sound(w[r := d]) && WorldEvolves(w, w[r := d])
  {
    assert SoundCase(w[r]);
    ReplaceSame(w, r, d);
  }

  /** A finishing transaction: an attempt is marked, then one case changes. */
  lemma AttemptThen(w: World, id: Id, state: AttemptState, r: Id, d: Case)
    requires Sound(w) && !state.InProgress? && r in w && Lawful(FinishAttempt(w, id, state)[r], d)
    ensures var v := FinishAttempt(w, id, state)[r := d]; Sound(v) && WorldEvolves(w, v)
  {
    var m := FinishAttempt(w, id, state);
    FinishAttemptKeeps(w, id, state);
    ReplaceLawful(m, r, d);
    EvolvesTransitive(w, m, m[r := d]);
  }

  lemma TryThen(w: World, id: Id, state: AttemptState, r: Id, d: Case)
    requires Sound(w) && !state.InProgress? && r in w && Lawful(FinishTry(w, id, state)[r], d)
    ensures var v := FinishTry(w, id, state)[r := d]; Sound(v) && WorldEvolves(w, v)
  {
    var m := FinishTry(w, id, state);
    FinishTryKeeps(w, id, state);
    ReplaceLawful(m, r, d);
    EvolvesTransitive(w, m, m[r := d]);
  }

  lemma SucceedTranscriptionKeeps(w: World, id: Id, r: Id, at: Time, text: string)
    requires Sound(w)
    ensures var v := SucceedTranscription(w, id, r, at, text).world; Sound(v) && WorldEvolves(w, v)
  {
    Unchanged(w);
    if SucceedTranscription(w, id, r, at, text).reply.Done? {
      MarkedAttempt(w[r], id, Succeeded(at));
      var c := FinishAttempt(w, id, Succeeded(at))[r];
      CaseLaws(c, at, text, at);
      AttemptThen(w, id, Succeeded(at), r, Transcribed(c, text, at));
    }
  }

  lemma RetryTranscriptionKeeps(w: World, id: Id, r: Id, at: Time, message: string)
    requires Sound(w)
    ensures var v := RetryTranscription(w, id, r, at, message).world; Sound(v) && WorldEvolves(w, v)
  {
    FinishAttemptKeeps(w, id, RetryableFailure(at, message));
    if r in w {
      MarkedAttempt(w[r], id, RetryableFailure(at, message));
      var c := FinishAttempt(w, id, RetryableFailure(at, message))[r];
      CaseLaws(c, at, message, at);
      AttemptThen(w, id, RetryableFailure(at, message), r, Troubled(c, message));
    }
  }

  lemma FailTranscriptionKeeps(w: World, id: Id, r: Id, at: Time, message: string)
    requires Sound(w)
    ensures var v := FailTranscription(w, id, r, at, message).world; Sound(v) && WorldEvolves(w, v)
  {
    Unchanged(w);
    if FailTranscription(w, id, r, at, message).reply.Done? {
      MarkedAttempt(w[r], id, TerminalFailure(at, message));
      var c := FinishAttempt(w, id, TerminalFailure(at, message))[r];
      CaseLaws(c, at, message, at);
      AttemptThen(w, id, TerminalFailure(at, message), r, Moved(Troubled(c, message), TranscriptionFailed));
    }
  }

  lemma SucceedDeliveryKeeps(w: World, id: Id, r: Id, at: Time)
    requires Sound(w)
    ensures var v := SucceedDelivery(w, id, r, at).world; Sound(v) && WorldEvolves(w, v)
  {
    Unchanged(w);
    if SucceedDelivery(w, id, r, at).reply.Done? {
      MarkedTry(w[r], id, Succeeded(at));
      var c := FinishTry(w, id, Succeeded(at))[r];
      DeliveryCaseLaws(c, at, "", at);
      TryThen(w, id, Succeeded(at), r, Arrived(c, at));
    }
  }

  lemma RetryDeliveryKeeps(w: World, id: Id, r: Id, at: Time, message: string)
    requires Sound(w)
    ensures var v := RetryDelivery(w, id, r, at, message).world; Sound(v) && WorldEvolves(w, v)
  {
    Unchanged(w);
    if HasDelivery(w, r) {
      MarkedTry(w[r], id, RetryableFailure(at, message));
      var c := FinishTry(w, id, RetryableFailure(at, message))[r];
      DeliveryCaseLaws(c, at, message, at);
      TryThen(w, id, RetryableFailure(at, message), r, DeliveryTroubled(c, message));
    }
  }

  lemma FailDeliveryKeeps(w: World, id: Id, r: Id, at: Time, message: string)
    requires Sound(w)
    ensures var v := FailDelivery(w, id, r, at, message).world; Sound(v) && WorldEvolves(w, v)
  {
    Unchanged(w);
    if FailDelivery(w, id, r, at, message).reply.Done? {
      MarkedTry(w[r], id, TerminalFailure(at, message));
      var c := FinishTry(w, id, TerminalFailure(at, message))[r];
      DeliveryCaseLaws(c, at, message, at);
      TryThen(w, id, TerminalFailure(at, message), r, DeliveryGivenUp(c, at, message));
    }
  }

  /** A fresh Delivery, logged or not, for a Recording that awaits one. */
  lemma DispatchKeeps(w: World, r: Id, n: NewDelivery, d: Case)
    requires Sound(w) && r in w && CanTransitionTo(w[r].rec.status, Delivering)
    requires w[r].rec.status != DeliveryFailed && !DeliveryIdUsed(w, n.id)
    requires AuditStep(w[r], d) && d == Dispatched(w[r], n).(audit := d.audit)
    ensures Sound(w[r := d]) && WorldEvolves(w, w[r := d])
  {
    assert SoundCase(w[r]);
    Reflexive(w[r]);
    assert SoundCase(d) && Evolves(w[r], d);
    forall q | q in w && q != r ensures Separate(d, w[q]) {
      assert Separate(w[r], w[q]) && !OwnsDelivery(w[q], n.id);
    }
    Replace(w, r, d);
  }

  lemma RoutingKeeps(w: World, r: Id, n: NewDelivery)
    requires Sound(w)
    ensures var v := RouteToSink(w, r, n).world; Sound(v) && WorldEvolves(w, v)
    ensures var v := MarkBacklogged(w, r).world; Sound(v) && WorldEvolves(w, v)
  {
    Unchanged(w);
    if RouteToSink(w, r, n).reply.Done? {
      DispatchKeeps(w, r, n, Dispatched(w[r], n));
    }
    if MarkBacklogged(w, r).reply.Done? {
      CaseLaws(w[r], 0, "", 0);
      ReplaceLawful(w, r, Moved(w[r], Backlogged));
    }
  }

  lemma ManualRouteKeeps(w: World, r: Id, id: Id, sink: string, at: Time, deadline: Time)
    requires Sound(w)
    ensures var v := ManualRoute(w, r, id, sink, at, deadline).world; Sound(v) && WorldEvolves(w, v)
  {
    Unchanged(w);
    if ManualRoute(w, r, id, sink, at, deadline).reply.Done? {
      var n := NewDelivery(id, sink, at, Some(deadline));
      DispatchKeeps(w, r, n, Logged(Dispatched(w[r], n), at, RoutedManually(sink)));
    }
  }

  lemma ClaimKeeps(w: World, r: Id, at: Time, deadline: Time)
    requires Sound(w)
    ensures var v := ClaimReceived(w, r).world; Sound(v) && WorldEvolves(w, v)
    ensures var v := Ledger.ManualRetryTranscription(w, r, at).world; Sound(v) && WorldEvolves(w, v)
    ensures var v := Ledger.ManualRetryDelivery(w, r, at, deadline).world; Sound(v) && WorldEvolves(w, v)
  {
    Unchanged(w);
    if r in w {
      assert SoundCase(w[r]);
      CaseLaws(w[r], at, "", deadline);
      if w[r].rec.status == Received { ReplaceLawful(w, r, Moved(w[r], Transcribing)); }
      if w[r].rec.status == TranscriptionFailed { ReplaceLawful(w, r, TranscriptionReopened(w[r], at)); }
      if w[r].rec.status == DeliveryFailed {
        DeliveryCaseLaws(w[r], at, "", deadline);
        ReplaceLawful(w, r, DeliveryReopened(w[r], at, deadline));
      }
    }
  }

  /** Every transaction, with any arguments, keeps the laws of the store. */
  lemma ExecKeeps(w: World, t: Txn)
    requires Sound(w)
    ensures Sound(Exec(w, t).world) && WorldEvolves(w, Exec(w, t).world, t.Recovery?)
  {
    match t
    case Recovery(now) => RecoverKeeps(w, now);
    case Upload(id, n) => CreateKeeps(w, id, n);
    case Claim(r) => ClaimKeeps(w, r, 0, 0);
    case StartAttempt(id, r, now) => StartKeeps(w, id, r, now);
    case SucceedAttempt(id, r, now, text) => SucceedTranscriptionKeeps(w, id, r, now, text);
    case RetryAttempt(id, r, now, message) => RetryTranscriptionKeeps(w, id, r, now, message);
    case FailAttempt(id, r, now, message) => FailTranscriptionKeeps(w, id, r, now, message);
    case Backlog(r) => RoutingKeeps(w, r, NewDelivery(0, "", 0, None));
    case Route(r, d) => RoutingKeeps(w, r, d);
    case StartTry(id, r, now) => StartKeeps(w, id, r, now);
    case SucceedTry(id, r, now) => SucceedDeliveryKeeps(w, id, r, now);
    case RetryTry(id, r, now, message) => RetryDeliveryKeeps(w, id, r, now, message);
    case FailTry(id, r, now, message) => FailDeliveryKeeps(w, id, r, now, message);
    case RouteByHand(r, id, sink, at, deadline) => ManualRouteKeeps(w, r, id, sink, at, deadline);
    case RetryTranscriptionByHand(r, at) => ClaimKeeps(w, r, at, 0);
    case RetryDeliveryByHand(r, at, deadline) => ClaimKeeps(w, r, at, deadline);
  }
}
