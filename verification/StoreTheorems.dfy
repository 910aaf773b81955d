/**
 Whole-run consequences of the store's laws, for any sequence of transactions:
 any number of workers of each kind, Operators and restarts, however stale the
 arguments they pass.
 */
module StoreTheorems {
  import opened Domain
  import opened Ledger
  import opened StoreLaws
  import opened Timestamp
  import opened Wrappers

  ghost function After(w: World, ts: seq<Txn>): World
    decreases |ts|
  {
    if ts == [] then w else After(Exec(w, ts[0]).world, ts[1..])
  }

  /** Attempt discipline and agreement between the tables survive every run. */
  lemma {:induction false} RunsStaySound(w: World, ts: seq<Txn>)
    requires Sound(w)
    ensures Sound(After(w, ts)) && w.Keys <= After(w, ts).Keys
    decreases |ts|
  {
    if ts != [] {
      ExecKeeps(w, ts[0]);
      RunsStaySound(Exec(w, ts[0]).world, ts[1..]);
    }
  }

  lemma EveryRunIsSound(ts: seq<Txn>, r: Id)
    requires r in After(map[], ts)
    ensures var c := After(map[], ts)[r];
            && Disciplined(c.attempts) && Disciplined(c.tries) && Agreement(c)
  {
    RunsStaySound(map[], ts);
    assert SoundCase(After(map[], ts)[r]);
  }

  // -- What is never undone ---------------------------------------------------------

  /** The part of `Evolves` that composes over any number of transactions. */
  ghost predicate Kept(c: Case, d: Case) {
    && SameKey(d.rec, c.rec.clientId, c.rec.clientRecordingId)
    && d.rec.audioDurationMs == c.rec.audioDurationMs && d.rec.receivedAt == c.rec.receivedAt
    && (c.transcript.Some? ==> d.transcript == c.transcript)
    && (c.rec.selectedSink.Some? ==> d.rec.selectedSink == c.rec.selectedSink)
    && (c.delivery.Some? ==> d.delivery.Some? && SameDelivery(c.delivery.value, d.delivery.value))
    && RowsKept(c.attempts, d.attempts)
    && RowsKept(c.tries, d.tries)
    && c.audit <= d.audit
    && (c.rec.status == Delivered ==> d.rec.status == Delivered)
    && (c.delivery.Some? ==> PastRouting(d.rec.status))
  }

  lemma KeptCase(c: Case, d: Case, recovery: bool)
    requires SoundCase(c) && SoundCase(d) && Evolves(c, d, recovery)
    ensures Kept(c, d)
  {
  }

  lemma KeptByOne(w: World, t: Txn, r: Id)
    requires Sound(w) && r in w
    ensures r in Exec(w, t).world && Kept(w[r], Exec(w, t).world[r])
  {
    ExecKeeps(w, t);
    KeptCase(w[r], Exec(w, t).world[r], t.Recovery?);
  }

  lemma KeptTransitive(a: Case, b: Case, c: Case)
    requires Kept(a, b) && Kept(b, c)
    ensures Kept(a, c)
  {
  }

  /**
   Over any run a Recording's key, duration and time of receipt, a Transcript, a
   chosen Sink and a Delivery never change, attempt rows and audit events are only
   added, `delivered` is absorbing, and a Recording with a Delivery never returns to
   the Backlog.
   */
  lemma {:induction false} NothingIsUndone(w: World, ts: seq<Txn>, r: Id)
    requires Sound(w) && r in w
    ensures r in After(w, ts) && Kept(w[r], After(w, ts)[r])
    decreases |ts|
  {
    if ts == [] {
      assert SoundCase(w[r]);
    } else {
      var v := Exec(w, ts[0]).world;
      ExecKeeps(w, ts[0]);
      KeptByOne(w, ts[0], r);
      NothingIsUndone(v, ts[1..], r);
      KeptTransitive(w[r], v[r], After(w, ts)[r]);
    }
  }

  // -- The status graph -----------------------------------------------------------------

  /** The documented graph, edge by edge. */
  const EDGES: set<(RecordingStatus, RecordingStatus)> := {
    (Received, Transcribing),
    (Transcribing, Routing),
    (Transcribing, TranscriptionFailed),
    (TranscriptionFailed, Transcribing),
    (Routing, Backlogged),
    (Routing, Delivering),
    (Backlogged, Delivering),
    (Delivering, Delivered),
    (Delivering, DeliveryFailed),
    (DeliveryFailed, Delivering)
  }

  /** The guard of every move lets through exactly these edges. */
  lemma GuardIsTheGraph(a: RecordingStatus, b: RecordingStatus)
    ensures CanTransitionTo(a, b) <==> (a, b) in EDGES
  {
  }

  /** One transaction moves a Recording along the documented graph, or back to `received` in recovery. */
  lemma StatusPath(w: World, t: Txn, r: Id)
    requires Sound(w) && r in w
    ensures r in Exec(w, t).world
    ensures var (a, b) := (w[r].rec.status, Exec(w, t).world[r].rec.status);
            || a == b
            || (a, b) in EDGES
            || (t.Recovery? && a == Transcribing && b == Received && w[r].attempts == [])
  {
    ExecKeeps(w, t);
    assert Evolves(w[r], Exec(w, t).world[r], t.Recovery?);
    GuardIsTheGraph(w[r].rec.status, Exec(w, t).world[r].rec.status);
  }

  ghost function CurrentStatus(w: World, r: Id): Option<RecordingStatus> {
    if r in w then Some(w[r].rec.status) else None
  }

  /** The statuses Recording `r` goes through in a run, one entry before and after each transaction. */
  ghost function History(w: World, ts: seq<Txn>, r: Id): (h: seq<Option<RecordingStatus>>)
    ensures |h| == |ts| + 1
    decreases |ts|
  {
    [CurrentStatus(w, r)] + (if ts == [] then [] else History(Exec(w, ts[0]).world, ts[1..], r))
  }

  ghost predicate Edge(a: Option<RecordingStatus>, b: Option<RecordingStatus>, t: Txn) {
    || a == b
    || (a == None && b == Some(Received) && t.Upload?)
    || (a.Some? && b.Some? && (a.value, b.value) in EDGES)
    || (a == Some(Transcribing) && b == Some(Received) && t.Recovery?)
  }

  ghost predicate Along(h: seq<Option<RecordingStatus>>, ts: seq<Txn>, i: nat)
    requires |h| == |ts| + 1 && i < |ts|
  {
    Edge(h[i], h[i + 1], ts[i])
  }

  ghost predicate IsPath(h: seq<Option<RecordingStatus>>, ts: seq<Txn>)
    requires |h| == |ts| + 1
  {
    forall i | 0 <= i < |ts| :: Along(h, ts, i)
  }

  /** A run projected on one Recording is a path of the status graph, plus only recovery's edge back to `received`. */
  lemma {:induction false} EveryHistoryIsAPath(w: World, ts: seq<Txn>, r: Id)
    requires Sound(w)
    ensures IsPath(History(w, ts, r), ts)
    decreases |ts|
  {
    if ts != [] {
      var v := Exec(w, ts[0]).world;
      ExecKeeps(w, ts[0]);
      if r in w {
        StatusPath(w, ts[0], r);
      } else if r in v {
        NewCaseIsFresh(w, ts[0], r);
      }
      assert Edge(CurrentStatus(w, r), CurrentStatus(v, r), ts[0]);
      EveryHistoryIsAPath(v, ts[1..], r);
      var h, rest := History(w, ts, r), History(v, ts[1..], r);
      assert h == [CurrentStatus(w, r)] + rest && rest[0] == CurrentStatus(v, r);
      assert Along(h, ts, 0);
      forall i | 0 < i < |ts| ensures Along(h, ts, i) {
        assert Along(rest, ts[1..], i - 1);
      }
    }
  }

  // -- Routing races ----------------------------------------------------------------------

  /**
   A decision takes effect exactly when the Recording is still `routing`; a loser
   changes nothing and sees no error.
   */
  lemma RoutingRace(w: World, r: Id, now: Time, v: Verdict)
    requires Sound(w) && r in w
    requires v.ToSink? ==> !DeliveryIdUsed(w, v.id)
    ensures var o := DecideRoute(w, r, now, v);
            && !Fatal(o.reply)
            && (o.reply.Done? <==> w[r].rec.status == Routing)
            && (w[r].rec.status != Routing ==> o.world == w)
            && (w[r].rec.status == Routing ==>
                  o.world.Keys == w.Keys
                  && (forall q | q in w && q != r :: o.world[q] == w[q])
                  && o.world[r].rec.status == (if v.ToSink? then Delivering else Backlogged)
                  && (v.ToSink? ==>
                        && OwnsDelivery(o.world[r], v.id)
                        && o.world[r].delivery.value.selectedAt == now
                        && o.world[r].rec.selectedSink == Some(v.sink)))
  {
    assert SoundCase(w[r]);
  }

  predicate Routed(status: RecordingStatus) {
    PastTranscription(status) && status != Routing
  }

  ghost predicate IsRouted(w: World, r: Id) {
    r in w && Routed(w[r].rec.status)
  }

  ghost predicate IsDispatched(w: World, r: Id) {
    r in w && w[r].delivery.Some?
  }

  ghost predicate InBacklog(w: World, r: Id) {
    r in w && w[r].rec.status == Backlogged
  }

  /** How often a run takes Recording `r` out of `routing`. */
  ghost function RoutingExits(w: World, ts: seq<Txn>, r: Id): nat
    decreases |ts|
  {
    if ts == [] then 0
    else
      var v := Exec(w, ts[0]).world;
      (if !IsRouted(w, r) && IsRouted(v, r) then 1 else 0) + RoutingExits(v, ts[1..], r)
  }

  ghost function DeliveriesCreated(w: World, ts: seq<Txn>, r: Id): nat
    decreases |ts|
  {
    if ts == [] then 0
    else
      var v := Exec(w, ts[0]).world;
      (if !IsDispatched(w, r) && IsDispatched(v, r) then 1 else 0) + DeliveriesCreated(v, ts[1..], r)
  }

  ghost function BacklogExits(w: World, ts: seq<Txn>, r: Id): nat
    decreases |ts|
  {
    if ts == [] then 0
    else
      var v := Exec(w, ts[0]).world;
      (if InBacklog(w, r) && !InBacklog(v, r) then 1 else 0) + BacklogExits(v, ts[1..], r)
  }

  lemma RoutedStays(w: World, t: Txn, r: Id)
    requires Sound(w)
    ensures IsRouted(w, r) ==> IsRouted(Exec(w, t).world, r)
    ensures IsDispatched(w, r) ==> IsDispatched(Exec(w, t).world, r)
  {
    if r in w {
      StatusPath(w, t, r);
      KeptByOne(w, t, r);
    }
  }

  /** Over any run exactly one routing decision takes effect, and at most one Delivery is ever created. */
  lemma {:induction false} OneDecision(w: World, ts: seq<Txn>, r: Id)
    requires Sound(w)
    ensures RoutingExits(w, ts, r) == (if !IsRouted(w, r) && IsRouted(After(w, ts), r) then 1 else 0)
    ensures DeliveriesCreated(w, ts, r) == (if !IsDispatched(w, r) && IsDispatched(After(w, ts), r) then 1 else 0)
    ensures IsRouted(w, r) ==> IsRouted(After(w, ts), r)
    ensures IsDispatched(w, r) ==> IsDispatched(After(w, ts), r)
    decreases |ts|
  {
    if ts != [] {
      ExecKeeps(w, ts[0]);
      RoutedStays(w, ts[0], r);
      OneDecision(Exec(w, ts[0]).world, ts[1..], r);
    }
  }

  // -- Where results come from --------------------------------------------------------------

  ghost predicate IsTranscribed(w: World, r: Id) {
    r in w && w[r].transcript.Some?
  }

  /** `t` is the success that brought this Transcript. */
  ghost predicate Brought(t: Txn, r: Id, transcript: Transcript) {
    t.SucceedAttempt? && t.r == r && transcript == Transcript(t.text, t.now)
  }

  /** `t` is the decision, automatic or manual, that made this Delivery. */
  ghost predicate Chose(t: Txn, r: Id, d: Delivery) {
    || (t.Route? && t.r == r && d.id == t.d.id && d.sink == t.d.sink && d.selectedAt == t.d.selectedAt)
    || (t.RouteByHand? && t.r == r && d.id == t.id && d.sink == t.sink && d.selectedAt == t.at)
  }

  lemma FirstTranscript(w: World, t: Txn, r: Id)
    requires !IsTranscribed(w, r) && IsTranscribed(Exec(w, t).world, r)
    ensures Brought(t, r, Exec(w, t).world[r].transcript.value)
  {
    if t.SucceedAttempt? {
      assert t.r == r;
    }
  }

  lemma FirstDelivery(w: World, t: Txn, r: Id)
    requires !IsDispatched(w, r) && IsDispatched(Exec(w, t).world, r)
    ensures Chose(t, r, Exec(w, t).world[r].delivery.value)
  {
    if t.Route? || t.RouteByHand? {
      assert t.r == r;
    }
  }

  /** `t` is the upload that made this Recording. */
  ghost predicate Made(t: Txn, r: Id, rec: Recording) {
    && t.Upload? && t.id == r
    && rec.clientId == t.new_.clientId && rec.clientRecordingId == t.new_.clientRecordingId
    && rec.audioDurationMs == t.new_.audioDurationMs && rec.receivedAt == t.new_.receivedAt
  }

  /** A new Recording is `received`, with the upload's fields and nothing else. */
  lemma FirstRow(w: World, t: Txn, r: Id)
    requires r !in w && r in Exec(w, t).world
    ensures var c := Exec(w, t).world[r];
            && Made(t, r, c.rec) && c.rec.status == Received
            && c.rec.latestError.None? && c.rec.selectedSink.None? && c.rec.retryWindowStartedAt.None?
            && c.transcript.None? && c.delivery.None?
            && c.attempts == [] && c.tries == [] && c.audit == []
  {
    NewCaseIsFresh(w, t, r);
  }

  /** A Recording has the fields some upload of the run gave it. */
  lemma {:induction false} RecordingHasASource(w: World, ts: seq<Txn>, r: Id)
    requires Sound(w) && r !in w && r in After(w, ts)
    ensures exists i | 0 <= i < |ts| :: Made(ts[i], r, After(w, ts)[r].rec)
    decreases |ts|
  {
    var v := Exec(w, ts[0]).world;
    ExecKeeps(w, ts[0]);
    if r in v {
      FirstRow(w, ts[0], r);
      NothingIsUndone(v, ts[1..], r);
      assert Made(ts[0], r, After(w, ts)[r].rec);
    } else {
      RecordingHasASource(v, ts[1..], r);
      var i :| 0 <= i < |ts[1..]| && Made(ts[1..][i], r, After(w, ts)[r].rec);
      assert Made(ts[i + 1], r, After(w, ts)[r].rec);
    }
  }

  /** A Transcript is what some attempt of its Recording succeeded with. */
  lemma {:induction false} TranscriptHasASource(w: World, ts: seq<Txn>, r: Id)
    requires Sound(w) && !IsTranscribed(w, r) && IsTranscribed(After(w, ts), r)
    ensures exists i | 0 <= i < |ts| :: Brought(ts[i], r, After(w, ts)[r].transcript.value)
    decreases |ts|
  {
    var v := Exec(w, ts[0]).world;
    ExecKeeps(w, ts[0]);
    if IsTranscribed(v, r) {
      FirstTranscript(w, ts[0], r);
      NothingIsUndone(v, ts[1..], r);
      assert Brought(ts[0], r, After(w, ts)[r].transcript.value);
    } else {
      TranscriptHasASource(v, ts[1..], r);
      var i :| 0 <= i < |ts[1..]| && Brought(ts[1..][i], r, After(w, ts)[r].transcript.value);
      assert Brought(ts[i + 1], r, After(w, ts)[r].transcript.value);
    }
  }

  /** A Delivery is the one some decision about its Recording made, to the Sink it named. */
  lemma {:induction false} DeliveryHasASource(w: World, ts: seq<Txn>, r: Id)
    requires Sound(w) && !IsDispatched(w, r) && IsDispatched(After(w, ts), r)
    ensures exists i | 0 <= i < |ts| :: Chose(ts[i], r, After(w, ts)[r].delivery.value)
    decreases |ts|
  {
    var v := Exec(w, ts[0]).world;
    ExecKeeps(w, ts[0]);
    if IsDispatched(v, r) {
      FirstDelivery(w, ts[0], r);
      NothingIsUndone(v, ts[1..], r);
      assert Chose(ts[0], r, After(w, ts)[r].delivery.value);
    } else {
      DeliveryHasASource(v, ts[1..], r);
      var i :| 0 <= i < |ts[1..]| && Chose(ts[1..][i], r, After(w, ts)[r].delivery.value);
      assert Chose(ts[i + 1], r, After(w, ts)[r].delivery.value);
    }
  }

  // -- Manual Routing is counted ----------------------------------------------------------

  function CountManualRouting(audit: seq<AuditEvent>): nat {
    if audit == [] then 0
    else CountManualRouting(audit[..|audit| - 1]) + (if audit[|audit| - 1].kind.RoutedManually? then 1 else 0)
  }

  ghost function ManualRoutings(w: World, r: Id): nat {
    if r in w then CountManualRouting(w[r].audit) else 0
  }

  lemma AuditCase(c: Case, d: Case)
    requires AuditStep(c, d)
    ensures CountManualRouting(d.audit) == CountManualRouting(c.audit)
              + (if c.rec.status == Backlogged && d.rec.status != Backlogged then 1 else 0)
  {
    if d.audit != c.audit {
      assert d.audit[..|d.audit| - 1] == c.audit;
    }
  }

  lemma ManualRoutingStep(w: World, t: Txn, r: Id)
    requires Sound(w)
    ensures ManualRoutings(Exec(w, t).world, r)
            == ManualRoutings(w, r) + (if InBacklog(w, r) && !InBacklog(Exec(w, t).world, r) then 1 else 0)
  {
    var v := Exec(w, t).world;
    ExecKeeps(w, t);
    if r in w {
      assert Evolves(w[r], v[r], t.Recovery?);
      AuditCase(w[r], v[r]);
    } else if r in v {
      NewCaseIsFresh(w, t, r);
    }
  }

  lemma NewCaseIsFresh(w: World, t: Txn, r: Id)
    requires r !in w && r in Exec(w, t).world
    ensures t.Upload? && Exec(w, t).world[r] == FreshCase(t.new_)
  {
  }

  /** Over any run the `manual_routing` events of a Recording number its exits from the Backlog. */
  lemma {:induction false} ManualRoutingIsCounted(w: World, ts: seq<Txn>, r: Id)
    requires Sound(w)
    ensures ManualRoutings(After(w, ts), r) == ManualRoutings(w, r) + BacklogExits(w, ts, r)
    decreases |ts|
  {
    if ts != [] {
      ExecKeeps(w, ts[0]);
      ManualRoutingStep(w, ts[0], r);
      ManualRoutingIsCounted(Exec(w, ts[0]).world, ts[1..], r);
    }
  }

  lemma LeavesBacklogStep(w: World, t: Txn, r: Id)
    requires Sound(w)
    ensures InBacklog(w, r) && !InBacklog(Exec(w, t).world, r) ==> IsDispatched(Exec(w, t).world, r)
    ensures IsDispatched(w, r) ==> !InBacklog(w, r) && IsDispatched(Exec(w, t).world, r)
  {
    ExecKeeps(w, t);
    if r in w {
      var v := Exec(w, t).world;
      assert SoundCase(w[r]) && SoundCase(v[r]) && Evolves(w[r], v[r], t.Recovery?);
    }
  }

  lemma {:induction false} LeavesBacklogOnce(w: World, ts: seq<Txn>, r: Id)
    requires Sound(w)
    ensures BacklogExits(w, ts, r) <= 1
    ensures IsDispatched(w, r) ==> BacklogExits(w, ts, r) == 0
    decreases |ts|
  {
    if ts != [] {
      var v := Exec(w, ts[0]).world;
      ExecKeeps(w, ts[0]);
      LeavesBacklogStep(w, ts[0], r);
      LeavesBacklogOnce(v, ts[1..], r);
    }
  }

  lemma AtMostOneManualRouting(ts: seq<Txn>, r: Id)
    ensures ManualRoutings(After(map[], ts), r) == BacklogExits(map[], ts, r) <= 1
  {
    ManualRoutingIsCounted(map[], ts, r);
    LeavesBacklogOnce(map[], ts, r);
  }

  // -- Recovery --------------------------------------------------------------------------

  /** The rows that differ between two worlds with the same Recordings. */
  ghost function ChangedAttempts(w: World, v: World): set<(Id, nat)> {
    set r, i: nat | r in w && r in v && i < |w[r].attempts| && i < |v[r].attempts|
                    && w[r].attempts[i] != v[r].attempts[i] :: (r, i)
  }

  ghost function ChangedTries(w: World, v: World): set<(Id, nat)> {
    set r, i: nat | r in w && r in v && i < |w[r].tries| && i < |v[r].tries|
                    && w[r].tries[i] != v[r].tries[i] :: (r, i)
  }

  ghost function ChangedStatus(w: World, v: World): set<Id> {
    set r | r in w && r in v && w[r].rec.status != v[r].rec.status
  }

  /** Rows that were unfinished are abandoned at `now`; the others are as they were. */
  ghost predicate ClosedAt(before: seq<Attempt>, after: seq<Attempt>, now: Time) {
    && |after| == |before|
    && forall i | 0 <= i < |before| ::
         after[i] == if before[i].state.InProgress?
                     then Attempt(before[i].id, before[i].number, before[i].startedAt, Abandoned(now)) else before[i]
  }

  /** Nothing of a Recording changes in recovery but unfinished attempts, a bare claim and the error text. */
  lemma RecoveryIsGentle(w: World, now: Time, r: Id)
    requires r in w
    ensures var (c, d) := (w[r], Recover(w, now)[r]);
            && d == c.(rec := d.rec, attempts := d.attempts, tries := d.tries)
            && ClosedAt(c.attempts, d.attempts, now) && ClosedAt(c.tries, d.tries, now)
            && d.rec == c.rec.(status := d.rec.status, latestError := d.rec.latestError)
            && d.rec.status == (if c.rec.status == Transcribing && c.attempts == [] then Received else c.rec.status)
            && d.rec.latestError == (if HasOpen(c.attempts) || (c.delivery.Some? && HasOpen(c.tries))
                                     then Some("attempt abandoned when the service stopped") else c.rec.latestError)
  {
  }

  /** Recovery closes every unfinished attempt and undoes every bare claim. */
  lemma RecoveryIsComplete(w: World, now: Time)
    ensures var v := Recover(w, now);
            && v.Keys == w.Keys
            && OpenAttempts(v) == {} && OpenTries(v) == {} && ClaimedOnly(v) == {}
            && (forall r | r in v && v[r].rec.status == Transcribing :: v[r].attempts != [])
            && ReportOf(v) == RecoveryReport(0, 0, 0)
  {
    var v := Recover(w, now);
    forall r | r in v ensures !HasOpen(v[r].attempts) && !HasOpen(v[r].tries) {}
    assert OpenAttempts(v) == {};
    assert OpenTries(v) == {};
    assert ClaimedOnly(v) == {};
  }

  /** The report counts exactly the rows that changed. */
  lemma ReportIsExact(w: World, now: Time)
    ensures var v := Recover(w, now);
            && OpenAttempts(w) == ChangedAttempts(w, v)
            && OpenTries(w) == ChangedTries(w, v)
            && ClaimedOnly(w) == ChangedStatus(w, v)
            && ReportOf(w) == RecoveryReport(|ChangedAttempts(w, v)|, |ChangedStatus(w, v)|, |ChangedTries(w, v)|)
  {
  }

  /** A second recovery changes nothing. */
  lemma RecoveryIsIdempotent(w: World, now: Time, later: Time)
    ensures Recover(Recover(w, now), later) == Recover(w, now)
  {
    var v := Recover(w, now);
    forall r | r in v ensures RecoverCase(v[r], later) == v[r] {
      assert CloseOpen(v[r].attempts, later) == v[r].attempts;
      assert CloseOpen(v[r].tries, later) == v[r].tries;
    }
  }
}
