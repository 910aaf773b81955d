/** No loop ever blocks: in every state it has a next step, and that step takes work whenever there is any. */
module Progress {
  import opened Domain
  import opened Ledger
  import opened Pipeline
  import opened PipelineInv
  import opened PipelineTheorems
  import opened Queues
  import opened Timestamp

  lemma {:induction false} OldestExists(ids: set<Id>, at: map<Id, Time>) returns (r: Id)
    requires ids != {} && ids <= at.Keys
    ensures r in ids && forall q | q in ids :: !TextBefore(at[q], at[r])
    decreases |ids|
  {
    var p :| p in ids;
    TextBeforeIsStrict(at[p], at[p]);
    r := p;
    if ids != {p} {
      assert ids - {p} != {};
      var o := OldestExists(ids - {p}, at);
      if TextBefore(at[p], at[o]) {
        TextBeforeIsStrict(at[p], at[o]);
        forall q | q in ids - {p} ensures !TextBefore(at[q], at[p]) {
          TextBeforeTransitive(at[p], at[o], at[q]);
        }
      } else {
        r := o;
      }
    }
  }

  lemma OldestReceivedExists(w: World)
    requires exists q :: IsReceived(w, q)
    ensures exists r :: OldestReceived(w, r)
  {
    var p :| IsReceived(w, p);
    var ids := set q | q in w && IsReceived(w, q);
    assert p in ids;
    var r := OldestExists(ids, map q | q in w :: w[q].rec.receivedAt);
    forall q | IsReceived(w, q) ensures !TextBefore(w[q].rec.receivedAt, w[r].rec.receivedAt) { assert q in ids; }
    assert OldestReceived(w, r);
  }

  lemma OldestRoutingExists(w: World)
    requires exists q :: IsRouting(w, q)
    ensures exists r :: OldestRouting(w, r)
  {
    var p :| IsRouting(w, p);
    var ids := set q | q in w && IsRouting(w, q);
    assert p in ids;
    var r := OldestExists(ids, map q | q in w :: w[q].rec.receivedAt);
    forall q | IsRouting(w, q) ensures !TextBefore(w[q].rec.receivedAt, w[r].rec.receivedAt) { assert q in ids; }
    assert OldestRouting(w, r);
  }

  lemma OldestDueRetryExists(w: World, now: Time)
    requires exists q :: DueForRetry(w, q, now)
    ensures exists r :: OldestDueRetry(w, r, now)
  {
    var p :| DueForRetry(w, p, now);
    var ids := set q | q in w && DueForRetry(w, q, now);
    assert p in ids;
    var r := OldestExists(ids, map q | q in w :: w[q].rec.receivedAt);
    forall q | DueForRetry(w, q, now) ensures !TextBefore(w[q].rec.receivedAt, w[r].rec.receivedAt) { assert q in ids; }
    assert OldestDueRetry(w, r, now);
  }

  lemma OldestDueDeliveryExists(w: World, now: Time)
    requires exists q :: DueForDelivery(w, q, now)
    ensures exists r :: OldestDueDelivery(w, r, now)
  {
    var p :| DueForDelivery(w, p, now);
    var ids := set q | q in w && DueForDelivery(w, q, now);
    assert p in ids;
    var r := OldestExists(ids, map q | q in w && w[q].delivery.Some? :: w[q].delivery.value.selectedAt);
    forall q | DueForDelivery(w, q, now)
      ensures !TextBefore(w[q].delivery.value.selectedAt, w[r].delivery.value.selectedAt)
    {
      assert q in ids;
    }
    assert OldestDueDelivery(w, r, now);
  }

  lemma FreshAttemptId(w: World)
    ensures exists id :: !AttemptIdUsed(w, id)
  {
    var used := set r, i: nat | r in w && i < |w[r].attempts| :: w[r].attempts[i].id;
    var id := FreshNat(used);
    forall r | r in w ensures !HasId(w[r].attempts, id) {
      forall i: nat | i < |w[r].attempts| ensures w[r].attempts[i].id in used {}
    }
    assert !AttemptIdUsed(w, id);
  }

  lemma FreshTryId(w: World)
    ensures exists id :: !TryIdUsed(w, id)
  {
    var used := set r, i: nat | r in w && i < |w[r].tries| :: w[r].tries[i].id;
    var id := FreshNat(used);
    forall r | r in w ensures !HasId(w[r].tries, id) {
      forall i: nat | i < |w[r].tries| ensures w[r].tries[i].id in used {}
    }
    assert !TryIdUsed(w, id);
  }

  /** Whatever there is to take, some step takes it; with nothing to take the tick goes on or ends. */
  lemma TranscriptionTakes(s: Sys)
    requires s.up
    ensures s.t.TIdle? ==> Enabled(s, TBegin)
    ensures s.t.TBegun? ==>
              if exists q :: IsReceived(s.w, q) then exists r :: Enabled(s, TClaim(r))
              else Enabled(s, TNoneReceived)
    ensures s.t.TScanning? ==>
              if exists q :: DueForRetry(s.w, q, s.t.startedAt) then exists r :: Enabled(s, TPick(r))
              else Enabled(s, TNothing)
  {
    if s.t.TBegun? && exists q :: IsReceived(s.w, q) {
      OldestReceivedExists(s.w);
      var r :| OldestReceived(s.w, r);
      assert Enabled(s, TClaim(r));
    }
    if s.t.TScanning? && exists q :: DueForRetry(s.w, q, s.t.startedAt) {
      OldestDueRetryExists(s.w, s.t.startedAt);
      var r :| OldestDueRetry(s.w, r, s.t.startedAt);
      assert Enabled(s, TPick(r));
    }
  }

  /** What a loop took it can start, and what it started it can end, whatever is answered. */
  lemma TranscriptionGoesOn(s: Sys)
    requires Inv(s) && s.up
    ensures s.t.TClaimed? ==> exists id :: Enabled(s, TStart(id)) && Apply(s, TStart(id)).t.TCalling?
    ensures s.t.TCalling? ==> forall answer :: Enabled(s, TFinish(answer)) && Apply(s, TFinish(answer)).t.TIdle?
  {
    if s.t.TClaimed? {
      FreshAttemptId(s.w);
      var id :| !AttemptIdUsed(s.w, id);
      TStartInv(s, id);
      assert Enabled(s, TStart(id));
    }
    if s.t.TCalling? {
      forall answer ensures Enabled(s, TFinish(answer)) && Apply(s, TFinish(answer)).t.TIdle? {
        TFinishInv(s, answer);
      }
    }
  }

  lemma DeliveryTakes(s: Sys)
    requires Inv(s) && s.up
    ensures s.d.DIdle? ==> Enabled(s, DBegin)
    ensures s.d.DBegun? ==>
              if exists q :: DueForDelivery(s.w, q, s.d.startedAt) then exists r :: Enabled(s, DPick(r))
              else Enabled(s, DNothing)
  {
    ScanWorks(s);
    if s.d.DBegun? && exists q :: DueForDelivery(s.w, q, s.d.startedAt) {
      OldestDueDeliveryExists(s.w, s.d.startedAt);
      var r :| OldestDueDelivery(s.w, r, s.d.startedAt);
      assert Enabled(s, DPick(r));
    }
  }

  lemma DeliveryGoesOn(s: Sys)
    requires Inv(s) && s.up
    ensures s.d.DPicked? ==> exists id :: Enabled(s, DStart(id)) && Apply(s, DStart(id)).d.DCalling?
    ensures s.d.DCalling? ==> forall answer :: Enabled(s, DFinish(answer)) && Apply(s, DFinish(answer)).d.DIdle?
  {
    if s.d.DPicked? {
      FreshTryId(s.w);
      var id :| !TryIdUsed(s.w, id);
      DStartInv(s, id);
      assert Enabled(s, DStart(id));
    }
    if s.d.DCalling? {
      forall answer ensures Enabled(s, DFinish(answer)) && Apply(s, DFinish(answer)).d.DIdle? {
        DFinishInv(s, answer);
      }
    }
  }

  ghost predicate CanChoose(s: Sys, i: nat, sink: string) {
    exists id :: Enabled(s, RDecide(i, ToSink(id, sink)))
  }

  lemma RoutingTakes(s: Sys, i: nat)
    requires s.up && i < |s.routers|
    ensures s.routers[i].RIdle? ==> Enabled(s, RBegin(i))
    ensures s.routers[i].RBegun? ==>
              if exists q :: IsRouting(s.w, q) then exists r :: Enabled(s, RPick(i, r))
              else Enabled(s, RNothing(i))
    ensures s.routers[i].RHolding? ==>
              && Enabled(s, RDecide(i, ToBacklog))
              && forall sink :: CanChoose(s, i, sink)
  {
    if s.routers[i].RBegun? && exists q :: IsRouting(s.w, q) {
      OldestRoutingExists(s.w);
      var r :| OldestRouting(s.w, r);
      assert Enabled(s, RPick(i, r));
    }
    if s.routers[i].RHolding? {
      FreshDeliveryId(s.w);
      var id :| !DeliveryIdUsed(s.w, id);
      forall sink ensures CanChoose(s, i, sink) {
        assert Enabled(s, RDecide(i, ToSink(id, sink)));
      }
    }
  }
}
