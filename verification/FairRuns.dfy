/**
 Left to itself the service finishes: a run in which every loop keeps ticking
 leaves each Recording delivered or with the Operator.
 */
module FairRuns {
  import opened BoundedWork
  import opened Domain
  import opened Ledger
  import opened Pipeline
  import opened PipelineInv
  import opened PipelineTheorems
  import opened Queues
  import opened Timeline
  import opened Timestamp

  /** Neither a new upload, an Operator action, a crash nor a restart. */
  predicate Undisturbed(step: Step) {
    Autonomous(step) && !step.Arrive?
  }

  ghost predicate Calm(s: Sys, steps: seq<Step>) {
    Legal(s, steps) && forall i | 0 <= i < |steps| :: Undisturbed(steps[i])
  }

  /** The state before step `i` of a run. */
  ghost function At(s: Sys, steps: seq<Step>, i: nat): Sys
    requires Legal(s, steps) && i <= |steps|
    decreases i
  {
    if i == 0 then s else At(Apply(s, steps[0]), steps[1..], i - 1)
  }

  lemma {:induction false} AtNext(s: Sys, steps: seq<Step>, i: nat)
    requires Legal(s, steps) && i < |steps|
    ensures Enabled(At(s, steps, i), steps[i])
    ensures At(s, steps, i + 1) == Apply(At(s, steps, i), steps[i])
    decreases i
  {
    if i > 0 {
      AtNext(Apply(s, steps[0]), steps[1..], i - 1);
    }
  }

  lemma {:induction false} AtEnd(s: Sys, steps: seq<Step>)
    requires Legal(s, steps)
    ensures At(s, steps, |steps|) == Run(s, steps)
    decreases |steps|
  {
    if steps != [] {
      AtEnd(Apply(s, steps[0]), steps[1..]);
    }
  }

  /** Steps `i` to `j` hold a whole tick of the Transcription loop, begun no sooner than `since`. */
  ghost predicate TTick(s: Sys, steps: seq<Step>, i: nat, j: nat, since: Time)
    requires Legal(s, steps) && i < j < |steps|
  {
    steps[i].TBegin? && At(s, steps, i).clock >= since && (steps[j].TNothing? || steps[j].TFinish?)
  }

  ghost predicate DTick(s: Sys, steps: seq<Step>, i: nat, j: nat, since: Time)
    requires Legal(s, steps) && i < j < |steps|
  {
    steps[i].DBegin? && At(s, steps, i).clock >= since && (steps[j].DNothing? || steps[j].DFinish?)
  }

  ghost predicate RTick(steps: seq<Step>, i: nat, j: nat)
    requires i < j < |steps|
  {
    && steps[i].RBegin?
    && ((steps[j].RNothing? && steps[j].i == steps[i].i) || (steps[j].RDecide? && steps[j].i == steps[i].i))
  }

  ghost predicate TranscriptionTicks(s: Sys, steps: seq<Step>, since: Time)
    requires Legal(s, steps)
  {
    exists i: nat, j: nat | i < j < |steps| :: TTick(s, steps, i, j, since)
  }

  ghost predicate DeliveryTicks(s: Sys, steps: seq<Step>, since: Time)
    requires Legal(s, steps)
  {
    exists i: nat, j: nat | i < j < |steps| :: DTick(s, steps, i, j, since)
  }

  ghost predicate RoutersTick(steps: seq<Step>) {
    exists i: nat, j: nat | i < j < |steps| :: RTick(steps, i, j)
  }

  /** A calm stretch in which every loop ticks, the two with backoff six hours into it. */
  ghost predicate Round(s: Sys, steps: seq<Step>) {
    && Calm(s, steps)
    && TranscriptionTicks(s, steps, s.clock + 6 * HOUR)
    && DeliveryTicks(s, steps, s.clock + 6 * HOUR)
    && RoutersTick(steps)
  }

  ghost predicate Rounds(s: Sys, rounds: seq<seq<Step>>)
    decreases |rounds|
  {
    rounds == [] || (Round(s, rounds[0]) && Rounds(Run(s, rounds[0]), rounds[1..]))
  }

  ghost function Through(s: Sys, rounds: seq<seq<Step>>): Sys
    requires Rounds(s, rounds)
    decreases |rounds|
  {
    if rounds == [] then s else Through(Run(s, rounds[0]), rounds[1..])
  }

  predicate AtRest(status: RecordingStatus) {
    status in {Backlogged, TranscriptionFailed, DeliveryFailed, Delivered}
  }

  /** Every Recording is delivered or with the Operator. */
  ghost predicate Drained(w: World) {
    forall r | r in w :: AtRest(w[r].rec.status)
  }

  // -- A round without work shows there is none --------------------------------------------

  ghost predicate WorksAt(s: Sys, steps: seq<Step>, i: nat)
    requires Legal(s, steps) && i < |steps|
  {
    WorkedOn(At(s, steps, i), steps[i]).Some?
  }

  ghost predicate Works(s: Sys, steps: seq<Step>)
    requires Legal(s, steps)
  {
    exists i: nat | i < |steps| :: WorksAt(s, steps, i)
  }

  lemma {:induction false} NothingMoves(s: Sys, steps: seq<Step>, i: nat)
    requires Inv(s) && s.up && Calm(s, steps) && !Works(s, steps) && i <= |steps|
    ensures var v := At(s, steps, i); Inv(v) && v.up && v.w == s.w
    decreases i
  {
    if i > 0 {
      NothingMoves(s, steps, i - 1);
      AtNext(s, steps, i - 1);
      var v := At(s, steps, i - 1);
      assert !WorksAt(s, steps, i - 1) && Undisturbed(steps[i - 1]);
      StepInv(v, steps[i - 1]);
      IdlePays(v, steps[i - 1], 0);
    }
  }

  /** A Transcription tick under way began no sooner than `since`, and if it is scanning, nothing is received. */
  ghost predicate Looking(v: Sys, since: Time) {
    && v.clock >= since
    && (v.t.TBegun? ==> v.t.startedAt >= since)
    && (v.t.TScanning? ==> v.t.startedAt >= since && forall q :: !IsReceived(v.w, q))
  }

  ghost predicate LookingForDeliveries(v: Sys, since: Time) {
    v.clock >= since && (v.d.DBegun? ==> v.d.startedAt >= since)
  }

  ghost predicate HoldsRouting(v: Sys, i: nat) {
    i < |v.routers| && (v.routers[i].RHolding? ==> IsRouting(v.w, v.routers[i].r))
  }

  lemma StillLooking(v: Sys, step: Step, since: Time, i: nat)
    requires Enabled(v, step) && Undisturbed(step) && Apply(v, step).w == v.w
    ensures Looking(v, since) ==> Looking(Apply(v, step), since)
    ensures LookingForDeliveries(v, since) ==> LookingForDeliveries(Apply(v, step), since)
    ensures HoldsRouting(v, i) ==> HoldsRouting(Apply(v, step), i)
  {
  }

  lemma {:induction false} LooksOn(s: Sys, steps: seq<Step>, i: nat, j: nat, since: Time, k: nat)
    requires Inv(s) && s.up && Calm(s, steps) && !Works(s, steps) && i <= j <= |steps|
    ensures Looking(At(s, steps, i), since) ==> Looking(At(s, steps, j), since)
    ensures LookingForDeliveries(At(s, steps, i), since) ==> LookingForDeliveries(At(s, steps, j), since)
    ensures HoldsRouting(At(s, steps, i), k) ==> HoldsRouting(At(s, steps, j), k)
    decreases j
  {
    if i < j {
      LooksOn(s, steps, i, j - 1, since, k);
      NothingMoves(s, steps, j - 1);
      NothingMoves(s, steps, j);
      AtNext(s, steps, j - 1);
      assert Undisturbed(steps[j - 1]);
      StillLooking(At(s, steps, j - 1), steps[j - 1], since, k);
    }
  }

  /** Without work, a Transcription tick can only end by finding nothing, at the moment `v`. */
  lemma TLooked(s: Sys, steps: seq<Step>, since: Time) returns (v: Sys)
    requires Inv(s) && s.up && Calm(s, steps) && !Works(s, steps) && TranscriptionTicks(s, steps, since)
    ensures Inv(v) && v.w == s.w && v.t.TScanning? && since <= v.t.startedAt
    ensures forall q :: !IsReceived(v.w, q) && !DueForRetry(v.w, q, v.t.startedAt)
  {
    var i: nat, j: nat :| i < j < |steps| && TTick(s, steps, i, j, since);
    AtNext(s, steps, i);
    AtNext(s, steps, j);
    NothingMoves(s, steps, j);
    LooksOn(s, steps, i, j, since, 0);
    v := At(s, steps, j);
    assert !WorksAt(s, steps, j);
  }

  lemma DLooked(s: Sys, steps: seq<Step>, since: Time) returns (v: Sys)
    requires Inv(s) && s.up && Calm(s, steps) && !Works(s, steps) && DeliveryTicks(s, steps, since)
    ensures Inv(v) && v.w == s.w && v.d.DBegun? && since <= v.d.startedAt
    ensures forall q :: !DueForDelivery(v.w, q, v.d.startedAt)
  {
    var i: nat, j: nat :| i < j < |steps| && DTick(s, steps, i, j, since);
    AtNext(s, steps, i);
    AtNext(s, steps, j);
    NothingMoves(s, steps, j);
    LooksOn(s, steps, i, j, since, 0);
    v := At(s, steps, j);
    assert !WorksAt(s, steps, j);
  }

  /** What no loop holds and no scan returns is not under way. */
  lemma UndueIsOver(c: Case, r: Id, t: TranscriptionLoop, d: DeliveryLoop, clock: Time, now: Time)
    requires CaseInv(c, clock) && Owned(c, r, t, d) && clock + 6 * HOUR <= now
    ensures t.TScanning? && !(RetryCandidate(c) && RetryDue(c, now)) ==> c.rec.status != Transcribing
    ensures d.DBegun? && !(DeliveryCandidate(c) && DeliveryDue(c, now)) ==> c.rec.status != Delivering
  {
    DueInTime(c, clock, now);
  }

  lemma NothingToTranscribe(s: Sys, steps: seq<Step>, r: Id)
    requires Inv(s) && s.up && Round(s, steps) && !Works(s, steps) && r in s.w
    ensures s.w[r].rec.status != Received && s.w[r].rec.status != Transcribing
  {
    var v := TLooked(s, steps, s.clock + 6 * HOUR);
    assert CaseInv(s.w[r], s.clock) && Owned(v.w[r], r, v.t, v.d);
    UndueIsOver(s.w[r], r, v.t, v.d, s.clock, v.t.startedAt);
    assert !IsReceived(v.w, r) && !DueForRetry(v.w, r, v.t.startedAt);
  }

  lemma NothingIsDelivering(s: Sys, steps: seq<Step>, r: Id)
    requires Inv(s) && s.up && Round(s, steps) && !Works(s, steps) && r in s.w
    ensures s.w[r].rec.status != Delivering
  {
    var v := DLooked(s, steps, s.clock + 6 * HOUR);
    assert CaseInv(s.w[r], s.clock) && Owned(v.w[r], r, v.t, v.d);
    UndueIsOver(s.w[r], r, v.t, v.d, s.clock, v.d.startedAt);
    assert !DueForDelivery(v.w, r, v.d.startedAt);
  }

  lemma RLooked(s: Sys, steps: seq<Step>) returns (j: nat)
    requires Inv(s) && s.up && Calm(s, steps) && !Works(s, steps) && RoutersTick(steps)
    ensures j < |steps| && (steps[j].RNothing? || steps[j].RDecide?)
    ensures HoldsRouting(At(s, steps, j), steps[j].i)
  {
    var i: nat;
    i, j :| i < j < |steps| && RTick(steps, i, j);
    AtNext(s, steps, i);
    LooksOn(s, steps, i, j, s.clock, steps[i].i);
  }

  lemma NothingIsRouting(s: Sys, steps: seq<Step>, r: Id)
    requires Inv(s) && s.up && Round(s, steps) && !Works(s, steps) && r in s.w
    ensures s.w[r].rec.status != Routing
  {
    var j := RLooked(s, steps);
    AtNext(s, steps, j);
    NothingMoves(s, steps, j);
    assert !WorksAt(s, steps, j);
    assert !IsRouting(At(s, steps, j).w, r);
  }

  lemma IdleRoundIsDrained(s: Sys, steps: seq<Step>)
    requires Inv(s) && s.up && Round(s, steps) && !Works(s, steps)
    ensures Drained(s.w) && Run(s, steps).w == s.w
  {
    forall r | r in s.w ensures AtRest(s.w[r].rec.status) {
      NothingToTranscribe(s, steps, r);
      NothingIsRouting(s, steps, r);
      NothingIsDelivering(s, steps, r);
    }
    NothingMoves(s, steps, |steps|);
    AtEnd(s, steps);
  }

  // -- A round with work spends some of what is left -----------------------------------------

  ghost function Total(w: World, ids: seq<Id>): int {
    if ids == [] then 0 else Budget(w, ids[0]) + Total(w, ids[1..])
  }

  lemma {:induction false} TotalIsBounded(s: Sys, ids: seq<Id>)
    requires Inv(s)
    ensures 0 <= Total(s.w, ids) <= 38 * |ids|
  {
    if ids != [] {
      BudgetIsBounded(s, ids[0]);
      TotalIsBounded(s, ids[1..]);
    }
  }

  lemma {:induction false} TotalDrops(w: World, v: World, ids: seq<Id>)
    requires forall r | r in ids :: Budget(v, r) <= Budget(w, r)
    ensures Total(v, ids) <= Total(w, ids)
    ensures (exists q :: q in ids && Budget(v, q) < Budget(w, q)) ==> Total(v, ids) < Total(w, ids)
  {
    if ids != [] {
      assert forall r | r in ids[1..] :: r in ids;
      assert ids[0] in ids;
      TotalDrops(w, v, ids[1..]);
    }
  }

  lemma {:induction false} CalmRun(s: Sys, steps: seq<Step>, i: nat)
    requires Inv(s) && s.up && Calm(s, steps) && i <= |steps|
    ensures var v := At(s, steps, i); Inv(v) && v.up && v.w.Keys == s.w.Keys
    decreases i
  {
    if i > 0 {
      CalmRun(s, steps, i - 1);
      AtNext(s, steps, i - 1);
      var v, step := At(s, steps, i - 1), steps[i - 1];
      assert Undisturbed(step);
      StepInv(v, step);
      if WorkedOn(v, step).Some? {
        WorkPays(v, step);
      } else {
        IdlePays(v, step, 0);
      }
    }
  }

  lemma {:induction false} WorkCounts(s: Sys, steps: seq<Step>, i: nat)
    requires Legal(s, steps) && i < |steps| && WorksAt(s, steps, i)
    ensures Work(s, steps, WorkedOn(At(s, steps, i), steps[i]).value) >= 1
    decreases i
  {
    if i > 0 {
      assert WorksAt(Apply(s, steps[0]), steps[1..], i - 1);
      WorkCounts(Apply(s, steps[0]), steps[1..], i - 1);
    }
  }

  lemma BusyRoundPays(s: Sys, steps: seq<Step>, ids: seq<Id>)
    requires Inv(s) && s.up && Calm(s, steps) && Works(s, steps)
    requires forall r | r in s.w :: r in ids
    ensures Total(Run(s, steps).w, ids) < Total(s.w, ids)
  {
    var v := Run(s, steps).w;
    forall k | 0 <= k < |steps| ensures Autonomous(steps[k]) {
      assert Undisturbed(steps[k]);
    }
    forall r ensures Budget(v, r) + Work(s, steps, r) <= Budget(s.w, r) {
      RunPays(s, steps, r);
    }
    var i: nat :| i < |steps| && WorksAt(s, steps, i);
    var u := At(s, steps, i);
    var q := WorkedOn(u, steps[i]).value;
    CalmRun(s, steps, i);
    AtNext(s, steps, i);
    WorkPays(u, steps[i]);
    WorkCounts(s, steps, i);
    assert q in ids && Budget(v, q) < Budget(s.w, q);
    TotalDrops(s.w, v, ids);
  }

  // -- Fair runs end --------------------------------------------------------------------------

  lemma DrainedIsIdle(s: Sys, step: Step)
    requires Inv(s) && s.up && Drained(s.w) && Enabled(s, step)
    ensures WorkedOn(s, step).None?
  {
    if WorkedOn(s, step).Some? {
      WorkPays(s, step);
      var q := WorkedOn(s, step).value;
      assert AtRest(s.w[q].rec.status);
      assert Potential(s.w[q]) == 0;
      StepInv(s, step);
      BudgetIsBounded(Apply(s, step), q);
    }
  }

  lemma {:induction false} DrainedRun(s: Sys, steps: seq<Step>, i: nat)
    requires Inv(s) && s.up && Calm(s, steps) && Drained(s.w) && i <= |steps|
    ensures var v := At(s, steps, i); Inv(v) && v.up && v.w == s.w
    decreases i
  {
    if i > 0 {
      DrainedRun(s, steps, i - 1);
      AtNext(s, steps, i - 1);
      var v, step := At(s, steps, i - 1), steps[i - 1];
      assert Undisturbed(step);
      DrainedIsIdle(v, step);
      StepInv(v, step);
      IdlePays(v, step, 0);
    }
  }

  lemma {:induction false} StaysDrained(s: Sys, rounds: seq<seq<Step>>)
    requires Inv(s) && s.up && Rounds(s, rounds) && Drained(s.w)
    ensures Through(s, rounds).w == s.w
    decreases |rounds|
  {
    if rounds != [] {
      DrainedRun(s, rounds[0], |rounds[0]|);
      AtEnd(s, rounds[0]);
      StaysDrained(Run(s, rounds[0]), rounds[1..]);
    }
  }

  lemma {:induction false} Drains(s: Sys, rounds: seq<seq<Step>>, ids: seq<Id>)
    requires Inv(s) && s.up && Rounds(s, rounds)
    requires forall r | r in s.w :: r in ids
    requires Total(s.w, ids) < |rounds|
    ensures Drained(Through(s, rounds).w)
    ensures Through(s, rounds).w.Keys == s.w.Keys
    decreases |rounds|
  {
    TotalIsBounded(s, ids);
    var v := Run(s, rounds[0]);
    CalmRun(s, rounds[0], |rounds[0]|);
    AtEnd(s, rounds[0]);
    if Works(s, rounds[0]) {
      BusyRoundPays(s, rounds[0], ids);
      Drains(v, rounds[1..], ids);
    } else {
      IdleRoundIsDrained(s, rounds[0]);
      StaysDrained(v, rounds[1..]);
    }
  }

  lemma {:induction false} Enumerated(keys: set<Id>) returns (ids: seq<Id>)
    ensures |ids| == |keys| && forall r | r in keys :: r in ids
    decreases |keys|
  {
    if keys == {} {
      ids := [];
    } else {
      var r :| r in keys;
      var rest := Enumerated(keys - {r});
      ids := [r] + rest;
    }
  }

  /**
   From any reachable state of the running service, once every loop has ticked in
   more than 38 rounds for each Recording, six hours or more apart, and nothing new
   came in, each Recording is delivered or with the Operator: whatever the provider
   and the Sinks answered and however the loops were interleaved.
   */
  lemma FairRunsDrain(s: Sys, rounds: seq<seq<Step>>)
    requires Reachable(s) && s.up && Rounds(s, rounds) && |rounds| > 38 * |s.w|
    ensures Drained(Through(s, rounds).w)
    ensures Through(s, rounds).w.Keys == s.w.Keys
  {
    ReachableInv(s);
    var ids := Enumerated(s.w.Keys);
    TotalIsBounded(s, ids);
    Drains(s, rounds, ids);
  }
}
