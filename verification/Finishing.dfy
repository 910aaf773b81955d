/** A fair run exists from every reachable state, so whatever is under way can be finished. */
module Finishing {
  import opened FairRuns
  import opened Progress
  import opened Ledger
  import opened Pipeline
  import opened PipelineInv
  import opened PipelineTheorems
  import opened Queues
  import opened Timestamp

  lemma {:induction false} Joined(s: Sys, a: seq<Step>, b: seq<Step>)
    requires Calm(s, a) && Calm(Run(s, a), b)
    ensures Calm(s, a + b) && Run(s, a + b) == Run(Run(s, a), b)
    decreases |a|
  {
    if a == [] {
      assert a + b == b;
    } else {
      assert (a + b)[1..] == a[1..] + b;
      assert forall i | 0 <= i < |a| - 1 :: a[1..][i] == a[i + 1];
      Joined(Apply(s, a[0]), a[1..], b);
    }
  }

  /** Where a joined run is: still in its first part, or so far into its second. */
  lemma {:induction false} AtJoined(s: Sys, a: seq<Step>, b: seq<Step>, i: nat)
    requires Legal(s, a) && Legal(Run(s, a), b) && Legal(s, a + b) && i <= |a| + |b|
    ensures At(s, a + b, i) == if i <= |a| then At(s, a, i) else At(Run(s, a), b, i - |a|)
    decreases |a|
  {
    if a == [] {
      assert a + b == b;
    } else if i > 0 {
      assert (a + b)[1..] == a[1..] + b;
      AtJoined(Apply(s, a[0]), a[1..], b, i - 1);
      if i == |a| {
        AtEnd(s, a);
      }
    }
  }

  lemma TicksLater(s: Sys, a: seq<Step>, b: seq<Step>, since: Time)
    requires Calm(s, a) && Calm(Run(s, a), b) && Calm(s, a + b)
    ensures TranscriptionTicks(Run(s, a), b, since) ==> TranscriptionTicks(s, a + b, since)
    ensures DeliveryTicks(Run(s, a), b, since) ==> DeliveryTicks(s, a + b, since)
    ensures RoutersTick(b) ==> RoutersTick(a + b)
  {
    AtEnd(s, a);
    if TranscriptionTicks(Run(s, a), b, since) {
      var i: nat, j: nat :| i < j < |b| && TTick(Run(s, a), b, i, j, since);
      AtJoined(s, a, b, |a| + i);
      assert TTick(s, a + b, |a| + i, |a| + j, since);
    }
    if DeliveryTicks(Run(s, a), b, since) {
      var i: nat, j: nat :| i < j < |b| && DTick(Run(s, a), b, i, j, since);
      AtJoined(s, a, b, |a| + i);
      assert DTick(s, a + b, |a| + i, |a| + j, since);
    }
    if RoutersTick(b) {
      var i: nat, j: nat :| i < j < |b| && RTick(b, i, j);
      assert RTick(a + b, |a| + i, |a| + j);
    }
  }

  lemma TicksSooner(s: Sys, a: seq<Step>, b: seq<Step>, since: Time)
    requires Calm(s, a) && Calm(Run(s, a), b) && Calm(s, a + b)
    ensures TranscriptionTicks(s, a, since) ==> TranscriptionTicks(s, a + b, since)
    ensures DeliveryTicks(s, a, since) ==> DeliveryTicks(s, a + b, since)
  {
    if TranscriptionTicks(s, a, since) {
      var i: nat, j: nat :| i < j < |a| && TTick(s, a, i, j, since);
      AtJoined(s, a, b, i);
      assert TTick(s, a + b, i, j, since);
    }
    if DeliveryTicks(s, a, since) {
      var i: nat, j: nat :| i < j < |a| && DTick(s, a, i, j, since);
      AtJoined(s, a, b, i);
      assert DTick(s, a + b, i, j, since);
    }
  }

  function TLeft(t: TranscriptionLoop): nat {
    match t
    case TIdle => 0
    case TCalling(_, _, _, _) => 1
    case TClaimed(_, _, _) => 2
    case TScanning(_) => 3
    case TBegun(_) => 4
  }

  function DLeft(d: DeliveryLoop): nat {
    match d
    case DIdle => 0
    case DCalling(_, _, _) => 1
    case DPicked(_, _, _) => 2
    case DBegun(_) => 3
  }

  function RLeft(l: RoutingLoop): nat {
    match l
    case RIdle => 0
    case RHolding(_, _) => 1
    case RBegun(_) => 2
  }

  /** The next step of a tick under way. */
  lemma TNext(s: Sys) returns (step: Step)
    requires Inv(s) && s.up && !s.t.TIdle?
    ensures Enabled(s, step) && OfTranscription(step) && TLeft(Apply(s, step).t) < TLeft(s.t)
    ensures Apply(s, step).t.TIdle? ==> step.TNothing? || step.TFinish?
  {
    TranscriptionTakes(s);
    TranscriptionGoesOn(s);
    if s.t.TBegun? && exists q :: IsReceived(s.w, q) {
      var r :| Enabled(s, TClaim(r));
      step := TClaim(r);
    } else if s.t.TBegun? {
      step := TNoneReceived;
    } else if s.t.TScanning? && exists q :: DueForRetry(s.w, q, s.t.startedAt) {
      var r :| Enabled(s, TPick(r));
      step := TPick(r);
    } else if s.t.TScanning? {
      step := TNothing;
    } else if s.t.TClaimed? {
      var id :| Enabled(s, TStart(id)) && Apply(s, TStart(id)).t.TCalling?;
      step := TStart(id);
    } else {
      step := TFinish(Good(""));
    }
  }

  lemma DNext(s: Sys) returns (step: Step)
    requires Inv(s) && s.up && !s.d.DIdle?
    ensures Enabled(s, step) && OfDelivery(step) && DLeft(Apply(s, step).d) < DLeft(s.d)
    ensures Apply(s, step).d.DIdle? ==> step.DNothing? || step.DFinish?
  {
    DeliveryTakes(s);
    DeliveryGoesOn(s);
    if s.d.DBegun? && exists q :: DueForDelivery(s.w, q, s.d.startedAt) {
      var r :| Enabled(s, DPick(r));
      step := DPick(r);
    } else if s.d.DBegun? {
      step := DNothing;
    } else if s.d.DPicked? {
      var id :| Enabled(s, DStart(id)) && Apply(s, DStart(id)).d.DCalling?;
      step := DStart(id);
    } else {
      step := DFinish(Good(""));
    }
  }

  lemma RNext(s: Sys) returns (step: Step)
    requires Inv(s) && s.up && s.routers != [] && !s.routers[0].RIdle?
    ensures Enabled(s, step) && OfRouting(step)
    ensures var v := Apply(s, step);
            && v.routers != [] && RLeft(v.routers[0]) < RLeft(s.routers[0])
            && (v.routers[0].RIdle? ==> step == RNothing(0) || step == RDecide(0, ToBacklog))
  {
    RoutingTakes(s, 0);
    if s.routers[0].RBegun? && exists q :: IsRouting(s.w, q) {
      var r :| Enabled(s, RPick(0, r));
      step := RPick(0, r);
    } else if s.routers[0].RBegun? {
      step := RNothing(0);
    } else {
      step := RDecide(0, ToBacklog);
    }
  }

  /** A loop's step moves neither the clock nor another loop. */
  lemma OwnTStep(s: Sys, step: Step)
    requires Inv(s) && s.up && Enabled(s, step) && OfTranscription(step)
    ensures var v := Apply(s, step);
            Inv(v) && v.up && Undisturbed(step) && v.clock == s.clock && v.d == s.d && v.routers == s.routers
  {
    LoopStepInv(s, step);
  }

  lemma OwnDStep(s: Sys, step: Step)
    requires Inv(s) && s.up && Enabled(s, step) && OfDelivery(step)
    ensures var v := Apply(s, step);
            Inv(v) && v.up && Undisturbed(step) && v.clock == s.clock && v.t == s.t && v.routers == s.routers
  {
    DeliveryStepInv(s, step);
  }

  lemma OwnRStep(s: Sys, step: Step)
    requires Inv(s) && s.up && Enabled(s, step) && OfRouting(step)
    ensures var v := Apply(s, step);
            Inv(v) && v.up && Undisturbed(step) && v.clock == s.clock && v.t == s.t && v.d == s.d
  {
    RoutingStepInv(s, step);
  }

  lemma Prepended(s: Sys, step: Step, rest: seq<Step>)
    requires Enabled(s, step) && Undisturbed(step) && Calm(Apply(s, step), rest)
    ensures Calm(s, [step] + rest) && Run(s, [step] + rest) == Run(Apply(s, step), rest)
  {
    assert ([step] + rest)[1..] == rest;
  }

  lemma {:induction false} TSettles(s: Sys) returns (steps: seq<Step>)
    requires Inv(s) && s.up
    ensures Calm(s, steps)
    ensures s.t.TIdle? ==> steps == []
    ensures !s.t.TIdle? ==> steps != [] && (steps[|steps| - 1].TNothing? || steps[|steps| - 1].TFinish?)
    ensures var v := Run(s, steps);
            Inv(v) && v.up && v.t.TIdle? && v.clock == s.clock && v.d == s.d && v.routers == s.routers
    decreases TLeft(s.t)
  {
    if s.t.TIdle? {
      steps := [];
    } else {
      var step := TNext(s);
      OwnTStep(s, step);
      var rest := TSettles(Apply(s, step));
      Prepended(s, step, rest);
      steps := [step] + rest;
    }
  }

  lemma {:induction false} DSettles(s: Sys) returns (steps: seq<Step>)
    requires Inv(s) && s.up
    ensures Calm(s, steps)
    ensures s.d.DIdle? ==> steps == []
    ensures !s.d.DIdle? ==> steps != [] && (steps[|steps| - 1].DNothing? || steps[|steps| - 1].DFinish?)
    ensures var v := Run(s, steps);
            Inv(v) && v.up && v.d.DIdle? && v.clock == s.clock && v.t == s.t && v.routers == s.routers
    decreases DLeft(s.d)
  {
    if s.d.DIdle? {
      steps := [];
    } else {
      var step := DNext(s);
      OwnDStep(s, step);
      var rest := DSettles(Apply(s, step));
      Prepended(s, step, rest);
      steps := [step] + rest;
    }
  }

  lemma {:induction false} RSettles(s: Sys) returns (steps: seq<Step>)
    requires Inv(s) && s.up && s.routers != []
    ensures Calm(s, steps)
    ensures s.routers[0].RIdle? ==> steps == []
    ensures !s.routers[0].RIdle? ==>
              && steps != []
              && (steps[|steps| - 1] == RNothing(0) || steps[|steps| - 1] == RDecide(0, ToBacklog))
    ensures var v := Run(s, steps);
            && Inv(v) && v.up && v.clock == s.clock && v.t == s.t && v.d == s.d
            && v.routers != [] && v.routers[0].RIdle?
    decreases RLeft(s.routers[0])
  {
    if s.routers[0].RIdle? {
      steps := [];
    } else {
      var step := RNext(s);
      OwnRStep(s, step);
      var rest := RSettles(Apply(s, step));
      Prepended(s, step, rest);
      steps := [step] + rest;
    }
  }

  /** All loops come to rest, and six hours pass. */
  lemma Waits(s: Sys) returns (steps: seq<Step>)
    requires Inv(s) && s.up && s.routers != []
    ensures Calm(s, steps)
    ensures var v := Run(s, steps);
            && Inv(v) && v.up && v.clock == s.clock + 6 * HOUR
            && v.t.TIdle? && v.d.DIdle? && v.routers != [] && v.routers[0].RIdle?
  {
    var a := TSettles(s);
    var u := Run(s, a);
    var b := DSettles(u);
    var v := Run(u, b);
    var c := RSettles(v);
    var x := Run(v, c);
    var d := [Advance(x.clock + 6 * HOUR)];
    AdvanceInv(x, x.clock + 6 * HOUR);
    Prepended(x, d[0], []);
    assert d + [] == d;
    Joined(v, c, d);
    Joined(u, b, c + d);
    Joined(s, a, b + (c + d));
    steps := a + (b + (c + d));
  }

  lemma TranscriptionRound(s: Sys) returns (steps: seq<Step>)
    requires Inv(s) && s.up && s.t.TIdle?
    ensures Calm(s, steps) && TranscriptionTicks(s, steps, s.clock)
    ensures var v := Run(s, steps); Inv(v) && v.up && v.clock == s.clock && v.d == s.d && v.routers == s.routers
  {
    TBeginInv(s);
    var rest := TSettles(Apply(s, TBegin));
    Prepended(s, TBegin, rest);
    steps := [TBegin] + rest;
    assert TTick(s, steps, 0, |steps| - 1, s.clock);
  }

  lemma DeliveryRound(s: Sys) returns (steps: seq<Step>)
    requires Inv(s) && s.up && s.d.DIdle?
    ensures Calm(s, steps) && DeliveryTicks(s, steps, s.clock)
    ensures var v := Run(s, steps); Inv(v) && v.up && v.clock == s.clock && v.routers == s.routers
  {
    DBeginInv(s);
    var rest := DSettles(Apply(s, DBegin));
    Prepended(s, DBegin, rest);
    steps := [DBegin] + rest;
    assert DTick(s, steps, 0, |steps| - 1, s.clock);
  }

  lemma RoutingRound(s: Sys) returns (steps: seq<Step>)
    requires Inv(s) && s.up && s.routers != [] && s.routers[0].RIdle?
    ensures Calm(s, steps) && RoutersTick(steps)
    ensures var v := Run(s, steps); Inv(v) && v.up && v.routers != []
  {
    RoutingStepInv(s, RBegin(0));
    var rest := RSettles(Apply(s, RBegin(0)));
    Prepended(s, RBegin(0), rest);
    steps := [RBegin(0)] + rest;
    assert RTick(steps, 0, |steps| - 1);
  }

  lemma RoundExists(s: Sys) returns (steps: seq<Step>)
    requires Inv(s) && s.up && s.routers != []
    ensures Round(s, steps)
    ensures var v := Run(s, steps); Inv(v) && v.up && v.routers != []
  {
    var a := Waits(s);
    var u, since := Run(s, a), s.clock + 6 * HOUR;
    var b := TranscriptionRound(u);
    var v := Run(u, b);
    var c := DeliveryRound(v);
    var x := Run(v, c);
    var d := RoutingRound(x);
    Joined(v, c, d);
    Joined(u, b, c + d);
    Joined(s, a, b + (c + d));
    TicksLater(v, c, d, since);
    TicksSooner(v, c, d, since);
    TicksLater(u, b, c + d, since);
    TicksSooner(u, b, c + d, since);
    TicksLater(s, a, b + (c + d), since);
    steps := a + (b + (c + d));
  }

  lemma {:induction false} RoundsExist(s: Sys, n: nat) returns (rounds: seq<seq<Step>>)
    requires Inv(s) && s.up && s.routers != []
    ensures Rounds(s, rounds) && |rounds| == n
    decreases n
  {
    if n == 0 {
      rounds := [];
    } else {
      var first := RoundExists(s);
      var rest := RoundsExist(Run(s, first), n - 1);
      rounds := [first] + rest;
      assert rounds[1..] == rest;
    }
  }

  /** Such a run exists from every reachable state, so all work can always be finished. */
  lemma WorkCanBeFinished(s: Sys)
    requires Reachable(s) && s.up && s.routers != []
    ensures exists rounds :: Rounds(s, rounds) && Drained(Through(s, rounds).w)
  {
    ReachableInv(s);
    var rounds := RoundsExist(s, 38 * |s.w| + 1);
    FairRunsDrain(s, rounds);
  }
}
