/**
 Bounded work: left alone, the service spends at most nine Transcription ticks,
 one Routing decision and nine Delivery ticks on a Recording, whatever happened
 to it before.
 */
module BoundedWork {
  import opened Domain
  import opened Ledger
  import opened Pipeline
  import opened PipelineInv
  import opened PipelineTheorems
  import opened Queues
  import opened Retry
  import opened Timeline
  import opened Timestamp
  import opened Tracks
  import opened Wrappers

  /** Neither a crash or restart nor an Operator action. */
  predicate Autonomous(step: Step) {
    !step.Crash? && !step.Restart? && !step.OpRoute? && !step.OpRetryTranscription? && !step.OpRetryDelivery?
  }

  // -- The measure -----------------------------------------------------------------------

  /** What the window at hand has spent: two transactions for each retryable failure, one for an attempt in flight. */
  function Used(a: seq<Attempt>): int {
    2 * RetriesIn(a, Terminals(a, |a|), |a|) + (if a != [] && a[|a| - 1].Open() then 1 else 0)
  }

  /** An upper bound on the worker transactions a Recording can still cause: claim, 18, decision, 18. */
  function Potential(c: Case): int {
    match c.rec.status
    case Received => 38
    case Transcribing => 37 - Used(c.attempts)
    case Routing => 19
    case Delivering => 18 - Used(c.tries)
    case _ => 0
  }

  lemma {:induction false} RetriesFrame(a: seq<Attempt>, b: seq<Attempt>, k: nat, n: nat)
    requires n <= |a| && n <= |b| && a[..n] == b[..n]
    ensures RetriesIn(a, k, n) == RetriesIn(b, k, n) && Terminals(a, n) == Terminals(b, n)
  {
    TerminalsFrame(a, b, n);
    if n > 0 {
      assert a[..n - 1] == a[..n][..n - 1] == b[..n][..n - 1] == b[..n - 1];
      assert a[n - 1] == a[..n][n - 1] == b[..n][n - 1] == b[n - 1];
      RetriesFrame(a, b, k, n - 1);
    }
  }

  lemma OpeningUses(a: seq<Attempt>, x: Attempt)
    requires x.Open() && (a != [] ==> !a[|a| - 1].Open())
    ensures Used(a + [x]) == Used(a) + 1
  {
    assert (a + [x])[..|a|] == a == a[..|a|];
    RetriesFrame(a, a + [x], Terminals(a, |a|), |a|);
  }

  lemma ClosingUses(a: seq<Attempt>, x: Attempt)
    requires a != [] && a[|a| - 1].Open() && x.state.RetryableFailure?
    ensures Used(a[|a| - 1 := x]) == Used(a) + 1
  {
    var b := a[|a| - 1 := x];
    assert b[..|a| - 1] == a[..|a| - 1];
    RetriesFrame(a, b, Terminals(a, |a| - 1), |a| - 1);
  }

  lemma NeverOverspent(c: Case, clock: Time)
    requires CaseInv(c, clock)
    ensures Used(c.attempts) <= 17 && Used(c.tries) <= 17
    ensures 0 <= Potential(c) <= 38
  {
    WindowIsClamped(c.rec.audioDurationMs);
    BudgetHolds(TTrack(c), clock);
    if c.delivery.Some? {
      BudgetHolds(DTrack(c), clock);
    }
  }

  lemma BudgetHolds(t: Track, clock: Time)
    requires ValidTrack(t, clock) && t.window <= WINDOW_CAP
    ensures 0 <= Used(t.attempts) <= 17
  {
    RetriesPerWindow(t, Terminals(t.attempts, |t.attempts|), |t.attempts|, clock);
  }

  ghost function Budget(w: World, r: Id): int {
    if r in w then Potential(w[r]) else 38
  }

  /** The Recording a step's transaction works on, if it takes effect. */
  function WorkedOn(s: Sys, step: Step): Option<Id> {
    if step.TClaim? then Some(step.r)
    else if step.TStart? && s.t.TClaimed? then Some(s.t.r)
    else if step.TFinish? && s.t.TCalling? then Some(s.t.r)
    else if step.RDecide? && step.i < |s.routers| && s.routers[step.i].RHolding? && IsRouting(s.w, s.routers[step.i].r)
    then Some(s.routers[step.i].r)
    else if step.DStart? && s.d.DPicked? then Some(s.d.r)
    else if step.DFinish? && s.d.DCalling? then Some(s.d.r)
    else None
  }

  /** A step turned one case into another within the budget, and nothing the Operator does was logged. */
  ghost predicate Pays(w: World, v: World, r: Id, c: Case) {
    r in w && v == w[r := c] && c.audit == w[r].audit && Potential(c) < Potential(w[r])
  }

  lemma ClaimPays(s: Sys, r: Id)
    requires Inv(s) && s.t.TBegun? && IsReceived(s.w, r)
    ensures Pays(s.w, ClaimReceived(s.w, r).world, r, Moved(s.w[r], Transcribing))
  {
    assert CaseInv(s.w[r], s.clock);
  }

  lemma StartPays(s: Sys, id: Id)
    requires Inv(s) && s.t.TClaimed? && !AttemptIdUsed(s.w, id)
    ensures Pays(s.w, StartTranscription(s.w, id, s.t.r, s.t.startedAt).world, s.t.r,
                 WithAttempt(s.w[s.t.r], id, s.t.startedAt))
  {
    var a := s.w[s.t.r].attempts;
    OpeningUses(a, Attempt(id, MaxNumber(a) + 1, s.t.startedAt, InProgress));
  }

  lemma StartTryPays(s: Sys, id: Id)
    requires Inv(s) && s.d.DPicked? && !TryIdUsed(s.w, id)
    ensures Pays(s.w, StartDelivery(s.w, id, s.d.r, s.d.startedAt).world, s.d.r,
                 WithTry(s.w[s.d.r], id, s.d.startedAt))
  {
    var a := s.w[s.d.r].tries;
    OpeningUses(a, Attempt(id, MaxNumber(a) + 1, s.d.startedAt, InProgress));
  }

  /** Ending an attempt costs nothing else: the row in flight becomes a finished one. */
  lemma MarkPays(s: Sys, state: AttemptState)
    requires Inv(s) && s.t.TCalling? && !state.InProgress?
    ensures var c := s.w[s.t.r];
            var d := c.(attempts := Mark(c.attempts, s.t.id, state));
            && FinishAttempt(s.w, s.t.id, state) == s.w[s.t.r := d]
            && c.rec.status == Transcribing && Used(c.attempts) <= 17
            && (state.RetryableFailure? ==> Used(d.attempts) == Used(c.attempts) + 1)
  {
    var c := s.w[s.t.r];
    assert CaseInv(c, s.clock) && CallingCase(c, s.t.id, s.t.anchor, s.t.audioDurationMs);
    NeverOverspent(c, s.clock);
    FinishIsLocal(s.w, s.t.r, s.t.id, state);
    MarkLast(c.attempts, s.t.id, state);
    if state.RetryableFailure? {
      ClosingUses(c.attempts, c.attempts[|c.attempts| - 1].(state := state));
    }
  }

  lemma MarkTryPays(s: Sys, state: AttemptState)
    requires Inv(s) && s.d.DCalling? && !state.InProgress?
    ensures var c := s.w[s.d.r];
            var d := c.(tries := Mark(c.tries, s.d.id, state));
            && FinishTry(s.w, s.d.id, state) == s.w[s.d.r := d]
            && c.rec.status == Delivering && Used(c.tries) <= 17
            && (state.RetryableFailure? ==> Used(d.tries) == Used(c.tries) + 1)
  {
    var c := s.w[s.d.r];
    assert CaseInv(c, s.clock) && DeliveringCase(c, s.d.id, s.d.deadline);
    NeverOverspent(c, s.clock);
    FinishTryIsLocal(s.w, s.d.r, s.d.id, state);
    MarkLast(c.tries, s.d.id, state);
    if state.RetryableFailure? {
      ClosingUses(c.tries, c.tries[|c.tries| - 1].(state := state));
    }
  }

  lemma FinishPays(s: Sys, answer: Answer)
    requires Inv(s) && s.t.TCalling?
    ensures s.t.r in EndTranscription(s, answer).world
    ensures Pays(s.w, EndTranscription(s, answer).world, s.t.r, EndTranscription(s, answer).world[s.t.r])
  {
    TFinishInv(s, answer);
    if answer.Good? {
      MarkPays(s, Succeeded(s.clock));
    } else if answer.Retryable? && s.clock < TranscriptionDeadline(s.t.anchor, s.t.audioDurationMs) {
      MarkPays(s, RetryableFailure(s.clock, answer.message));
    } else {
      MarkPays(s, TerminalFailure(s.clock, answer.message));
    }
  }

  lemma FinishTryPays(s: Sys, answer: Answer)
    requires Inv(s) && s.d.DCalling?
    ensures s.d.r in EndDelivery(s, answer).world
    ensures Pays(s.w, EndDelivery(s, answer).world, s.d.r, EndDelivery(s, answer).world[s.d.r])
  {
    DFinishInv(s, answer);
    if answer.Good? {
      MarkTryPays(s, Succeeded(s.clock));
    } else if answer.Retryable? && !(s.d.deadline.Some? && s.clock >= s.d.deadline.value) {
      MarkTryPays(s, RetryableFailure(s.clock, answer.message));
    } else {
      MarkTryPays(s, TerminalFailure(s.clock, answer.message));
    }
  }

  lemma DecidePays(s: Sys, r: Id, now: Time, v: Verdict)
    requires Inv(s) && r in s.w && (v.ToSink? ==> !DeliveryIdUsed(s.w, v.id))
    ensures var o := DecideRoute(s.w, r, now, v);
            && r in o.world
            && (IsRouting(s.w, r) ==> Pays(s.w, o.world, r, o.world[r]))
            && (!IsRouting(s.w, r) ==> o.world == s.w)
  {
    assert CaseInv(s.w[r], s.clock);
  }

  lemma TranscriptionPays(s: Sys, step: Step)
    requires Inv(s) && s.up && Enabled(s, step) && (step.TClaim? || step.TStart? || step.TFinish?)
    ensures WorkedOn(s, step).Some?
    ensures var (q, v) := (WorkedOn(s, step).value, Apply(s, step).w); q in v && Pays(s.w, v, q, v[q])
  {
    LoopStepInv(s, step);
    match step
    case TClaim(r) => ClaimPays(s, r);
    case TStart(id) => StartPays(s, id);
    case TFinish(answer) => FinishPays(s, answer);
  }

  lemma DeliveryPays(s: Sys, step: Step)
    requires Inv(s) && s.up && Enabled(s, step) && (step.DStart? || step.DFinish?)
    ensures WorkedOn(s, step).Some?
    ensures var (q, v) := (WorkedOn(s, step).value, Apply(s, step).w); q in v && Pays(s.w, v, q, v[q])
  {
    DeliveryStepInv(s, step);
    match step
    case DStart(id) => StartTryPays(s, id);
    case DFinish(answer) => FinishTryPays(s, answer);
  }

  lemma RoutingPays(s: Sys, step: Step)
    requires Inv(s) && s.up && Enabled(s, step) && step.RDecide? && WorkedOn(s, step).Some?
    ensures var (q, v) := (WorkedOn(s, step).value, Apply(s, step).w); q in v && Pays(s.w, v, q, v[q])
  {
    var l := s.routers[step.i];
    RoutingStepInv(s, step);
    DecidePays(s, l.r, l.now, step.verdict);
  }

  lemma WorkPays(s: Sys, step: Step)
    requires Inv(s) && s.up && Enabled(s, step) && WorkedOn(s, step).Some?
    ensures var (q, v) := (WorkedOn(s, step).value, Apply(s, step).w); q in v && Pays(s.w, v, q, v[q])
  {
    if step.TClaim? || step.TStart? || step.TFinish? {
      TranscriptionPays(s, step);
    } else if step.DStart? || step.DFinish? {
      DeliveryPays(s, step);
    } else {
      RoutingPays(s, step);
    }
  }

  /** What the Operator did to a Recording so far. */
  ghost function Logs(w: World, r: Id): seq<AuditEvent> {
    if r in w then w[r].audit else []
  }

  lemma Paid(w: World, v: World, q: Id, c: Case, r: Id)
    requires Pays(w, v, q, c)
    ensures Budget(v, r) + (if q == r then 1 else 0) <= Budget(w, r)
    ensures Logs(v, r) == Logs(w, r) && v.Keys == w.Keys
  {
  }

  lemma IdlePays(s: Sys, step: Step, r: Id)
    requires Inv(s) && s.up && Enabled(s, step) && Autonomous(step) && WorkedOn(s, step).None?
    ensures step.Arrive? || Apply(s, step).w == s.w
    ensures Budget(Apply(s, step).w, r) <= Budget(s.w, r)
    ensures Logs(Apply(s, step).w, r) == Logs(s.w, r)
  {
    if step.RDecide? {
      assert RoutingLoopInv(s.w, s.clock, s.routers[step.i]);
      DecidePays(s, s.routers[step.i].r, s.routers[step.i].now, step.verdict);
    }
  }

  /** An autonomous step that works on `r` lowers its measure, any other leaves it. */
  lemma StepPays(s: Sys, step: Step, r: Id)
    requires Inv(s) && s.up && Enabled(s, step) && Autonomous(step)
    ensures Budget(Apply(s, step).w, r) + (if WorkedOn(s, step) == Some(r) then 1 else 0) <= Budget(s.w, r)
    ensures Logs(Apply(s, step).w, r) == Logs(s.w, r)
  {
    if WorkedOn(s, step).Some? {
      var q, v := WorkedOn(s, step).value, Apply(s, step).w;
      WorkPays(s, step);
      Paid(s.w, v, q, v[q], r);
    } else {
      IdlePays(s, step, r);
    }
  }

  // -- Whole runs -----------------------------------------------------------------------------

  /** How many worker transactions of a run took effect on `r`. */
  ghost function Work(s: Sys, steps: seq<Step>, r: Id): nat
    requires Legal(s, steps)
    decreases |steps|
  {
    if steps == [] then 0
    else (if WorkedOn(s, steps[0]) == Some(r) then 1 else 0) + Work(Apply(s, steps[0]), steps[1..], r)
  }

  lemma {:induction false} RunPays(s: Sys, steps: seq<Step>, r: Id)
    requires Inv(s) && s.up && Legal(s, steps)
    requires forall i | 0 <= i < |steps| :: Autonomous(steps[i])
    ensures var v := Run(s, steps);
            && Inv(v) && v.up
            && Work(s, steps, r) + Budget(v.w, r) <= Budget(s.w, r)
            && Logs(v.w, r) == Logs(s.w, r)
    decreases |steps|
  {
    if steps != [] {
      StepInv(s, steps[0]);
      StepPays(s, steps[0], r);
      RunPays(Apply(s, steps[0]), steps[1..], r);
    }
  }

  lemma BudgetIsBounded(s: Sys, r: Id)
    requires Inv(s)
    ensures 0 <= Budget(s.w, r) <= 38
  {
    if r in s.w {
      assert CaseInv(s.w[r], s.clock);
      NeverOverspent(s.w[r], s.clock);
    }
  }

  /**
   From any reachable state, with no further crash and no further Operator action, a
   run of any length spends at most 38 worker transactions on a Recording: a claim,
   nine Transcription attempts, one routing decision and nine Delivery attempts.
   What is spent is gone.
   */
  lemma WorkIsBounded(s: Sys, steps: seq<Step>, r: Id)
    requires Reachable(s) && s.up && Legal(s, steps)
    requires forall i | 0 <= i < |steps| :: Autonomous(steps[i])
    ensures Work(s, steps, r) + Budget(Run(s, steps).w, r) <= Budget(s.w, r) <= 38
    ensures Budget(Run(s, steps).w, r) >= 0
  {
    ReachableInv(s);
    RunPays(s, steps, r);
    BudgetIsBounded(s, r);
    BudgetIsBounded(Run(s, steps), r);
  }
}
