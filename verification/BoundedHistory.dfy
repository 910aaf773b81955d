/**
 How long a Recording's history can get, whatever the service, its crashes and the
 Operator do: each manual retry buys one more window of attempts and each restart
 at most one attempt.
 */
module BoundedHistory {
  import opened BoundedWork
  import opened Domain
  import opened Ledger
  import opened Pipeline
  import opened PipelineInv
  import opened Retry
  import opened StoreLaws
  import opened StoreTheorems
  import opened Timeline
  import opened Timestamp
  import opened Traces
  import opened Tracks

  // -- Only recovery abandons attempts -------------------------------------------------

  /** `b` continues `a` without abandoning anything. */
  ghost predicate Grows(a: seq<Attempt>, b: seq<Attempt>) {
    |a| <= |b| && forall i | 0 <= i < |b| && b[i].state.Abandoned? :: i < |a| && a[i].state.Abandoned?
  }

  lemma {:induction false} GrowsByNone(a: seq<Attempt>, b: seq<Attempt>, n: nat)
    requires Grows(a, b) && n <= |b|
    ensures Abandonments(b, n) <= Abandonments(a, if n < |a| then n else |a|)
  {
    if n > 0 {
      GrowsByNone(a, b, n - 1);
    }
  }

  lemma {:induction false} SamePrefix(a: seq<Attempt>, b: seq<Attempt>, n: nat)
    requires n <= |a| && n <= |b| && forall i | 0 <= i < n :: a[i] == b[i]
    ensures Abandonments(a, n) == Abandonments(b, n)
  {
    if n > 0 {
      SamePrefix(a, b, n - 1);
    }
  }

  /** Recovery abandons at most the one open attempt. */
  lemma ClosesAtMostOne(a: seq<Attempt>, at: Time)
    requires Disciplined(a)
    ensures Abandonments(CloseOpen(a, at), |a|) <= Abandonments(a, |a|) + 1
  {
    if a != [] {
      SamePrefix(a, CloseOpen(a, at), |a| - 1);
    }
  }

  lemma AttemptsGrow(w: World, t: Txn, r: Id)
    requires r in w && !t.Recovery?
    ensures r in Exec(w, t).world && Grows(w[r].attempts, Exec(w, t).world[r].attempts)
  {
  }

  lemma TriesGrow(w: World, t: Txn, r: Id)
    requires r in w && !t.Recovery?
    ensures r in Exec(w, t).world && Grows(w[r].tries, Exec(w, t).world[r].tries)
  {
  }

  ghost function Abandoned(w: World, r: Id): nat {
    if r in w then Abandonments(w[r].attempts, |w[r].attempts|) else 0
  }

  ghost function AbandonedTries(w: World, r: Id): nat {
    if r in w then Abandonments(w[r].tries, |w[r].tries|) else 0
  }

  function Recoveries(ts: seq<Txn>): nat {
    if ts == [] then 0 else (if ts[0].Recovery? then 1 else 0) + Recoveries(ts[1..])
  }

  lemma TxnAbandons(w: World, t: Txn, r: Id)
    requires Sound(w)
    ensures Abandoned(Exec(w, t).world, r) <= Abandoned(w, r) + Recoveries([t])
    ensures AbandonedTries(Exec(w, t).world, r) <= AbandonedTries(w, r) + Recoveries([t])
  {
    var v := Exec(w, t).world;
    if r in w && t.Recovery? {
      assert SoundCase(w[r]);
      ClosesAtMostOne(w[r].attempts, t.now);
      ClosesAtMostOne(w[r].tries, t.now);
    } else if r in w {
      AttemptsGrow(w, t, r);
      TriesGrow(w, t, r);
      GrowsByNone(w[r].attempts, v[r].attempts, |v[r].attempts|);
      GrowsByNone(w[r].tries, v[r].tries, |v[r].tries|);
    } else if r in v {
      NewCaseIsFresh(w, t, r);
    }
  }

  /** Over any run of the store a Recording's abandoned attempts number at most the recoveries. */
  lemma {:induction false} OnlyRecoveryAbandons(w: World, ts: seq<Txn>, r: Id)
    requires Sound(w)
    ensures Abandoned(After(w, ts), r) <= Abandoned(w, r) + Recoveries(ts)
    ensures AbandonedTries(After(w, ts), r) <= AbandonedTries(w, r) + Recoveries(ts)
    decreases |ts|
  {
    if ts != [] {
      ExecKeeps(w, ts[0]);
      TxnAbandons(w, ts[0], r);
      OnlyRecoveryAbandons(Exec(w, ts[0]).world, ts[1..], r);
    }
  }

  // -- Over a run of the service -----------------------------------------------------------

  function Restarts(steps: seq<Step>): nat {
    if steps == [] then 0 else (if steps[0].Restart? then 1 else 0) + Restarts(steps[1..])
  }

  lemma {:induction false} RecoveriesBoth(a: seq<Txn>, b: seq<Txn>)
    ensures Recoveries(a + b) == Recoveries(a) + Recoveries(b)
  {
    if a == [] {
      assert a + b == b;
    } else {
      assert (a + b)[1..] == a[1..] + b;
      RecoveriesBoth(a[1..], b);
    }
  }

  lemma {:induction false} OneRecoveryPerRestart(s: Sys, steps: seq<Step>)
    requires Legal(s, steps)
    ensures Recoveries(Trace(s, steps)) == Restarts(steps)
    decreases |steps|
  {
    if steps != [] {
      OneRecoveryPerRestart(Apply(s, steps[0]), steps[1..]);
      RecoveriesBoth(Commits(s, steps[0]), Trace(Apply(s, steps[0]), steps[1..]));
      CommitsRecovery(s, steps[0]);
    }
  }

  lemma CommitsRecovery(s: Sys, step: Step)
    requires Enabled(s, step)
    ensures Recoveries(Commits(s, step)) == if step.Restart? then 1 else 0
  {
  }

  function ManualRetries(c: Case, kind: AuditKind): nat {
    |Times(c.audit, kind)|
  }

  /**
   After any run from an empty database, with any crashes and Operator actions: at
   most nine Transcription attempts (six, for audio of up to an hour) and nine
   Delivery attempts, the same again for each manual retry, and one for each restart.
   */
  lemma AttemptsAreBounded(clock: Time, n: nat, steps: seq<Step>, r: Id)
    requires Legal(Init(clock, n), steps) && r in Run(Init(clock, n), steps).w
    ensures var c := Run(Init(clock, n), steps).w[r];
            && |c.attempts| <= 9 * (1 + ManualRetries(c, RetriedTranscription)) + Restarts(steps)
            && (TranscriptionWindow(c.rec.audioDurationMs) == 2 * HOUR ==>
                  |c.attempts| <= 6 * (1 + ManualRetries(c, RetriedTranscription)) + Restarts(steps))
            && |c.tries| <= 9 * (1 + ManualRetries(c, RetriedDelivery)) + Restarts(steps)
  {
    var s0 := Init(clock, n);
    var s := Run(s0, steps);
    InitInv(clock, n);
    RunInv(s0, steps);
    RunIsATrace(s0, steps);
    OneRecoveryPerRestart(s0, steps);
    OnlyRecoveryAbandons(map[], Trace(s0, steps), r);
    assert CaseInv(s.w[r], s.clock);
    CaseIsBounded(s.w[r], s.clock);
  }

  lemma CaseIsBounded(c: Case, clock: Time)
    requires CaseInv(c, clock)
    ensures var closed := Abandonments(c.attempts, |c.attempts|);
            && |c.attempts| <= 9 * (1 + ManualRetries(c, RetriedTranscription)) + closed
            && (TranscriptionWindow(c.rec.audioDurationMs) == 2 * HOUR ==>
                  |c.attempts| <= 6 * (1 + ManualRetries(c, RetriedTranscription)) + closed)
    ensures |c.tries| <= 9 * (1 + ManualRetries(c, RetriedDelivery)) + Abandonments(c.tries, |c.tries|)
  {
    WindowIsClamped(c.rec.audioDurationMs);
    HistoryIsBounded(TTrack(c), clock);
    if c.delivery.Some? {
      HistoryIsBounded(DTrack(c), clock);
    }
  }

  lemma {:induction false} NoRestart(steps: seq<Step>)
    requires forall i | 0 <= i < |steps| :: Autonomous(steps[i])
    ensures Restarts(steps) == 0
  {
    if steps != [] {
      NoRestart(steps[1..]);
    }
  }

  /** Left alone from the start, a Recording sees at most nine attempts of each kind. */
  lemma NineAttempts(clock: Time, n: nat, steps: seq<Step>, r: Id)
    requires Legal(Init(clock, n), steps) && r in Run(Init(clock, n), steps).w
    requires forall i | 0 <= i < |steps| :: Autonomous(steps[i])
    ensures var c := Run(Init(clock, n), steps).w[r]; |c.attempts| <= 9 && |c.tries| <= 9
  {
    InitInv(clock, n);
    RunPays(Init(clock, n), steps, r);
    AttemptsAreBounded(clock, n, steps, r);
    NoRestart(steps);
  }
}
