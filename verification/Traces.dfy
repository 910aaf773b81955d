/** Every run of the service is a sequence of store transactions, so the store's own laws hold of it. */
module Traces {
  import opened Domain
  import opened Ledger
  import opened Pipeline
  import opened Retry
  import opened StoreTheorems
  import opened Timestamp
  import opened Wrappers

  function AnswerTxn(s: Sys, answer: Answer): Txn
    requires s.t.TCalling?
  {
    match answer
    case Good(text) => SucceedAttempt(s.t.id, s.t.r, s.clock, text)
    case Retryable(message) =>
      if s.clock >= TranscriptionDeadline(s.t.anchor, s.t.audioDurationMs)
      then FailAttempt(s.t.id, s.t.r, s.clock, message)
      else RetryAttempt(s.t.id, s.t.r, s.clock, message)
    case Terminal(message) => FailAttempt(s.t.id, s.t.r, s.clock, message)
  }

  function TryTxn(s: Sys, answer: Answer): Txn
    requires s.d.DCalling?
  {
    match answer
    case Good(_) => SucceedTry(s.d.id, s.d.r, s.clock)
    case Retryable(message) =>
      if s.d.deadline.Some? && s.clock >= s.d.deadline.value
      then FailTry(s.d.id, s.d.r, s.clock, message)
      else RetryTry(s.d.id, s.d.r, s.clock, message)
    case Terminal(message) => FailTry(s.d.id, s.d.r, s.clock, message)
  }

  function VerdictTxn(s: Sys, r: Id, now: Time, v: Verdict): Txn {
    match v
    case ToBacklog => Backlog(r)
    case ToSink(id, sink) => Route(r, NewDelivery(id, sink, now, Some(now + DELIVERY_WINDOW)))
  }

  /** The transaction a step commits, if it commits one. */
  ghost function Commits(s: Sys, step: Step): seq<Txn>
    requires Enabled(s, step)
  {
    if step.Arrive? then [Upload(step.id, step.n)]
    else if step.TClaim? then [Claim(step.r)]
    else if step.TStart? then [StartAttempt(step.id, s.t.r, s.t.startedAt)]
    else if step.TFinish? then [AnswerTxn(s, step.answer)]
    else if step.RDecide? then [VerdictTxn(s, s.routers[step.i].r, s.routers[step.i].now, step.verdict)]
    else if step.DStart? then [StartTry(step.id, s.d.r, s.d.startedAt)]
    else if step.DFinish? then [TryTxn(s, step.answer)]
    else if step.OpRoute? then [RouteByHand(step.r, step.id, step.sink, step.at, step.at + DELIVERY_WINDOW)]
    else if step.OpRetryTranscription? then [RetryTranscriptionByHand(step.r, step.at)]
    else if step.OpRetryDelivery? then [RetryDeliveryByHand(step.r, step.at, step.at + DELIVERY_WINDOW)]
    else if step.Restart? then [Recovery(s.clock)]
    else []
  }

  /** A refused transaction is rolled back. */
  lemma RefusalsRollBack(w: World, t: Txn)
    ensures Exec(w, t).reply.Refused? ==> Exec(w, t).world == w
  {
  }

  lemma StepCommits(s: Sys, step: Step)
    requires Enabled(s, step)
    ensures Apply(s, step).w == After(s.w, Commits(s, step))
  {
    var ts := Commits(s, step);
    if ts != [] {
      assert ts[1..] == [];
      assert After(s.w, ts) == Exec(s.w, ts[0]).world;
      RefusalsRollBack(s.w, ts[0]);
    }
  }

  ghost function Trace(s: Sys, steps: seq<Step>): seq<Txn>
    requires Legal(s, steps)
    decreases |steps|
  {
    if steps == [] then [] else Commits(s, steps[0]) + Trace(Apply(s, steps[0]), steps[1..])
  }

  lemma {:induction false} AfterBoth(w: World, a: seq<Txn>, b: seq<Txn>)
    ensures After(w, a + b) == After(After(w, a), b)
    decreases |a|
  {
    if a == [] {
      assert a + b == b;
    } else {
      assert (a + b)[1..] == a[1..] + b;
      AfterBoth(Exec(w, a[0]).world, a[1..], b);
    }
  }

  lemma {:induction false} RunIsATrace(s: Sys, steps: seq<Step>)
    requires Legal(s, steps)
    ensures Run(s, steps).w == After(s.w, Trace(s, steps))
    decreases |steps|
  {
    if steps != [] {
      var v := Apply(s, steps[0]);
      StepCommits(s, steps[0]);
      RunIsATrace(v, steps[1..]);
      AfterBoth(s.w, Commits(s, steps[0]), Trace(v, steps[1..]));
    }
  }

  /**
   What the Operator and any number of Routing loops can do to one Recording over
   a whole run of the service: nothing is undone, one decision, one Delivery, at
   most one way out of the Backlog, and a status history along the graph.
   */
  lemma ServiceKeepsItsWord(clock: Time, n: nat, steps: seq<Step>, more: seq<Step>, r: Id)
    requires Legal(Init(clock, n), steps)
    requires Legal(Run(Init(clock, n), steps), more)
    ensures var s := Run(Init(clock, n), steps);
            var v := Run(s, more).w;
            var ts := Trace(s, more);
            && (r in s.w ==> r in v && Kept(s.w[r], v[r]))
            && RoutingExits(s.w, ts, r) == (if !IsRouted(s.w, r) && IsRouted(v, r) then 1 else 0)
            && DeliveriesCreated(s.w, ts, r) == (if !IsDispatched(s.w, r) && IsDispatched(v, r) then 1 else 0)
            && ManualRoutings(v, r) == ManualRoutings(s.w, r) + BacklogExits(s.w, ts, r)
            && BacklogExits(s.w, ts, r) <= 1
            && IsPath(History(s.w, ts, r), ts)
  {
    var s0 := Init(clock, n);
    var s := Run(s0, steps);
    RunIsATrace(s0, steps);
    RunsStaySound(map[], Trace(s0, steps));
    RunIsATrace(s, more);
    var ts := Trace(s, more);
    if r in s.w {
      NothingIsUndone(s.w, ts, r);
    }
    OneDecision(s.w, ts, r);
    ManualRoutingIsCounted(s.w, ts, r);
    LeavesBacklogOnce(s.w, ts, r);
    EveryHistoryIsAPath(s.w, ts, r);
  }
}
