/**
 What the steps and the whole ticks of the service leave behind, row by row. In a
 reachable state nothing can be refused and ids hit one row, so each has one plain
 outcome, decided by the answer, the clock and the log.
 */
module Outcomes {
  import opened Domain
  import opened Ledger
  import opened Pipeline
  import opened PipelineInv
  import opened PipelineTheorems
  import opened Queues
  import opened Retry
  import opened StoreLaws
  import opened Timeline
  import opened Timestamp
  import opened Wrappers

  // -- Transcription ---------------------------------------------------------------------

  /** When the retry window at hand opened: the last manual retry in the log, else the first attempt's start. */
  function WindowOpened(c: Case): Time
    requires c.attempts != []
  {
    match Latest(Times(c.audit, RetriedTranscription))
    case Some(at) => at
    case None => c.attempts[0].startedAt
  }

  /** A start adds one row, numbered next and begun when the tick began. */
  lemma TranscriptionStarts(s: Sys, id: Id)
    requires Inv(s) && s.up && s.t.TClaimed? && !AttemptIdUsed(s.w, id)
    ensures s.t.r in s.w
    ensures var c := s.w[s.t.r];
            var d := c.(attempts := c.attempts + [Attempt(id, |c.attempts| + 1, s.t.startedAt, InProgress)]);
            Apply(s, TStart(id))
            == s.(w := s.w[s.t.r := d], t := TCalling(s.t.r, id, WindowOpened(d), c.rec.audioDurationMs))
  {
    var c := s.w[s.t.r];
    TStartIs(s, id);
    TStartInv(s, id);
    NextNumber(c.attempts);
    CallingAnchor(Apply(s, TStart(id)));
  }

  /** How an attempt ends: a retryable failure is retried exactly while the window is open. */
  function AttemptEnds(answer: Answer, now: Time, deadline: Time): AttemptState {
    match answer
    case Good(_) => Succeeded(now)
    case Retryable(message) => if now < deadline then RetryableFailure(now, message) else TerminalFailure(now, message)
    case Terminal(message) => TerminalFailure(now, message)
  }

  /** A Recording after the end of its attempt. */
  function AttemptEnded(c: Case, answer: Answer, now: Time, deadline: Time): Case
    requires c.attempts != []
  {
    var n := |c.attempts| - 1;
    var state := AttemptEnds(answer, now, deadline);
    c.(attempts := c.attempts[n := c.attempts[n].(state := state)],
       transcript := if answer.Good? then Some(Transcript(answer.text, now)) else c.transcript,
       rec := c.rec.(status := if answer.Good? then Routing
                               else if state.RetryableFailure? then Transcribing else TranscriptionFailed,
                     latestError := if answer.Good? then c.rec.latestError else Some(answer.message)))
  }

  lemma TransactionEnds(s: Sys, answer: Answer)
    requires Inv(s) && s.t.TCalling?
    ensures s.t.r in s.w && s.w[s.t.r].attempts != []
    ensures var c := s.w[s.t.r];
            var deadline := TranscriptionDeadline(s.t.anchor, s.t.audioDurationMs);
            EndTranscription(s, answer) == Outcome(s.w[s.t.r := AttemptEnded(c, answer, s.clock, deadline)], Reply.Done)
  {
    var (c, id) := (s.w[s.t.r], s.t.id);
    TFinishInv(s, answer);
    assert CaseInv(c, s.clock) && CallingCase(c, id, s.t.anchor, s.t.audioDurationMs);
    var state := AttemptEnds(answer, s.clock, TranscriptionDeadline(s.t.anchor, s.t.audioDurationMs));
    FinishIsLocal(s.w, s.t.r, id, state);
    MarkLast(c.attempts, id, state);
  }

  /** The end of an attempt: what was answered, and whether the window was still open, by the log and the clock. */
  lemma TranscriptionEnds(s: Sys, answer: Answer)
    requires Inv(s) && s.up && s.t.TCalling?
    ensures s.t.r in s.w && s.w[s.t.r].attempts != []
    ensures var c := s.w[s.t.r];
            var deadline := TranscriptionDeadline(WindowOpened(c), c.rec.audioDurationMs);
            Apply(s, TFinish(answer)) == s.(w := s.w[s.t.r := AttemptEnded(c, answer, s.clock, deadline)], t := TIdle)
  {
    TransactionEnds(s, answer);
    CallingAnchor(s);
    assert CallingCase(s.w[s.t.r], s.t.id, s.t.anchor, s.t.audioDurationMs);
  }

  // -- Delivery --------------------------------------------------------------------------

  /** A Delivery's next attempt, begun at `at`. */
  function TryBegun(c: Case, id: Id, at: Time): Case {
    c.(tries := c.tries + [Attempt(id, |c.tries| + 1, at, InProgress)])
  }

  lemma DeliveryStarts(s: Sys, id: Id)
    requires Inv(s) && s.up && s.d.DPicked? && !TryIdUsed(s.w, id)
    ensures s.d.r in s.w && s.w[s.d.r].delivery.Some?
    ensures var c := s.w[s.d.r];
            var d := TryBegun(c, id, s.d.startedAt);
            Apply(s, DStart(id))
            == s.(w := s.w[s.d.r := d], d := DCalling(s.d.r, id, c.delivery.value.retryDeadlineAt))
    ensures Inv(Apply(s, DStart(id)))
  {
    var c := s.w[s.d.r];
    DStartInv(s, id);
    assert CaseInv(c, s.clock);
    NextNumber(c.tries);
  }

  /** A Recording after the end of its delivery attempt. */
  function TryEnded(c: Case, answer: Answer, now: Time, deadline: Time): Case
    requires c.tries != [] && c.delivery.Some?
  {
    var n := |c.tries| - 1;
    var state := AttemptEnds(answer, now, deadline);
    var waits := state.RetryableFailure?;
    var d := c.delivery.value.(
      status := if answer.Good? then Complete else if waits then InDelivery else Failed,
      completedAt := if waits then c.delivery.value.completedAt else Some(now),
      latestError := if answer.Good? then c.delivery.value.latestError else Some(answer.message));
    c.(tries := c.tries[n := c.tries[n].(state := state)],
       delivery := Some(d),
       rec := c.rec.(status := if answer.Good? then Delivered else if waits then Delivering else DeliveryFailed,
                     latestError := if answer.Good? then c.rec.latestError else Some(answer.message)))
  }

  lemma DeliveryTransactionEnds(s: Sys, answer: Answer)
    requires Inv(s) && s.d.DCalling?
    ensures s.d.r in s.w && s.w[s.d.r].tries != [] && s.w[s.d.r].delivery.Some? && s.d.deadline.Some?
    ensures EndDelivery(s, answer)
            == Outcome(s.w[s.d.r := TryEnded(s.w[s.d.r], answer, s.clock, s.d.deadline.value)], Reply.Done)
  {
    var (c, id) := (s.w[s.d.r], s.d.id);
    DFinishInv(s, answer);
    assert CaseInv(c, s.clock) && DeliveringCase(c, id, s.d.deadline);
    var state := AttemptEnds(answer, s.clock, s.d.deadline.value);
    FinishTryIsLocal(s.w, s.d.r, id, state);
    MarkLast(c.tries, id, state);
    var n := |c.tries| - 1;
    assert FinishTry(s.w, id, state)[s.d.r] == c.(tries := c.tries[n := c.tries[n].(state := state)]);
  }

  /** When the retry window of a Delivery opened: the last manual retry in the log, else the selection. */
  function DeliveryOpened(c: Case): Time
    requires c.delivery.Some?
  {
    match Latest(Times(c.audit, RetriedDelivery))
    case Some(at) => at
    case None => c.delivery.value.selectedAt
  }

  lemma HeldToADay(s: Sys)
    requires Inv(s) && s.d.DCalling?
    ensures s.d.r in s.w && s.w[s.d.r].delivery.Some?
    ensures s.d.deadline == Some(DeliveryOpened(s.w[s.d.r]) + 24 * HOUR)
  {
    var c := s.w[s.d.r];
    assert CaseInv(c, s.clock) && DeliveringCase(c, s.d.id, s.d.deadline);
  }

  /** The end of a delivery attempt: a retryable failure is retried for 24 h. */
  lemma DeliveryEnds(s: Sys, answer: Answer)
    requires Inv(s) && s.up && s.d.DCalling?
    ensures s.d.r in s.w && s.w[s.d.r].tries != [] && s.w[s.d.r].delivery.Some?
    ensures var c := s.w[s.d.r];
            Apply(s, DFinish(answer))
            == s.(w := s.w[s.d.r := TryEnded(c, answer, s.clock, DeliveryOpened(c) + 24 * HOUR)], d := DIdle)
  {
    HeldToADay(s);
    DeliveryTransactionEnds(s, answer);
  }

  // -- Routing ---------------------------------------------------------------------------

  /** What a routing decision read at `now` makes of a Recording that is still `routing`. */
  function RouteTaken(c: Case, v: Verdict, now: Time): Case {
    match v
    case ToBacklog => c.(rec := c.rec.(status := Backlogged))
    case ToSink(id, sink) =>
      c.(delivery := Some(Delivery(id, sink, InDelivery, now, None, Some(now + 24 * HOUR), None, None)),
         rec := c.rec.(status := Delivering, selectedSink := Some(sink)))
  }

  lemma RoutingEnds(s: Sys, i: nat, v: Verdict)
    requires Inv(s) && s.up && i < |s.routers| && s.routers[i].RHolding?
    requires v.ToSink? ==> !DeliveryIdUsed(s.w, v.id)
    ensures var (r, now) := (s.routers[i].r, s.routers[i].now);
            && r in s.w
            && Apply(s, RDecide(i, v))
               == s.(routers := s.routers[i := RIdle],
                     w := if s.w[r].rec.status == Routing then s.w[r := RouteTaken(s.w[r], v, now)] else s.w)
  {
    assert RoutingLoopInv(s.w, s.clock, s.routers[i]);
    var (r, now) := (s.routers[i].r, s.routers[i].now);
    DecideInv(s, r, now, v);
    assert CaseInv(s.w[r], s.clock);
  }

  // -- The Operator ----------------------------------------------------------------------

  /** Manual Routing works exactly in the Backlog, once an id is given out. */
  lemma OperatorRoutes(s: Sys, r: Id, id: Id, sink: string, at: Time)
    requires Inv(s) && s.up && Enabled(s, OpRoute(r, id, sink, at))
    ensures Apply(s, OpRoute(r, id, sink, at)) == s.(w :=
      if r in s.w && s.w[r].rec.status == Backlogged then
        var d := RouteTaken(s.w[r], ToSink(id, sink), at);
        s.w[r := d.(audit := d.audit + [AuditEvent(at, RoutedManually(sink))])]
      else s.w)
    ensures ManualRoute(s.w, r, id, sink, at, at + 24 * HOUR).reply ==
      if r !in s.w then Refused(RecordingNotFound)
      else if s.w[r].rec.status != Backlogged then Refused(RecordingNotBacklogged(s.w[r].rec.status))
      else Reply.Done
  {
    if r in s.w {
      assert CaseInv(s.w[r], s.clock);
    }
  }

  /**
   A manual retry works exactly on a failed Recording: it opens a window, clears the
   error, and keeps every row.
   */
  lemma OperatorRetriesTranscription(s: Sys, r: Id, at: Time)
    requires Inv(s) && s.up && at <= s.clock
    ensures Apply(s, OpRetryTranscription(r, at)) == s.(w :=
      if r in s.w && s.w[r].rec.status == TranscriptionFailed then
        var rec := s.w[r].rec.(status := Transcribing, latestError := None, retryWindowStartedAt := Some(at));
        s.w[r := s.w[r].(rec := rec, audit := s.w[r].audit + [AuditEvent(at, RetriedTranscription)])]
      else s.w)
    ensures ManualRetryTranscription(s.w, r, at).reply ==
      if r !in s.w then Refused(RecordingNotFound)
      else if s.w[r].rec.status != TranscriptionFailed then Refused(RecordingNotRetryable(s.w[r].rec.status))
      else Reply.Done
  {
  }

  lemma OperatorRetriesDelivery(s: Sys, r: Id, at: Time)
    requires Inv(s) && s.up && at <= s.clock
    ensures r in s.w && s.w[r].rec.status == DeliveryFailed ==> s.w[r].delivery.Some?
    ensures Apply(s, OpRetryDelivery(r, at)) == s.(w :=
      if r in s.w && s.w[r].rec.status == DeliveryFailed then
        s.w[r := s.w[r].(rec := s.w[r].rec.(status := Delivering, latestError := None),
                         delivery := Some(s.w[r].delivery.value.(
                           status := InDelivery, completedAt := None, latestError := None,
                           retryDeadlineAt := Some(at + 24 * HOUR), retryWindowStartedAt := Some(at))),
                         audit := s.w[r].audit + [AuditEvent(at, RetriedDelivery)])]
      else s.w)
    ensures ManualRetryDelivery(s.w, r, at, at + 24 * HOUR).reply ==
      if r !in s.w then Refused(RecordingNotFound)
      else if s.w[r].rec.status != DeliveryFailed then Refused(RecordingNotRetryable(s.w[r].rec.status))
      else Reply.Done
  {
    if r in s.w {
      assert CaseInv(s.w[r], s.clock);
    }
  }

  // -- Whole ticks -----------------------------------------------------------------------

  lemma Peel(s: Sys, step: Step, rest: seq<Step>)
    requires Legal(s, [step] + rest)
    ensures Enabled(s, step) && Legal(Apply(s, step), rest)
    ensures Run(s, [step] + rest) == Run(Apply(s, step), rest)
  {
    assert ([step] + rest)[1..] == rest;
  }

  function Taken(c: Case): Case {
    c.(rec := c.rec.(status := Transcribing))
  }

  lemma ClaimTakes(s: Sys, r: Id)
    requires Inv(s) && s.up && Enabled(s, TClaim(r))
    ensures r in s.w && Inv(Apply(s, TClaim(r)))
    ensures Apply(s, TClaim(r))
            == s.(w := s.w[r := Taken(s.w[r])], t := TClaimed(r, s.t.startedAt, s.w[r].rec.audioDurationMs))
  {
    LoopStepInv(s, TClaim(r));
  }

  lemma PickTakes(s: Sys, r: Id)
    requires Inv(s) && s.up && Enabled(s, TPick(r))
    ensures r in s.w && Inv(Apply(s, TPick(r)))
    ensures Apply(s, TPick(r))
            == s.(w := s.w[r := Taken(s.w[r])], t := TClaimed(r, s.t.startedAt, s.w[r].rec.audioDurationMs))
  {
    LoopStepInv(s, TPick(r));
    assert Taken(s.w[r]) == s.w[r];
    assert s.w[r := s.w[r]] == s.w;
  }

  /** The provider takes until `end`. */
  lemma CallToEnd(s: Sys, end: Time, answer: Answer)
    requires Inv(s) && s.up && s.t.TCalling? && Legal(s, [Advance(end), TFinish(answer)])
    ensures s.t.r in s.w && s.w[s.t.r].attempts != []
    ensures var c := s.w[s.t.r];
            var deadline := TranscriptionDeadline(WindowOpened(c), c.rec.audioDurationMs);
            Run(s, [Advance(end), TFinish(answer)])
            == s.(clock := end, w := s.w[s.t.r := AttemptEnded(c, answer, end, deadline)], t := TIdle)
  {
    Peel(s, Advance(end), [TFinish(answer)]);
    AdvanceInv(s, end);
    Peel(s.(clock := end), TFinish(answer), []);
    TranscriptionEnds(s.(clock := end), answer);
  }

  /** From the moment a Recording is taken to the end of its attempt. */
  lemma TakenToEnd(s: Sys, id: Id, end: Time, answer: Answer)
    requires Inv(s) && s.up && s.t.TClaimed? && Legal(s, [TStart(id), Advance(end), TFinish(answer)])
    ensures s.t.r in s.w
    ensures var c := s.w[s.t.r];
            var d := c.(attempts := c.attempts + [Attempt(id, |c.attempts| + 1, s.t.startedAt, InProgress)]);
            var deadline := TranscriptionDeadline(WindowOpened(d), c.rec.audioDurationMs);
            Run(s, [TStart(id), Advance(end), TFinish(answer)])
            == s.(clock := end, w := s.w[s.t.r := AttemptEnded(d, answer, end, deadline)], t := TIdle)
  {
    Peel(s, TStart(id), [Advance(end), TFinish(answer)]);
    TranscriptionStarts(s, id);
    TStartInv(s, id);
    CallToEnd(Apply(s, TStart(id)), end, answer);
  }

  /** A Recording after a whole Transcription tick that began at `start` and was answered at `end`. */
  function TranscriptionTicked(c: Case, id: Id, start: Time, answer: Answer, end: Time): Case {
    var d := Taken(c).(attempts := c.attempts + [Attempt(id, |c.attempts| + 1, start, InProgress)]);
    AttemptEnded(d, answer, end, TranscriptionDeadline(WindowOpened(d), c.rec.audioDurationMs))
  }

  lemma ClaimToEnd(s: Sys, r: Id, id: Id, end: Time, answer: Answer)
    requires Inv(s) && s.up && s.t.TBegun?
    requires Legal(s, [TClaim(r)] + [TStart(id), Advance(end), TFinish(answer)])
    ensures OldestReceived(s.w, r)
    ensures Run(s, [TClaim(r)] + [TStart(id), Advance(end), TFinish(answer)])
            == s.(clock := end, w := s.w[r := TranscriptionTicked(s.w[r], id, s.t.startedAt, answer, end)], t := TIdle)
  {
    Peel(s, TClaim(r), [TStart(id), Advance(end), TFinish(answer)]);
    ClaimTakes(s, r);
    TakenToEnd(Apply(s, TClaim(r)), id, end, answer);
  }

  /** A tick that finds a received Recording. */
  lemma FirstAttemptTick(s: Sys, r: Id, id: Id, end: Time, answer: Answer)
    requires Inv(s) && s.up && s.t.TIdle?
    requires Legal(s, [TBegin, TClaim(r), TStart(id), Advance(end), TFinish(answer)])
    ensures OldestReceived(s.w, r)
    ensures Run(s, [TBegin, TClaim(r), TStart(id), Advance(end), TFinish(answer)])
            == s.(clock := end, w := s.w[r := TranscriptionTicked(s.w[r], id, s.clock, answer, end)])
  {
    var rest := [TClaim(r)] + [TStart(id), Advance(end), TFinish(answer)];
    assert [TBegin, TClaim(r), TStart(id), Advance(end), TFinish(answer)] == [TBegin] + rest;
    Peel(s, TBegin, rest);
    TBeginInv(s);
    ClaimToEnd(s.(t := TBegun(s.clock)), r, id, end, answer);
  }

  lemma ScanToEnd(s: Sys, r: Id, id: Id, end: Time, answer: Answer)
    requires Inv(s) && s.up && s.t.TScanning?
    requires Legal(s, [TPick(r)] + [TStart(id), Advance(end), TFinish(answer)])
    ensures OldestDueRetry(s.w, r, s.t.startedAt)
    ensures Run(s, [TPick(r)] + [TStart(id), Advance(end), TFinish(answer)])
            == s.(clock := end, w := s.w[r := TranscriptionTicked(s.w[r], id, s.t.startedAt, answer, end)], t := TIdle)
  {
    Peel(s, TPick(r), [TStart(id), Advance(end), TFinish(answer)]);
    PickTakes(s, r);
    TakenToEnd(Apply(s, TPick(r)), id, end, answer);
  }

  /** A tick that finds none, and then a retry that is due. */
  lemma RetryTick(s: Sys, r: Id, id: Id, end: Time, answer: Answer)
    requires Inv(s) && s.up && s.t.TIdle?
    requires Legal(s, [TBegin, TNoneReceived, TPick(r), TStart(id), Advance(end), TFinish(answer)])
    ensures OldestDueRetry(s.w, r, s.clock) && forall q :: !IsReceived(s.w, q)
    ensures Run(s, [TBegin, TNoneReceived, TPick(r), TStart(id), Advance(end), TFinish(answer)])
            == s.(clock := end, w := s.w[r := TranscriptionTicked(s.w[r], id, s.clock, answer, end)])
  {
    var rest := [TPick(r)] + [TStart(id), Advance(end), TFinish(answer)];
    var steps := [TBegin, TNoneReceived, TPick(r), TStart(id), Advance(end), TFinish(answer)];
    assert steps == [TBegin] + ([TNoneReceived] + rest);
    Peel(s, TBegin, [TNoneReceived] + rest);
    TBeginInv(s);
    var begun := s.(t := TBegun(s.clock));
    Peel(begun, TNoneReceived, rest);
    LoopStepInv(begun, TNoneReceived);
    ScanToEnd(s.(t := TScanning(s.clock)), r, id, end, answer);
  }

  lemma HeldToEnd(s: Sys, i: nat, r: Id, v: Verdict)
    requires Inv(s) && s.up && i < |s.routers| && s.routers[i].RBegun?
    requires Legal(s, [RPick(i, r)] + [RDecide(i, v)])
    ensures OldestRouting(s.w, r)
    ensures Run(s, [RPick(i, r)] + [RDecide(i, v)])
            == s.(routers := s.routers[i := RIdle], w := s.w[r := RouteTaken(s.w[r], v, s.routers[i].now)])
  {
    Peel(s, RPick(i, r), [RDecide(i, v)]);
    RoutingStepInv(s, RPick(i, r));
    var held := Apply(s, RPick(i, r));
    Peel(held, RDecide(i, v), []);
    RoutingEnds(held, i, v);
    assert held.routers[i := RIdle] == s.routers[i := RIdle];
  }

  lemma RoutingTick(s: Sys, i: nat, r: Id, v: Verdict)
    requires Inv(s) && s.up && i < |s.routers| && s.routers[i].RIdle?
    requires Legal(s, [RBegin(i), RPick(i, r), RDecide(i, v)])
    ensures OldestRouting(s.w, r)
    ensures Run(s, [RBegin(i), RPick(i, r), RDecide(i, v)]) == s.(w := s.w[r := RouteTaken(s.w[r], v, s.clock)])
  {
    assert [RBegin(i), RPick(i, r), RDecide(i, v)] == [RBegin(i)] + ([RPick(i, r)] + [RDecide(i, v)]);
    Peel(s, RBegin(i), [RPick(i, r)] + [RDecide(i, v)]);
    RoutingStepInv(s, RBegin(i));
    var begun := s.(routers := s.routers[i := RBegun(s.clock)]);
    HeldToEnd(begun, i, r, v);
    assert begun.routers[i := RIdle] == s.routers;
  }

  function DeliveryTicked(c: Case, id: Id, start: Time, answer: Answer, end: Time): Case
    requires c.delivery.Some?
  {
    var d := TryBegun(c, id, start);
    TryEnded(d, answer, end, DeliveryOpened(d) + 24 * HOUR)
  }

  lemma SinkToEnd(s: Sys, end: Time, answer: Answer)
    requires Inv(s) && s.up && s.d.DCalling? && Legal(s, [Advance(end), DFinish(answer)])
    ensures s.d.r in s.w && s.w[s.d.r].tries != [] && s.w[s.d.r].delivery.Some?
    ensures var c := s.w[s.d.r];
            Run(s, [Advance(end), DFinish(answer)])
            == s.(clock := end, w := s.w[s.d.r := TryEnded(c, answer, end, DeliveryOpened(c) + 24 * HOUR)], d := DIdle)
  {
    Peel(s, Advance(end), [DFinish(answer)]);
    AdvanceInv(s, end);
    Peel(s.(clock := end), DFinish(answer), []);
    DeliveryEnds(s.(clock := end), answer);
  }

  lemma PickedToEnd(s: Sys, id: Id, end: Time, answer: Answer)
    requires Inv(s) && s.up && s.d.DPicked? && Legal(s, [DStart(id), Advance(end), DFinish(answer)])
    ensures s.d.r in s.w && s.w[s.d.r].delivery.Some?
    ensures var c := s.w[s.d.r];
            var d := TryBegun(c, id, s.d.startedAt);
            Run(s, [DStart(id), Advance(end), DFinish(answer)])
            == s.(clock := end, w := s.w[s.d.r := TryEnded(d, answer, end, DeliveryOpened(d) + 24 * HOUR)], d := DIdle)
  {
    Peel(s, DStart(id), [Advance(end), DFinish(answer)]);
    DeliveryStarts(s, id);
    SinkToEnd(Apply(s, DStart(id)), end, answer);
  }

  lemma DeliveryPicks(s: Sys, r: Id)
    requires Inv(s) && s.up && Enabled(s, DPick(r))
    ensures r in s.w && s.w[r].delivery.Some? && Inv(Apply(s, DPick(r)))
    ensures Apply(s, DPick(r)) == s.(d := DPicked(r, s.d.startedAt, s.w[r].delivery.value.retryDeadlineAt))
  {
    DeliveryStepInv(s, DPick(r));
  }

  lemma DeliveryPickToEnd(s: Sys, r: Id, id: Id, end: Time, answer: Answer)
    requires Inv(s) && s.up && s.d.DBegun?
    requires Legal(s, [DPick(r)] + [DStart(id), Advance(end), DFinish(answer)])
    ensures OldestDueDelivery(s.w, r, s.d.startedAt)
    ensures Run(s, [DPick(r)] + [DStart(id), Advance(end), DFinish(answer)])
            == s.(clock := end, w := s.w[r := DeliveryTicked(s.w[r], id, s.d.startedAt, answer, end)], d := DIdle)
  {
    Peel(s, DPick(r), [DStart(id), Advance(end), DFinish(answer)]);
    DeliveryPicks(s, r);
    PickedToEnd(Apply(s, DPick(r)), id, end, answer);
  }

  lemma DeliveryTick(s: Sys, r: Id, id: Id, end: Time, answer: Answer)
    requires Inv(s) && s.up && s.d.DIdle?
    requires Legal(s, [DBegin, DPick(r), DStart(id), Advance(end), DFinish(answer)])
    ensures OldestDueDelivery(s.w, r, s.clock)
    ensures Run(s, [DBegin, DPick(r), DStart(id), Advance(end), DFinish(answer)])
            == s.(clock := end, w := s.w[r := DeliveryTicked(s.w[r], id, s.clock, answer, end)])
  {
    var rest := [DPick(r)] + [DStart(id), Advance(end), DFinish(answer)];
    assert [DBegin, DPick(r), DStart(id), Advance(end), DFinish(answer)] == [DBegin] + rest;
    Peel(s, DBegin, rest);
    DBeginInv(s);
    DeliveryPickToEnd(s.(d := DBegun(s.clock)), r, id, end, answer);
  }
}
