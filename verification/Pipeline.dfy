/**
 The running service: one Transcription loop, one Delivery loop, any number of
 Routing loops, uploads, Operator actions, crashes and restarts, interleaved at
 the granularity of clock reads and store transactions.

 A tick spans several steps, so each loop is a program counter holding what the
 tick has read so far. A crash stops every step; the restart discards the
 counters and runs recovery before anything else. A tick that reports an error
 ends the process, which is a crash.
 */
module Pipeline {
  import opened Domain
  import opened Ledger
  import opened Queues
  import opened Retry
  import opened Timestamp
  import opened Wrappers

  datatype TranscriptionLoop =
    | TIdle
    | TBegun(startedAt: Time)
    | TScanning(startedAt: Time)
    | TClaimed(r: Id, startedAt: Time, audioDurationMs: Option<int>)
    | TCalling(r: Id, id: Id, anchor: Time, audioDurationMs: Option<int>)

  datatype DeliveryLoop =
    | DIdle
    | DBegun(startedAt: Time)
    | DPicked(r: Id, startedAt: Time, deadline: Option<Time>)
    | DCalling(r: Id, id: Id, deadline: Option<Time>)

  datatype RoutingLoop =
    | RIdle
    | RBegun(now: Time)
    | RHolding(r: Id, now: Time)

  datatype Sys = Sys(
    w: World,
    clock: Time,
    up: bool,
    t: TranscriptionLoop,
    d: DeliveryLoop,
    routers: seq<RoutingLoop>)

  /** What a provider or a Sink answers. */
  datatype Answer = Good(text: string) | Retryable(message: string) | Terminal(message: string)

  datatype Step =
    | Advance(to: Time)
    | Arrive(id: Id, n: NewRecording)
    | TBegin
    | TClaim(r: Id)
    | TNoneReceived
    | TPick(r: Id)
    | TNothing
    | TStart(id: Id)
    | TFinish(answer: Answer)
    | RBegin(i: nat)
    | RPick(i: nat, r: Id)
    | RNothing(i: nat)
    | RDecide(i: nat, verdict: Verdict)
    | DBegin
    | DPick(r: Id)
    | DNothing
    | DScanFails
    | DStart(id: Id)
    | DFinish(answer: Answer)
    | OpRoute(r: Id, id: Id, sink: string, at: Time)
    | OpRetryTranscription(r: Id, at: Time)
    | OpRetryDelivery(r: Id, at: Time)
    | Crash
    | Restart

  // -- Steps ---------------------------------------------------------------------------

  /** A step the service may take. Identifiers handed out are fresh; times read are not in the future. */
  ghost predicate Enabled(s: Sys, step: Step) {
    if step.Advance? then s.clock <= step.to
    else if step.Crash? then s.up
    else if step.Restart? then !s.up
    else s.up && EnabledWhenUp(s, step)
  }

  ghost predicate EnabledWhenUp(s: Sys, step: Step) {
    match step
    case Arrive(id, n) => id !in s.w && n.receivedAt <= s.clock
    case TBegin => s.t.TIdle?
    case TClaim(r) => s.t.TBegun? && OldestReceived(s.w, r)
    case TNoneReceived => s.t.TBegun? && forall q :: !IsReceived(s.w, q)
    case TPick(r) => s.t.TScanning? && OldestDueRetry(s.w, r, s.t.startedAt)
    case TNothing => s.t.TScanning? && forall q :: !DueForRetry(s.w, q, s.t.startedAt)
    case TStart(id) => s.t.TClaimed? && !AttemptIdUsed(s.w, id)
    case TFinish(_) => s.t.TCalling?
    case RBegin(i) => i < |s.routers| && s.routers[i].RIdle?
    case RPick(i, r) => i < |s.routers| && s.routers[i].RBegun? && OldestRouting(s.w, r)
    case RNothing(i) => i < |s.routers| && s.routers[i].RBegun? && forall q :: !IsRouting(s.w, q)
    case RDecide(i, v) => i < |s.routers| && s.routers[i].RHolding? && (v.ToSink? ==> !DeliveryIdUsed(s.w, v.id))
    case DBegin => s.d.DIdle?
    case DPick(r) => s.d.DBegun? && DeliveryScanWorks(s.w) && OldestDueDelivery(s.w, r, s.d.startedAt)
    case DNothing => s.d.DBegun? && DeliveryScanWorks(s.w) && forall q :: !DueForDelivery(s.w, q, s.d.startedAt)
    case DScanFails => s.d.DBegun? && !DeliveryScanWorks(s.w)
    case DStart(id) => s.d.DPicked? && !TryIdUsed(s.w, id)
    case DFinish(_) => s.d.DCalling?
    case OpRoute(_, id, _, at) => at <= s.clock && !DeliveryIdUsed(s.w, id)
    case OpRetryTranscription(_, at) => at <= s.clock
    case OpRetryDelivery(_, at) => at <= s.clock
    case Advance(_) => false
    case Crash => false
    case Restart => false
  }

  /** A retryable failure past its deadline becomes terminal. */
  function EndTranscription(s: Sys, answer: Answer): Outcome
    requires s.t.TCalling?
  {
    match answer
    case Good(text) => SucceedTranscription(s.w, s.t.id, s.t.r, s.clock, text)
    case Retryable(message) =>
      if s.clock >= TranscriptionDeadline(s.t.anchor, s.t.audioDurationMs)
      then FailTranscription(s.w, s.t.id, s.t.r, s.clock, message)
      else RetryTranscription(s.w, s.t.id, s.t.r, s.clock, message)
    case Terminal(message) => FailTranscription(s.w, s.t.id, s.t.r, s.clock, message)
  }

  function EndDelivery(s: Sys, answer: Answer): Outcome
    requires s.d.DCalling?
  {
    match answer
    case Good(_) => SucceedDelivery(s.w, s.d.id, s.d.r, s.clock)
    case Retryable(message) =>
      if s.d.deadline.Some? && s.clock >= s.d.deadline.value
      then FailDelivery(s.w, s.d.id, s.d.r, s.clock, message)
      else RetryDelivery(s.w, s.d.id, s.d.r, s.clock, message)
    case Terminal(message) => FailDelivery(s.w, s.d.id, s.d.r, s.clock, message)
  }

  /** The state after a tick's transaction: an error ends the process. */
  function Settle(s: Sys, o: Outcome, fatal: bool, next: Sys): Sys {
    if fatal then s.(up := false) else next.(w := o.world)
  }

  ghost function Apply(s: Sys, step: Step): Sys
    requires Enabled(s, step)
  {
    match step
    case Advance(to) => s.(clock := to)
    case Arrive(id, n) => s.(w := CreateRecording(s.w, id, n).world)
    case TBegin => s.(t := TBegun(s.clock))
    case TClaim(r) =>
      s.(w := ClaimReceived(s.w, r).world, t := TClaimed(r, s.t.startedAt, s.w[r].rec.audioDurationMs))
    case TNoneReceived => s.(t := TScanning(s.t.startedAt))
    case TPick(r) => s.(t := TClaimed(r, s.t.startedAt, s.w[r].rec.audioDurationMs))
    case TNothing => s.(t := TIdle)
    case TStart(id) =>
      var o := StartTranscription(s.w, id, s.t.r, s.t.startedAt);
      var next := if o.reply.Started? then TCalling(s.t.r, id, o.reply.anchor, s.t.audioDurationMs) else TIdle;
      Settle(s, o, o.reply.Refused?, s.(t := next))
    case TFinish(answer) =>
      var o := EndTranscription(s, answer);
      Settle(s, o, o.reply.Refused?, s.(t := TIdle))
    case RBegin(i) => s.(routers := s.routers[i := RBegun(s.clock)])
    case RPick(i, r) => s.(routers := s.routers[i := RHolding(r, s.routers[i].now)])
    case RNothing(i) => s.(routers := s.routers[i := RIdle])
    case RDecide(i, v) =>
      var o := DecideRoute(s.w, s.routers[i].r, s.routers[i].now, v);
      Settle(s, o, Fatal(o.reply), s.(routers := s.routers[i := RIdle]))
    case DBegin => s.(d := DBegun(s.clock))
    case DPick(r) => s.(d := DPicked(r, s.d.startedAt, s.w[r].delivery.value.retryDeadlineAt))
    case DNothing => s.(d := DIdle)
    case DScanFails => s.(up := false)
    case DStart(id) =>
      var o := StartDelivery(s.w, id, s.d.r, s.d.startedAt);
      var next := if o.reply.Started? then DCalling(s.d.r, id, s.d.deadline) else DIdle;
      Settle(s, o, o.reply.Refused?, s.(d := next))
    case DFinish(answer) =>
      var o := EndDelivery(s, answer);
      Settle(s, o, o.reply.Refused?, s.(d := DIdle))
    case OpRoute(r, id, sink, at) => s.(w := ManualRoute(s.w, r, id, sink, at, at + DELIVERY_WINDOW).world)
    case OpRetryTranscription(r, at) => s.(w := ManualRetryTranscription(s.w, r, at).world)
    case OpRetryDelivery(r, at) => s.(w := ManualRetryDelivery(s.w, r, at, at + DELIVERY_WINDOW).world)
    case Crash => s.(up := false)
    case Restart =>
      s.(w := Recover(s.w, s.clock), up := true, t := TIdle, d := DIdle,
         routers := seq(|s.routers|, _ => RIdle))
  }

  // -- Runs ------------------------------------------------------------------------------

  /** A first start on an empty database, with `n` Routing loops. */
  function Init(clock: Time, n: nat): Sys {
    Sys(map[], clock, true, TIdle, DIdle, seq(n, _ => RIdle))
  }

  ghost predicate Legal(s: Sys, steps: seq<Step>)
    decreases |steps|
  {
    steps == [] || (Enabled(s, steps[0]) && Legal(Apply(s, steps[0]), steps[1..]))
  }

  ghost function Run(s: Sys, steps: seq<Step>): Sys
    requires Legal(s, steps)
    decreases |steps|
  {
    if steps == [] then s else Run(Apply(s, steps[0]), steps[1..])
  }
}
