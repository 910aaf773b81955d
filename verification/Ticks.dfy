/** Ticks as stretches of the state machine's runs. */
module Ticks {
  import opened Domain
  import opened Ledger
  import opened Pipeline
  import opened Queues
  import opened Timestamp
  import opened Wrappers

  datatype WorkOutcome = Worked | Idle

  type Tick = Result<WorkOutcome, StoreError>

  /** The service as one tick sees it, between ticks of its own loop. */
  function Alone(w: World, clock: Time): Sys {
    Sys(w, clock, true, TIdle, DIdle, [RIdle])
  }

  /**
   `steps` are legal from `s` and end with the store at `v`; the machine stops
   exactly if the tick reported an error, and is otherwise between ticks.
   */
  ghost predicate Ends(s: Sys, steps: seq<Step>, v: World, tick: Tick) {
    && Legal(s, steps)
    && var e := Run(s, steps);
       && e.w == v && (tick.Failure? <==> !e.up)
       && (tick.Success? ==> e.t.TIdle? && e.d.DIdle? && e.routers == [RIdle])
  }

  lemma Before(s: Sys, step: Step, rest: seq<Step>, v: World, tick: Tick)
    requires Enabled(s, step) && Ends(Apply(s, step), rest, v, tick)
    ensures Ends(s, [step] + rest, v, tick)
  {
    assert ([step] + rest)[1..] == rest;
  }

  /** A start, the collaborator's time to answer, and the end of the attempt. */
  lemma Waited(s: Sys, start: Step, at: Time, finish: Step, v: World, tick: Tick)
    requires Enabled(s, start) && Apply(s, start).up && Apply(s, start).clock <= at
    requires Ends(Apply(s, start).(clock := at), [finish], v, tick)
    ensures Ends(s, [start, Advance(at), finish], v, tick)
  {
    Before(Apply(s, start), Advance(at), [finish], v, tick);
    Before(s, start, [Advance(at), finish], v, tick);
  }

  /** The first steps of a tick, then the rest of it. */
  lemma {:induction false} Opening(s: Sys, first: seq<Step>, rest: seq<Step>, v: World, tick: Tick)
    requires Legal(s, first) && Ends(Run(s, first), rest, v, tick)
    ensures Ends(s, first + rest, v, tick)
    decreases |first|
  {
    if first == [] {
      assert first + rest == rest;
    } else {
      Opening(Apply(s, first[0]), first[1..], rest, v, tick);
      Before(s, first[0], first[1..] + rest, v, tick);
      assert [first[0]] + (first[1..] + rest) == first + rest;
    }
  }

  lemma OneStep(s: Sys, step: Step)
    requires Enabled(s, step)
    ensures Legal(s, [step]) && Run(s, [step]) == Apply(s, step)
  {
    assert [step][1..] == [];
  }

  lemma TwoSteps(s: Sys, first: Step, second: Step)
    requires Enabled(s, first) && Enabled(Apply(s, first), second)
    ensures Legal(s, [first, second]) && Run(s, [first, second]) == Apply(Apply(s, first), second)
  {
    assert [first, second][1..] == [second];
    OneStep(Apply(s, first), second);
  }

  lemma TBegins(s: Sys)
    requires s.up && s.t.TIdle?
    ensures Enabled(s, TBegin) && Apply(s, TBegin) == s.(t := TBegun(s.clock))
  {
  }

  lemma DBegins(s: Sys)
    requires s.up && s.d.DIdle?
    ensures Enabled(s, DBegin) && Apply(s, DBegin) == s.(d := DBegun(s.clock))
  {
  }

  lemma RBegins(s: Sys)
    requires s.up && s.routers == [RIdle]
    ensures Enabled(s, RBegin(0)) && Apply(s, RBegin(0)) == s.(routers := [RBegun(s.clock)])
  {
  }

  /** A tick that finds nothing. */
  lemma Empty(w: World, clock: Time)
    ensures Ends(Alone(w, clock), [], w, Success(Idle))
  {
  }

  lemma StartSettles(s: Sys, id: Id, o: Outcome)
    requires s.up && s.t.TClaimed? && s.d.DIdle? && s.routers == [RIdle] && !AttemptIdUsed(s.w, id)
    requires o == StartTranscription(s.w, id, s.t.r, s.t.startedAt)
    ensures o.reply.Lost? ==> Ends(s, [TStart(id)], o.world, Success(Idle))
    ensures o.reply.Refused? ==> Ends(s, [TStart(id)], o.world, Failure(o.reply.error))
    ensures !o.reply.Lost? && !o.reply.Refused? ==>
              && o.reply.Started?
              && Apply(s, TStart(id))
                 == s.(w := o.world, t := TCalling(s.t.r, id, o.reply.anchor, s.t.audioDurationMs))
  {
    if o.reply.Lost? {
      Before(s, TStart(id), [], o.world, Success(Idle));
    } else if o.reply.Refused? {
      Before(s, TStart(id), [], o.world, Failure(o.reply.error));
    }
  }

  lemma CloseSettles(s: Sys, answer: Answer, o: Outcome)
    requires s.up && s.t.TCalling? && s.d.DIdle? && s.routers == [RIdle] && o == EndTranscription(s, answer)
    ensures o.reply.Refused? ==> Ends(s, [TFinish(answer)], o.world, Failure(o.reply.error))
    ensures !o.reply.Refused? ==> Ends(s, [TFinish(answer)], o.world, Success(Worked))
  {
    Before(s, TFinish(answer), [], o.world, if o.reply.Refused? then Failure(o.reply.error) else Success(Worked));
  }

  /** Taking a Recording: a claim, or a pick after the claim found nothing. */
  ghost predicate Taking(steps: seq<Step>, r: Id) {
    steps == [TClaim(r)] || steps == [TNoneReceived, TPick(r)]
  }

  /** It leaves the attempt ids alone. */
  lemma TakingUsesNoId(s: Sys, take: seq<Step>, r: Id, id: Id)
    requires Taking(take, r) && Legal(s, take) && !AttemptIdUsed(s.w, id)
    ensures !AttemptIdUsed(Run(s, take).w, id)
  {
    var v := Run(s, take).w;
    if take == [TClaim(r)] {
      OneStep(s, TClaim(r));
    } else {
      assert take[1..] == [TPick(r)];
      TwoSteps(s, TNoneReceived, TPick(r));
    }
    forall q | q in v ensures !HasId(v[q].attempts, id) {
      assert q in s.w && v[q].attempts == s.w[q].attempts;
    }
  }

  lemma DecideSettles(s: Sys, verdict: Verdict, o: Outcome)
    requires s.up && s.t.TIdle? && s.d.DIdle? && |s.routers| == 1 && s.routers[0].RHolding?
    requires verdict.ToSink? ==> !DeliveryIdUsed(s.w, verdict.id)
    requires o == DecideRoute(s.w, s.routers[0].r, s.routers[0].now, verdict)
    ensures Ends(s, [RDecide(0, verdict)], o.world,
                 if Fatal(o.reply) then Failure(o.reply.error) else Success(Worked))
  {
    Before(s, RDecide(0, verdict), [], o.world,
           if Fatal(o.reply) then Failure(o.reply.error) else Success(Worked));
  }

  lemma NothingToRoute(w: World, now: Time)
    requires forall q :: !IsRouting(w, q)
    ensures Ends(Alone(w, now), [RBegin(0), RNothing(0)], w, Success(Idle))
  {
    var s := Alone(w, now);
    RBegins(s);
    Empty(w, now);
    TwoSteps(s, RBegin(0), RNothing(0));
    Opening(s, [RBegin(0), RNothing(0)], [], w, Success(Idle));
  }

  lemma TrySettles(s: Sys, id: Id, o: Outcome)
    requires s.up && s.t.TIdle? && s.d.DPicked? && s.routers == [RIdle] && !TryIdUsed(s.w, id)
    requires o == StartDelivery(s.w, id, s.d.r, s.d.startedAt)
    ensures o.reply.Lost? ==> Ends(s, [DStart(id)], o.world, Success(Idle))
    ensures o.reply.Refused? ==> Ends(s, [DStart(id)], o.world, Failure(o.reply.error))
    ensures !o.reply.Lost? && !o.reply.Refused? ==>
              && o.reply.Started?
              && Apply(s, DStart(id)) == s.(w := o.world, d := DCalling(s.d.r, id, s.d.deadline))
              && s.d.r in o.world && o.world[s.d.r].delivery == s.w[s.d.r].delivery
  {
    if o.reply.Lost? {
      Before(s, DStart(id), [], o.world, Success(Idle));
    } else if o.reply.Refused? {
      Before(s, DStart(id), [], o.world, Failure(o.reply.error));
    }
  }

  lemma CloseTrySettles(s: Sys, answer: Answer, o: Outcome)
    requires s.up && s.t.TIdle? && s.d.DCalling? && s.routers == [RIdle] && o == Pipeline.EndDelivery(s, answer)
    ensures o.reply.Refused? ==> Ends(s, [DFinish(answer)], o.world, Failure(o.reply.error))
    ensures !o.reply.Refused? ==> Ends(s, [DFinish(answer)], o.world, Success(Worked))
  {
    Before(s, DFinish(answer), [], o.world, if o.reply.Refused? then Failure(o.reply.error) else Success(Worked));
  }
}
