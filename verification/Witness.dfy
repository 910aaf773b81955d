/**
 Why the service runs exactly one Transcription loop. `start_transcription_attempt`
 does not look at the status, so a loop holding a candidate it read before another
 loop finished the same Recording opens an attempt that can be neither succeeded
 nor failed; only a retryable failure or recovery still closes it.
 */
module Witness {
  import opened Domain
  import opened Ledger
  import opened Queues
  import opened StoreLaws
  import opened StoreTheorems
  import opened Timestamp
  import opened Wrappers

  /** A start on a transcribed Recording is accepted, and then neither ending of the attempt is. */
  lemma StaleStart(w: World, r: Id, id: Id, now: Time)
    requires Sound(w) && r in w && PastTranscription(w[r].rec.status)
    requires !HasOpen(w[r].attempts) && !AttemptIdUsed(w, id)
    ensures var o := StartTranscription(w, id, r, now);
            && o.reply.Started? && HasOpen(o.world[r].attempts)
            && o.world[r].rec.status == w[r].rec.status
            && (forall at, text :: SucceedTranscription(o.world, id, r, at, text)
                                   == Outcome(o.world, Refused(Constraint)))
            && (forall at, message :: FailTranscription(o.world, id, r, at, message).reply.Refused?
                                      && FailTranscription(o.world, id, r, at, message).world == o.world)
  {
    assert SoundCase(w[r]);
    var o := StartTranscription(w, id, r, now);
    var attempts := o.world[r].attempts;
    assert attempts[|attempts| - 1].Open();
  }

  /** A finishing statement rewrites whatever row has its id, finished or not, of whatever Recording. */
  lemma FinishChecksNothing(w: World, r: Id, q: Id, i: nat, id: Id, at: Time, message: string)
    requires r in w && q in w && i < |w[q].attempts| && w[q].attempts[i].id == id
    ensures var o := RetryTranscription(w, id, r, at, message);
            var row := w[q].attempts[i];
            && o.reply.Done? && o.world.Keys == w.Keys && |o.world[q].attempts| == |w[q].attempts|
            && o.world[q].attempts[i] == Attempt(id, row.number, row.startedAt, RetryableFailure(at, message))
  {
  }

  const NEW := NewRecording("client", "recording", None, 0)

  const FIRST := [Upload(0, NEW), Claim(0), StartAttempt(1, 0, 0), RetryAttempt(1, 0, SECOND, "timeout")]

  const OTHER := [StartAttempt(2, 0, HOUR), SucceedAttempt(2, 0, 2 * HOUR, "text")]

  function FirstCase(): Case {
    Case(Recording("client", "recording", None, 0, Transcribing, None, Some("timeout"), None),
         None, [Attempt(1, 1, 0, RetryableFailure(SECOND, "timeout"))], None, [], [])
  }

  function OtherCase(): Case {
    FirstCase().(rec := FirstCase().rec.(status := Routing),
                 transcript := Some(Transcript("text", 2 * HOUR)),
                 attempts := FirstCase().attempts + [Attempt(2, 2, HOUR, Succeeded(2 * HOUR))])
  }

  function Started(): Case {
    Moved(FreshCase(NEW), Transcribing).(attempts := [Attempt(1, 1, 0, InProgress)])
  }

  lemma FirstStarted()
    ensures var w1 := Exec(map[], FIRST[0]).world;
            var w2 := Exec(w1, FIRST[1]).world;
            Exec(w2, FIRST[2]).world == map[0 := Started()]
  {
    assert forall q :: !HasKey(map[], q, NEW);
    var w2: World := map[0 := Moved(FreshCase(NEW), Transcribing)];
    assert w2[0].attempts == [] && !HasOpen(w2[0].attempts) && !AttemptIdUsed(w2, 1);
    assert w2[0].attempts + [Attempt(1, 1, 0, InProgress)] == Started().attempts;
  }

  lemma FirstEnded()
    ensures Exec(map[0 := Started()], FIRST[3]).world == map[0 := FirstCase()]
  {
    var w: World := map[0 := Started()];
    assert Mark(w[0].attempts, 1, RetryableFailure(SECOND, "timeout")) == FirstCase().attempts;
    assert FinishAttempt(w, 1, RetryableFailure(SECOND, "timeout"))
        == map[0 := w[0].(attempts := FirstCase().attempts)];
  }

  lemma FourSteps(w: World, ts: seq<Txn>)
    requires |ts| == 4
    ensures After(w, ts)
            == Exec(Exec(Exec(Exec(w, ts[0]).world, ts[1]).world, ts[2]).world, ts[3]).world
  {
    assert ts[1..][1..] == ts[2..] && ts[2..][1..] == ts[3..] && ts[3..][1..] == [];
    var w1 := Exec(w, ts[0]).world;
    var w2 := Exec(w1, ts[1]).world;
    var w3 := Exec(w2, ts[2]).world;
    assert After(w3, ts[3..]) == Exec(w3, ts[3]).world;
    assert After(w2, ts[2..]) == After(w3, ts[3..]);
    assert After(w1, ts[1..]) == After(w2, ts[2..]);
  }

  lemma FirstWorld()
    ensures After(map[], FIRST) == map[0 := FirstCase()]
  {
    FirstStarted();
    FirstEnded();
    FourSteps(map[], FIRST);
  }

  lemma OtherWorld()
    ensures After(map[0 := FirstCase()], OTHER) == map[0 := OtherCase()]
  {
    var w: World := map[0 := FirstCase()];
    assert !HasOpen(w[0].attempts) && !HasId(w[0].attempts, 2);
    var grown := w[0].attempts + [Attempt(2, 2, HOUR, InProgress)];
    var v: World := map[0 := w[0].(attempts := grown)];
    assert Exec(w, OTHER[0]).world == v;
    assert Mark(grown, 2, Succeeded(2 * HOUR)) == OtherCase().attempts;
    assert Exec(v, OTHER[1]).world == map[0 := OtherCase()];
    assert OTHER[1..][1..] == [] && After(v, OTHER[1..]) == map[0 := OtherCase()];
  }

  lemma BothPick()
    ensures OldestDueRetry(map[0 := FirstCase()], 0, HOUR)
  {
    var w: World := map[0 := FirstCase()];
    TextBeforeIsStrict(0, 0);
    assert RetryCandidate(w[0]) && RetryDue(w[0], HOUR);
  }

  lemma SecondStarts()
    ensures Sound(map[0 := OtherCase()])
    ensures After(After(map[], FIRST), OTHER) == map[0 := OtherCase()]
    ensures !HasOpen(OtherCase().attempts) && !AttemptIdUsed(map[0 := OtherCase()], 3)
  {
    FirstWorld();
    OtherWorld();
    RunsStaySound(map[], FIRST);
    RunsStaySound(map[0 := FirstCase()], OTHER);
  }

  /**
   Two loops pick the same due retry at the same moment. The first runs its whole
   tick; the second then starts an attempt on a Recording that is already
   `routing`, and the attempt can be neither succeeded nor failed.
   */
  lemma TwoLoopsRace()
    ensures OldestDueRetry(After(map[], FIRST), 0, HOUR)
    ensures var w := After(After(map[], FIRST), OTHER);
            var o := StartTranscription(w, 3, 0, HOUR);
            && o.reply.Started? && o.world[0].rec.status == Routing && HasOpen(o.world[0].attempts)
            && SucceedTranscription(o.world, 3, 0, 3 * HOUR, "again").reply == Refused(Constraint)
            && FailTranscription(o.world, 3, 0, 3 * HOUR, "again").reply.Refused?
  {
    FirstWorld();
    BothPick();
    SecondStarts();
    StaleStart(map[0 := OtherCase()], 0, 3, HOUR);
  }
}
