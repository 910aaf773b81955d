/**
 Upload handlers and the files they leave behind: any number of requests at once,
 with duplicates, failures of any single call, dropped requests, crashes, and
 every other transaction of the service in between.

 The database is the same `World` the workers use. A final blob is named after
 the Recording id, so files are maps from ids; a handler is identified by the id
 it generated. Handlers stay in the state after they end, as history.
 */
module Uploads {
  import opened Blob
  import opened Bytes
  import opened Domain
  import opened Ledger
  import opened StoreLaws
  import StoreTheorems
  import opened Wrappers

  datatype Answer = Stored(id: Id) | Duplicate(id: Id) | Rejected

  datatype Cleanup = NothingToDo | Removed | RemovalFailed

  datatype Phase =
    | Streaming
    | GaveUp(removed: bool)
    | Finalized
    | Inserted
    | Removing(answer: Answer)
    | Ended(answer: Answer, cleanup: Cleanup)

  /** `created` is what the insert reported; `cut` marks a handler dropped or stopped by a crash. */
  datatype Request = Request(n: NewRecording, phase: Phase, received: Data, created: bool, cut: bool) {
    predicate Running() {
      !cut && !phase.GaveUp? && !phase.Ended?
    }
  }

  datatype Sent = Sent(n: NewRecording, answer: Answer)

  datatype State = State(
    w: World,
    temps: map<Id, Data>,
    finals: map<Id, Data>,
    uploads: map<Id, Request>,
    answers: seq<Sent>)

  datatype Step =
    | Begin(id: Id, n: NewRecording)
    | CreateTemp(id: Id)
    | Write(id: Id, chunk: Data)
    | Abandon(id: Id, removed: bool)
    | Finalize(id: Id)
    | Insert(id: Id)
    | InsertFails(id: Id)
    | ReadBack(id: Id)
    | ReadBackFails(id: Id)
    | Remove(id: Id, removed: bool)
    | Drop(id: Id)
    | Elsewhere(t: Txn)
    | Restart(left: set<Id>)

  ghost predicate Known(w: World, n: NewRecording) {
    exists q :: HasKey(w, q, n)
  }

  ghost predicate In(s: State, id: Id, phase: Phase) {
    id in s.uploads && s.uploads[id].Running() && s.uploads[id].phase == phase
  }

  ghost predicate Enabled(s: State, step: Step) {
    match step
    case Begin(id, _) => id !in s.uploads
    case CreateTemp(id) => In(s, id, Streaming)
    case Write(id, _) => In(s, id, Streaming) && id in s.temps
    case Abandon(id, _) => In(s, id, Streaming)
    case Finalize(id) => In(s, id, Streaming) && id in s.temps
    case Insert(id) => In(s, id, Finalized)
    case InsertFails(id) => In(s, id, Finalized)
    case ReadBack(id) => In(s, id, Inserted)
    case ReadBackFails(id) => In(s, id, Inserted)
    case Remove(id, _) => id in s.uploads && s.uploads[id].Running() && s.uploads[id].phase.Removing?
    case Drop(id) => id in s.uploads && s.uploads[id].Running()
    case Elsewhere(t) => !t.Upload?
    case Restart(_) => true
  }

  function At(s: State, id: Id, phase: Phase): State
    requires id in s.uploads
  {
    s.(uploads := s.uploads[id := s.uploads[id].(phase := phase)])
  }

  function Send(s: State, id: Id, answer: Answer): State
    requires id in s.uploads
  {
    s.(answers := s.answers + [Sent(s.uploads[id].n, answer)])
  }

  ghost function Apply(s: State, step: Step): State
    requires Enabled(s, step)
  {
    match step
    // The duplicate check, and only then a generated id.
    case Begin(id, n) =>
      if q :| HasKey(s.w, q, n) then s.(answers := s.answers + [Sent(n, Duplicate(q))])
      else s.(uploads := s.uploads[id := Request(n, Streaming, [], false, false)])
    case CreateTemp(id) =>
      s.(temps := s.temps[id := []], uploads := s.uploads[id := s.uploads[id].(received := [])])
    case Write(id, chunk) =>
      s.(temps := s.temps[id := s.temps[id] + chunk],
         uploads := s.uploads[id := s.uploads[id].(received := s.uploads[id].received + chunk)])
    // Any error before the rename has succeeded.
    case Abandon(id, removed) =>
      Send(At(s, id, GaveUp(removed)).(temps := if removed then s.temps - {id} else s.temps), id, Rejected)
    case Finalize(id) =>
      At(s, id, Finalized).(temps := s.temps - {id}, finals := s.finals[id := s.temps[id]])
    case Insert(id) =>
      var o := CreateRecording(s.w, id, s.uploads[id].n);
      if o.reply.Refused? then At(s, id, Removing(Rejected))
      else s.(w := o.world,
              uploads := s.uploads[id := s.uploads[id].(phase := Inserted, created := o.reply.Created?)])
    case InsertFails(id) => At(s, id, Removing(Rejected))
    case ReadBack(id) =>
      if q :| HasKey(s.w, q, s.uploads[id].n) then
        if s.uploads[id].created then Send(At(s, id, Ended(Stored(q), NothingToDo)), id, Stored(q))
        else At(s, id, Removing(Duplicate(q)))
      else At(s, id, Removing(Rejected))
    case ReadBackFails(id) => At(s, id, Removing(Rejected))
    case Remove(id, removed) =>
      var answer := s.uploads[id].phase.answer;
      Send(At(s, id, Ended(answer, if removed then Removed else RemovalFailed))
             .(finals := if removed then s.finals - {id} else s.finals), id, answer)
    case Drop(id) => s.(uploads := s.uploads[id := s.uploads[id].(cut := true)])
    case Elsewhere(t) => s.(w := Exec(s.w, t).world)
    case Restart(left) =>
      s.(temps := map id | id in s.temps && id in left :: s.temps[id],
         uploads := map id | id in s.uploads :: if s.uploads[id].Running() then s.uploads[id].(cut := true)
                                                else s.uploads[id])
  }

  const START := State(map[], map[], map[], map[], [])

  ghost predicate Legal(s: State, steps: seq<Step>)
    decreases |steps|
  {
    steps == [] || (Enabled(s, steps[0]) && Legal(Apply(s, steps[0]), steps[1..]))
  }

  ghost function Run(s: State, steps: seq<Step>): State
    requires Legal(s, steps)
    decreases |steps|
  {
    if steps == [] then s else Run(Apply(s, steps[0]), steps[1..])
  }

  // -- The invariant -------------------------------------------------------------------

  /** A successful answer names a row with the request's idempotency key. */
  ghost predicate Truthful(w: World, n: NewRecording, answer: Answer) {
    !answer.Rejected? ==> HasKey(w, answer.id, n)
  }

  /** Where an upload's row and file stand in each phase. */
  ghost predicate UploadInv(w: World, finals: map<Id, Data>, temps: map<Id, Data>, id: Id, u: Request) {
    var (row, file) := (id in w, id in finals);
    && (row <==> u.created)
    && (row ==> HasKey(w, id, u.n))
    && (file ==> finals[id] == u.received)
    && (id in temps ==> (u.phase.Streaming? && temps[id] == u.received) || u.phase == GaveUp(false))
    && match u.phase
       case Streaming => !row && !file
       case GaveUp(_) => !row && !file
       case Finalized => !row && file
       case Inserted => file && Known(w, u.n)
       case Removing(a) => file && Truthful(w, u.n, a) && !a.Stored? && (row ==> a == Rejected)
       case Ended(a, cleanup) =>
         && Truthful(w, u.n, a)
         && (a.Stored? <==> cleanup.NothingToDo?) && (a.Stored? ==> a.id == id)
         && (file <==> !cleanup.Removed?)
         && (row <==> a == Stored(id) || (a == Rejected && u.created))
  }

  ghost predicate AllUploads(s: State) {
    forall id {:trigger UploadInv(s.w, s.finals, s.temps, id, s.uploads[id])} | id in s.uploads ::
      UploadInv(s.w, s.finals, s.temps, id, s.uploads[id])
  }

  ghost predicate AnswerInv(s: State, i: nat)
    requires i < |s.answers|
  {
    var a := s.answers[i];
    && Truthful(s.w, a.n, a.answer)
    && (a.answer.Stored? ==>
          && a.answer.id in s.uploads
          && s.uploads[a.answer.id].phase == Ended(a.answer, NothingToDo)
          && forall j | 0 <= j < i :: s.answers[j].answer != a.answer)
  }

  ghost predicate Inv(s: State) {
    && Sound(s.w)
    && s.w.Keys <= s.uploads.Keys && s.finals.Keys <= s.uploads.Keys && s.temps.Keys <= s.uploads.Keys
    && AllUploads(s)
    && forall i | 0 <= i < |s.answers| :: AnswerInv(s, i)
  }

  lemma KeyIsUnique(w: World, p: Id, q: Id, n: NewRecording)
    requires Sound(w) && HasKey(w, p, n) && HasKey(w, q, n)
    ensures p == q
  {
    assert p == q || Separate(w[p], w[q]);
  }

  /** One upload changed, and nothing any other upload or answer depends on. */
  lemma OneUpload(s: State, v: State, id: Id)
    requires Inv(s) && id in v.uploads && v.w == s.w && v.answers == s.answers
    requires v.uploads == s.uploads[id := v.uploads[id]]
    requires forall q | q != id :: (q in v.finals <==> q in s.finals) && (q in v.temps <==> q in s.temps)
    requires forall q | q != id && q in s.finals :: v.finals[q] == s.finals[q]
    requires forall q | q != id && q in s.temps :: v.temps[q] == s.temps[q]
    requires UploadInv(v.w, v.finals, v.temps, id, v.uploads[id])
    requires id in s.uploads ==> !s.uploads[id].phase.Ended?
    ensures Inv(v)
  {
    forall q | q in v.uploads ensures UploadInv(v.w, v.finals, v.temps, q, v.uploads[q]) {
      assert q == id || UploadInv(s.w, s.finals, s.temps, q, s.uploads[q]);
    }
    forall i | 0 <= i < |v.answers| ensures AnswerInv(v, i) {
      assert AnswerInv(s, i);
    }
  }

  /** An answer is sent. */
  lemma OneAnswer(s: State, n: NewRecording, answer: Answer)
    requires Inv(s) && Truthful(s.w, n, answer)
    requires answer.Stored? ==>
               && answer.id in s.uploads && s.uploads[answer.id].phase == Ended(answer, NothingToDo)
               && forall j | 0 <= j < |s.answers| :: s.answers[j].answer != answer
    ensures Inv(s.(answers := s.answers + [Sent(n, answer)]))
  {
    var v := s.(answers := s.answers + [Sent(n, answer)]);
    forall i | 0 <= i < |v.answers| ensures AnswerInv(v, i) {
      if i < |s.answers| {
        assert AnswerInv(s, i);
      }
    }
    forall q | q in v.uploads ensures UploadInv(v.w, v.finals, v.temps, q, v.uploads[q]) {
      assert UploadInv(s.w, s.finals, s.temps, q, s.uploads[q]);
    }
  }

  /** Rows stay, with their keys. */
  ghost predicate KeysKept(w: World, v: World) {
    forall r {:trigger w[r]} | r in w :: r in v && SameKey(v[r].rec, w[r].rec.clientId, w[r].rec.clientRecordingId)
  }

  lemma UploadFrame(w: World, v: World, finals: map<Id, Data>, temps: map<Id, Data>, id: Id, u: Request)
    requires KeysKept(w, v) && (id in v ==> id in w)
    requires UploadInv(w, finals, temps, id, u)
    ensures UploadInv(v, finals, temps, id, u)
  {
    if Known(w, u.n) {
      var q :| HasKey(w, q, u.n);
      assert HasKey(v, q, u.n);
    }
  }

  /** The database moves on: no row appears except possibly the row of `id`, whose handler notes it. */
  lemma DatabaseMoves(s: State, v: State, id: Id)
    requires Inv(s) && Sound(v.w) && KeysKept(s.w, v.w)
    requires v == s.(w := v.w, uploads := v.uploads)
    requires v.uploads == s.uploads
             || (id in s.uploads && id in v.uploads && v.uploads == s.uploads[id := v.uploads[id]])
    requires id in s.uploads && v.uploads != s.uploads ==> !s.uploads[id].phase.Ended?
    requires id in v.uploads ==> UploadInv(v.w, v.finals, v.temps, id, v.uploads[id])
    requires forall r | r in v.w && r !in s.w :: r == id && id in s.uploads
    ensures Inv(v)
  {
    forall q | q in v.uploads ensures UploadInv(v.w, v.finals, v.temps, q, v.uploads[q]) {
      if q != id {
        assert UploadInv(s.w, s.finals, s.temps, q, s.uploads[q]);
        UploadFrame(s.w, v.w, s.finals, s.temps, q, s.uploads[q]);
      }
    }
    forall i | 0 <= i < |v.answers| ensures AnswerInv(v, i) {
      assert AnswerInv(s, i);
    }
  }

  // -- Steps keep it ------------------------------------------------------------------------

  lemma BeginInv(s: State, id: Id, n: NewRecording)
    requires Inv(s) && Enabled(s, Begin(id, n))
    ensures Inv(Apply(s, Begin(id, n)))
  {
    if q :| HasKey(s.w, q, n) {
      KeyIsUniqueAll(s.w, q, n);
      OneAnswer(s, n, Duplicate(q));
    } else {
      OneUpload(s, Apply(s, Begin(id, n)), id);
    }
  }

  lemma KeyIsUniqueAll(w: World, q: Id, n: NewRecording)
    requires Sound(w) && HasKey(w, q, n)
    ensures forall p | HasKey(w, p, n) :: p == q
  {
    forall p | HasKey(w, p, n) ensures p == q { KeyIsUnique(w, p, q, n); }
  }

  lemma StreamInv(s: State, step: Step)
    requires Inv(s) && Enabled(s, step)
    requires step.CreateTemp? || step.Write? || step.Finalize? || step.InsertFails? || step.ReadBackFails?
    ensures Inv(Apply(s, step))
  {
    assert UploadInv(s.w, s.finals, s.temps, step.id, s.uploads[step.id]);
    OneUpload(s, Apply(s, step), step.id);
  }

  lemma AbandonInv(s: State, id: Id, removed: bool)
    requires Inv(s) && Enabled(s, Abandon(id, removed))
    ensures Inv(Apply(s, Abandon(id, removed)))
  {
    assert UploadInv(s.w, s.finals, s.temps, id, s.uploads[id]);
    var v := At(s, id, GaveUp(removed)).(temps := if removed then s.temps - {id} else s.temps);
    OneUpload(s, v, id);
    OneAnswer(v, v.uploads[id].n, Rejected);
  }

  lemma RemoveInv(s: State, id: Id, removed: bool)
    requires Inv(s) && Enabled(s, Remove(id, removed))
    ensures Inv(Apply(s, Remove(id, removed)))
  {
    assert UploadInv(s.w, s.finals, s.temps, id, s.uploads[id]);
    var answer := s.uploads[id].phase.answer;
    var v := At(s, id, Ended(answer, if removed then Removed else RemovalFailed))
               .(finals := if removed then s.finals - {id} else s.finals);
    OneUpload(s, v, id);
    OneAnswer(v, v.uploads[id].n, answer);
  }

  lemma InsertInv(s: State, id: Id)
    requires Inv(s) && Enabled(s, Insert(id))
    ensures Inv(Apply(s, Insert(id)))
  {
    var u := s.uploads[id];
    assert UploadInv(s.w, s.finals, s.temps, id, u);
    var o := CreateRecording(s.w, id, u.n);
    assert o == Exec(s.w, Txn.Upload(id, u.n));
    ExecKeeps(s.w, Txn.Upload(id, u.n));
    assert Known(o.world, u.n) by {
      if q :| HasKey(s.w, q, u.n) { assert HasKey(o.world, q, u.n); } else { assert HasKey(o.world, id, u.n); }
    }
    DatabaseMoves(s, Apply(s, Insert(id)), id);
  }

  lemma ReadBackInv(s: State, id: Id)
    requires Inv(s) && Enabled(s, ReadBack(id))
    ensures Inv(Apply(s, ReadBack(id)))
  {
    var u := s.uploads[id];
    assert UploadInv(s.w, s.finals, s.temps, id, u);
    var q :| HasKey(s.w, q, u.n);
    KeyIsUniqueAll(s.w, q, u.n);
    if u.created {
      assert q == id;
      var v := At(s, id, Ended(Stored(id), NothingToDo));
      OneUpload(s, v, id);
      forall j | 0 <= j < |v.answers| ensures v.answers[j].answer != Stored(id) { assert AnswerInv(s, j); }
      OneAnswer(v, u.n, Stored(id));
    } else {
      OneUpload(s, At(s, id, Removing(Duplicate(q))), id);
    }
  }

  lemma ElsewhereInv(s: State, t: Txn)
    requires Inv(s) && !t.Upload?
    ensures Inv(Apply(s, Elsewhere(t)))
  {
    var w := Exec(s.w, t).world;
    ExecKeeps(s.w, t);
    forall r | r in w ensures r in s.w {
      if r !in s.w { StoreTheorems.NewCaseIsFresh(s.w, t, r); }
    }
    forall q | q in s.uploads ensures UploadInv(w, s.finals, s.temps, q, s.uploads[q]) {
      assert UploadInv(s.w, s.finals, s.temps, q, s.uploads[q]);
      UploadFrame(s.w, w, s.finals, s.temps, q, s.uploads[q]);
    }
    DatabaseMoves(s, s.(w := w), 0);
  }

  lemma RestartInv(s: State, left: set<Id>)
    requires Inv(s)
    ensures Inv(Apply(s, Restart(left)))
  {
    var v := Apply(s, Restart(left));
    forall q | q in v.uploads ensures UploadInv(v.w, v.finals, v.temps, q, v.uploads[q]) {
      assert UploadInv(s.w, s.finals, s.temps, q, s.uploads[q]);
    }
    forall i | 0 <= i < |v.answers| ensures AnswerInv(v, i) {
      assert AnswerInv(s, i);
    }
  }

  lemma StepInv(s: State, step: Step)
    requires Inv(s) && Enabled(s, step)
    ensures Inv(Apply(s, step))
  {
    match step
    case Begin(id, n) => BeginInv(s, id, n);
    case CreateTemp(_) => StreamInv(s, step);
    case Write(_, _) => StreamInv(s, step);
    case Abandon(id, removed) => AbandonInv(s, id, removed);
    case Finalize(_) => StreamInv(s, step);
    case Insert(id) => InsertInv(s, id);
    case InsertFails(_) => StreamInv(s, step);
    case ReadBack(id) => ReadBackInv(s, id);
    case ReadBackFails(_) => StreamInv(s, step);
    case Remove(id, removed) => RemoveInv(s, id, removed);
    case Drop(id) =>
      assert UploadInv(s.w, s.finals, s.temps, id, s.uploads[id]);
      OneUpload(s, Apply(s, step), id);
    case Elsewhere(t) => ElsewhereInv(s, t);
    case Restart(left) => RestartInv(s, left);
  }

  lemma {:induction false} RunInv(s: State, steps: seq<Step>)
    requires Inv(s) && Legal(s, steps)
    ensures Inv(Run(s, steps))
    decreases |steps|
  {
    if steps != [] {
      StepInv(s, steps[0]);
      RunInv(Apply(s, steps[0]), steps[1..]);
    }
  }

  // -- What follows ------------------------------------------------------------------------------

  /** Reached from an empty service by any interleaving. */
  ghost predicate Reaches(steps: seq<Step>, s: State) {
    Legal(START, steps) && Run(START, steps) == s
  }

  lemma ReachedInv(steps: seq<Step>, s: State)
    requires Reaches(steps, s)
    ensures Inv(s)
  {
    RunInv(START, steps);
  }

  /** One row per idempotency key, and every successful answer for the key names it. */
  lemma AnswersAgree(steps: seq<Step>, s: State, i: nat, j: nat)
    requires Reaches(steps, s) && i < |s.answers| && j < |s.answers|
    requires SameRequest(s.answers[i].n, s.answers[j].n)
    requires !s.answers[i].answer.Rejected? && !s.answers[j].answer.Rejected?
    ensures s.answers[i].answer.id == s.answers[j].answer.id
    ensures HasKey(s.w, s.answers[i].answer.id, s.answers[i].n)
    ensures forall q | HasKey(s.w, q, s.answers[i].n) :: q == s.answers[i].answer.id
    ensures s.answers[i].answer.Stored? && s.answers[j].answer.Stored? ==> i == j
  {
    ReachedInv(steps, s);
    assert AnswerInv(s, i) && AnswerInv(s, j);
    KeyIsUniqueAll(s.w, s.answers[i].answer.id, s.answers[i].n);
    assert HasKey(s.w, s.answers[j].answer.id, s.answers[i].n);
  }

  predicate SameRequest(a: NewRecording, b: NewRecording) {
    a.clientId == b.clientId && a.clientRecordingId == b.clientRecordingId
  }

  // -- When a row loses its blob -----------------------------------------------------------------

  /** The insert of `r`, later a failed read-back of it, later still the removal of its blob. */
  ghost predicate Loses(steps: seq<Step>, r: Id, i: nat, j: nat, k: nat) {
    i < j < k < |steps| && steps[i] == Insert(r) && steps[j] == ReadBackFails(r) && steps[k] == Remove(r, true)
  }

  /** How one step moves one upload through its phases. */
  lemma OneStep(s: State, step: Step, id: Id)
    requires Inv(s) && Enabled(s, step) && id in s.uploads
    ensures id in Apply(s, step).uploads
    ensures var (u, v) := (s.uploads[id], Apply(s, step).uploads[id]);
            && (v.created != u.created ==> step == Insert(id) && u.phase.Finalized? && v.phase.Inserted?)
            && (u.phase.Ended? || u.phase.GaveUp? ==> v.phase == u.phase)
            && (u.phase.Removing? ==>
                  || v.phase == u.phase
                  || (step.Remove? && step.id == id
                      && v.phase == Ended(u.phase.answer, if step.removed then Removed else RemovalFailed)))
            && (u.phase.Inserted? ==>
                  || v.phase == u.phase
                  || (step == ReadBackFails(id) && v.phase == Removing(Rejected))
                  || (step == ReadBack(id) && (if u.created then v.phase.Ended? && v.phase.answer.Stored?
                                               else v.phase.Removing?)))
            && (u.phase.Finalized? ==>
                  v.phase == u.phase || (step == Insert(id) && v.phase.Inserted?) || v.phase == Removing(Rejected))
            && (u.phase.Streaming? ==> v.phase.Streaming? || v.phase.GaveUp? || v.phase.Finalized?)
    ensures step == Remove(id, true) ==>
              var v := Apply(s, step).uploads[id]; v.phase.Ended? && v.phase.cleanup.Removed?
  {
    assert UploadInv(s.w, s.finals, s.temps, id, s.uploads[id]);
    if step == Insert(id) {
      InsertInv(s, id);
      assert id !in s.w;
    }
  }

  lemma NewUpload(s: State, step: Step, id: Id)
    requires Enabled(s, step) && id !in s.uploads && id in Apply(s, step).uploads
    ensures var u := Apply(s, step).uploads[id]; u.phase.Streaming? && !u.created
  {
  }

  lemma {:induction false} EndedForGood(s: State, steps: seq<Step>, id: Id)
    requires Inv(s) && Legal(s, steps) && id in s.uploads && (s.uploads[id].phase.Ended? || s.uploads[id].phase.GaveUp?)
    ensures id in Run(s, steps).uploads && Run(s, steps).uploads[id].phase == s.uploads[id].phase
    decreases |steps|
  {
    if steps != [] {
      StepInv(s, steps[0]);
      OneStep(s, steps[0], id);
      EndedForGood(Apply(s, steps[0]), steps[1..], id);
    }
  }

  /** A removal once made shows in the end. */
  lemma {:induction false} RemovedForGood(s: State, steps: seq<Step>, id: Id, k: nat)
    requires Inv(s) && Legal(s, steps) && k < |steps| && steps[k] == Remove(id, true)
    ensures id in Run(s, steps).uploads
    ensures var u := Run(s, steps).uploads[id]; u.phase.Ended? && u.phase.cleanup.Removed?
    decreases |steps|
  {
    var v := Apply(s, steps[0]);
    StepInv(s, steps[0]);
    if k == 0 {
      OneStep(s, steps[0], id);
      EndedForGood(v, steps[1..], id);
    } else {
      RemovedForGood(v, steps[1..], id, k - 1);
    }
  }

  /** An upload that made no row by the time it leaves `Finalized` never makes one. */
  lemma {:induction false} NoRowForGood(s: State, steps: seq<Step>, id: Id)
    requires Inv(s) && Legal(s, steps) && id in s.uploads && !s.uploads[id].created
    requires !s.uploads[id].phase.Streaming? && !s.uploads[id].phase.Finalized?
    ensures id in Run(s, steps).uploads && !Run(s, steps).uploads[id].created
    decreases |steps|
  {
    if steps != [] {
      StepInv(s, steps[0]);
      OneStep(s, steps[0], id);
      NoRowForGood(Apply(s, steps[0]), steps[1..], id);
    }
  }

  lemma {:induction false} FindRemoval(s: State, steps: seq<Step>, id: Id) returns (k: nat)
    requires Inv(s) && Legal(s, steps) && id in s.uploads && s.uploads[id].phase.Removing?
    requires LostAudio(Run(s, steps), id)
    ensures k < |steps| && steps[k] == Remove(id, true)
    decreases |steps|
  {
    var v := Apply(s, steps[0]);
    StepInv(s, steps[0]);
    OneStep(s, steps[0], id);
    if v.uploads[id].phase.Removing? {
      var m := FindRemoval(v, steps[1..], id);
      k := m + 1;
    } else {
      EndedForGood(v, steps[1..], id);
      k := 0;
    }
  }

  lemma {:induction false} FindFailure(s: State, steps: seq<Step>, id: Id) returns (j: nat, k: nat)
    requires Inv(s) && Legal(s, steps) && id in s.uploads && s.uploads[id].phase.Inserted? && s.uploads[id].created
    requires LostAudio(Run(s, steps), id)
    ensures j < k < |steps| && steps[j] == ReadBackFails(id) && steps[k] == Remove(id, true)
    decreases |steps|
  {
    var v := Apply(s, steps[0]);
    StepInv(s, steps[0]);
    OneStep(s, steps[0], id);
    if v.uploads[id].phase.Inserted? {
      var m, n := FindFailure(v, steps[1..], id);
      j, k := m + 1, n + 1;
    } else if v.uploads[id].phase.Removing? {
      var n := FindRemoval(v, steps[1..], id);
      j, k := 0, n + 1;
    } else {
      EndedForGood(v, steps[1..], id);
      assert false;
    }
  }

  lemma {:induction false} FindInsert(s: State, steps: seq<Step>, id: Id) returns (i: nat, j: nat, k: nat)
    requires Inv(s) && Legal(s, steps)
    requires id in s.uploads ==> !s.uploads[id].created
                                 && (s.uploads[id].phase.Streaming? || s.uploads[id].phase.Finalized?)
    requires LostAudio(Run(s, steps), id) && Run(s, steps).uploads[id].created
    ensures Loses(steps, id, i, j, k)
    decreases |steps|
  {
    var v, rest := Apply(s, steps[0]), steps[1..];
    StepInv(s, steps[0]);
    if id in s.uploads {
      OneStep(s, steps[0], id);
    } else if id in v.uploads {
      NewUpload(s, steps[0], id);
    }
    if id in v.uploads && v.uploads[id].phase.Inserted? && v.uploads[id].created {
      var m, n := FindFailure(v, rest, id);
      i, j, k := 0, m + 1, n + 1;
    } else if id in v.uploads && !v.uploads[id].phase.Streaming? && !v.uploads[id].phase.Finalized? {
      NoRowForGood(v, rest, id);
      assert false;
    } else {
      var l, m, n := FindInsert(v, rest, id);
      i, j, k := l + 1, m + 1, n + 1;
    }
  }

  /** The handler's last phase when its clean-up took the audio away. */
  ghost predicate LostAudio(s: State, r: Id) {
    r in s.uploads && s.uploads[r].phase == Ended(Rejected, Removed)
  }

  /**
   Over any run a row's blob is missing exactly if the read-back after the insert
   that made the row failed and the file was then removed; so every row has its
   audio as long as no read-back fails. The blob holds the bytes received.
   */
  lemma RowsHaveAudio(steps: seq<Step>, s: State, r: Id)
    requires Reaches(steps, s) && r in s.w
    ensures r !in s.finals <==> exists i, j, k :: Loses(steps, r, i, j, k)
    ensures (forall i | 0 <= i < |steps| :: !steps[i].ReadBackFails?) ==> r in s.finals
    ensures r in s.finals ==> r in s.uploads && s.finals[r] == s.uploads[r].received
  {
    ReachedInv(steps, s);
    assert UploadInv(s.w, s.finals, s.temps, r, s.uploads[r]);
    if r !in s.finals {
      var i, j, k := FindInsert(START, steps, r);
      assert Loses(steps, r, i, j, k);
    }
    if i, j, k :| Loses(steps, r, i, j, k) {
      RemovedForGood(START, steps, r, k);
    }
  }

  /** Any other final blob belongs to a running upload, to one cut off, or to one whose removal failed. */
  lemma OrphansAreExplained(steps: seq<Step>, s: State, id: Id)
    requires Reaches(steps, s) && id in s.finals && id !in s.w
    ensures id in s.uploads
    ensures var u := s.uploads[id];
            || (u.cut && (u.phase.Finalized? || u.phase.Inserted? || u.phase.Removing?))
            || (u.Running() && !u.phase.Streaming?)
            || (u.phase.Ended? && u.phase.cleanup == RemovalFailed)
  {
    ReachedInv(steps, s);
    assert UploadInv(s.w, s.finals, s.temps, id, s.uploads[id]);
  }

  /** A temp file belongs to an upload still streaming when it ended or running now, or to a failed removal. */
  lemma TempsAreExplained(steps: seq<Step>, s: State, id: Id)
    requires Reaches(steps, s) && id in s.temps
    ensures id in s.uploads && (s.uploads[id].phase.Streaming? || s.uploads[id].phase == GaveUp(false))
  {
    ReachedInv(steps, s);
    assert UploadInv(s.w, s.finals, s.temps, id, s.uploads[id]);
  }

  // -- What a blob holds ---------------------------------------------------------------------------

  /** The bytes a run adds to an upload that has received `d`: the chunks written, in order, from an empty file. */
  function Extended(d: Data, steps: seq<Step>, id: Id): Data
    decreases |steps|
  {
    if steps == [] then d
    else if steps[0].Write? && steps[0].id == id then Extended(d + steps[0].chunk, steps[1..], id)
    else if steps[0] == CreateTemp(id) then Extended([], steps[1..], id)
    else Extended(d, steps[1..], id)
  }

  ghost function Received(s: State, id: Id): Data {
    if id in s.uploads then s.uploads[id].received else []
  }

  lemma {:induction false} RunReceives(s: State, steps: seq<Step>, id: Id)
    requires Legal(s, steps)
    ensures Received(Run(s, steps), id) == Extended(Received(s, id), steps, id)
    decreases |steps|
  {
    if steps != [] {
      RunReceives(Apply(s, steps[0]), steps[1..], id);
    }
  }

  /** A final blob holds exactly the chunks its upload wrote, in order. */
  lemma BlobsHoldWhatWasWritten(steps: seq<Step>, s: State, id: Id)
    requires Reaches(steps, s) && id in s.finals
    ensures s.finals[id] == Extended([], steps, id)
  {
    ReachedInv(steps, s);
    assert UploadInv(s.w, s.finals, s.temps, id, s.uploads[id]);
    RunReceives(START, steps, id);
  }

  // -- Which answer ------------------------------------------------------------------------------

  /** A request for a key that has a row is answered at once with that row, and starts no upload. */
  lemma KnownKeyIsDuplicate(steps: seq<Step>, s: State, id: Id, n: NewRecording)
    requires Reaches(steps, s) && id !in s.uploads
    ensures forall q | HasKey(s.w, q, n) ::
              Apply(s, Begin(id, n)) == s.(answers := s.answers + [Sent(n, Duplicate(q))])
    ensures !Known(s.w, n) ==>
              Apply(s, Begin(id, n)) == s.(uploads := s.uploads[id := Request(n, Streaming, [], false, false)])
  {
    ReachedInv(steps, s);
    if q :| HasKey(s.w, q, n) {
      KeyIsUniqueAll(s.w, q, n);
    }
  }

  /** The steps at which an upload fails: before the rename, at the insert, or reading the row back. */
  predicate Fails(step: Step, id: Id) {
    (step.Abandon? && step.id == id) || step == InsertFails(id) || step == ReadBackFails(id)
  }

  /** The answer is a rejection, sent or still to be sent after the clean-up. */
  predicate IsRejected(p: Phase) {
    p.GaveUp? || (p.Removing? && p.answer.Rejected?) || (p.Ended? && p.answer.Rejected?)
  }

  /** The answer names the row that was read back. */
  predicate NamesARow(p: Phase) {
    (p.Removing? || p.Ended?) && !p.answer.Rejected?
  }

  lemma OneStepRejects(s: State, step: Step, id: Id)
    requires Inv(s) && Enabled(s, step) && id in Apply(s, step).uploads
    ensures IsRejected(Apply(s, step).uploads[id].phase)
            <==> (id in s.uploads && IsRejected(s.uploads[id].phase)) || Fails(step, id)
  {
    if id in s.uploads {
      assert UploadInv(s.w, s.finals, s.temps, id, s.uploads[id]);
    }
  }

  lemma OneStepReads(s: State, step: Step, id: Id)
    requires Inv(s) && Enabled(s, step) && id in Apply(s, step).uploads
    ensures NamesARow(Apply(s, step).uploads[id].phase)
            <==> (id in s.uploads && NamesARow(s.uploads[id].phase)) || step == ReadBack(id)
  {
    if id in s.uploads {
      assert UploadInv(s.w, s.finals, s.temps, id, s.uploads[id]);
    }
  }

  lemma {:induction false} RunDecides(s: State, steps: seq<Step>, id: Id)
    requires Inv(s) && Legal(s, steps) && id in Run(s, steps).uploads
    ensures var after := Run(s, steps).uploads[id].phase;
            && (IsRejected(after) <==> (id in s.uploads && IsRejected(s.uploads[id].phase))
                                       || exists i | 0 <= i < |steps| :: Fails(steps[i], id))
            && (NamesARow(after) <==> (id in s.uploads && NamesARow(s.uploads[id].phase)) || ReadBack(id) in steps)
    decreases |steps|
  {
    if steps != [] {
      var v, rest := Apply(s, steps[0]), steps[1..];
      StepInv(s, steps[0]);
      RunDecides(v, rest, id);
      if id in v.uploads {
        OneStepRejects(s, steps[0], id);
        OneStepReads(s, steps[0], id);
      } else {
        NotYet(s, steps[0], id);
      }
      assert steps == [steps[0]] + rest;
      assert forall i | 0 < i < |steps| :: steps[i] == rest[i - 1];
    }
  }

  lemma NotYet(s: State, step: Step, id: Id)
    requires Enabled(s, step) && id !in Apply(s, step).uploads
    ensures id !in s.uploads && !Fails(step, id) && step != ReadBack(id)
  {
  }

  /**
   Over any run: an upload is rejected exactly if one of its own calls failed; once its
   row was read back it is answered `Stored` if its own insert made the row, and with
   the row that was there before otherwise.
   */
  lemma AnswersExactly(steps: seq<Step>, s: State, id: Id)
    requires Reaches(steps, s) && id in s.uploads
    ensures var p := s.uploads[id].phase;
            && (IsRejected(p) <==> exists i | 0 <= i < |steps| :: Fails(steps[i], id))
            && (p == Ended(Stored(id), NothingToDo) <==> id in s.w && ReadBack(id) in steps)
            && ((p.Removing? || p.Ended?) && p.answer.Duplicate? <==> id !in s.w && ReadBack(id) in steps)
            && ((p.Removing? || p.Ended?) && p.answer.Duplicate? ==> HasKey(s.w, p.answer.id, s.uploads[id].n))
  {
    ReachedInv(steps, s);
    RunDecides(START, steps, id);
    assert UploadInv(s.w, s.finals, s.temps, id, s.uploads[id]);
  }

  // -- Temp files ----------------------------------------------------------------------------------

  /** `dir` is what the file system shows of `temps`: each under its own name, and nothing else. */
  ghost predicate Shows(dir: Dir, temps: map<Id, Data>) {
    && (forall id {:trigger temps[id]} | id in temps :: TempName(id) in dir && dir[TempName(id)] == temps[id])
    && (forall name | name in dir :: exists id :: id in temps && TempName(id) == name)
  }

  /** The sweep of the temp directory is the restart's effect on temp files: all go but those whose removal failed. */
  lemma RestartSweeps(s: State, dir: Dir, stuck: set<string>, left: set<Id>)
    requires Shows(dir, s.temps) && forall id :: id in left <==> id in s.temps && TempName(id) in stuck
    ensures Shows(Swept(dir, stuck), Apply(s, Restart(left)).temps)
    ensures stuck == {} ==> Swept(dir, stuck) == map[] && Apply(s, Restart(left)).temps == map[]
  {
    var swept, temps := Swept(dir, stuck), Apply(s, Restart(left)).temps;
    forall id | id in temps ensures TempName(id) in swept && swept[TempName(id)] == temps[id] {
      assert s.temps[id] == dir[TempName(id)];
    }
    forall name | name in swept ensures exists id :: id in temps && TempName(id) == name {
      var id :| id in s.temps && TempName(id) == name;
      TempIsPart(id);
      assert id in temps;
    }
  }

  // -- The assumption is needed ---------------------------------------------------------------------

  const CLIENT := NewRecording("client", "recording", None, 0)

  const LOSING := [Begin(0, CLIENT), CreateTemp(0), Finalize(0), Insert(0), ReadBackFails(0), Remove(0, true)]

  function Handler(phase: Phase, created: bool): Request {
    Request(CLIENT, phase, [], created, false)
  }

  /** `steps` lead from `s` to `e`. */
  ghost predicate Leads(s: State, steps: seq<Step>, e: State) {
    Legal(s, steps) && Run(s, steps) == e
  }

  lemma Before(s: State, step: Step, v: State, rest: seq<Step>, e: State)
    requires Enabled(s, step) && Apply(s, step) == v && Leads(v, rest, e)
    ensures Leads(s, [step] + rest, e)
  {
    assert ([step] + rest)[1..] == rest;
  }

  /** The insert commits, the read-back fails, and the clean-up removes the blob. */
  lemma LosingEnd(s3: State, rows: World)
    requires rows == map[0 := FreshCase(CLIENT)]
    requires s3 == State(map[], map[], map[0 := []], map[0 := Handler(Finalized, false)], [])
    ensures Leads(s3, [Insert(0), ReadBackFails(0), Remove(0, true)],
                  State(rows, map[], map[], map[0 := Handler(Ended(Rejected, Removed), true)],
                        [Sent(CLIENT, Rejected)]))
  {
    var s4 := s3.(w := rows, uploads := map[0 := Handler(Inserted, true)]);
    var s5 := s4.(uploads := map[0 := Handler(Removing(Rejected), true)]);
    var s6 := State(rows, map[], map[], map[0 := Handler(Ended(Rejected, Removed), true)], [Sent(CLIENT, Rejected)]);
    assert forall q :: !HasKey(map[], q, CLIENT);
    assert CreateRecording(map[], 0, CLIENT) == Outcome(rows, Created);
    assert Apply(s3, Insert(0)) == s4;
    Before(s5, Remove(0, true), s6, [], s6);
    Before(s4, ReadBackFails(0), s5, [Remove(0, true)], s6);
    Before(s3, Insert(0), s4, [ReadBackFails(0)] + [Remove(0, true)], s6);
    assert [Insert(0)] + ([ReadBackFails(0)] + [Remove(0, true)]) == [Insert(0), ReadBackFails(0), Remove(0, true)];
  }

  /** One upload whose read-back fails leaves a Recording without audio. */
  lemma ReadBackMatters()
    ensures Legal(START, LOSING)
    ensures var s := Run(START, LOSING); 0 in s.w && 0 !in s.finals && LostAudio(s, 0)
  {
    var rows: World := map[0 := FreshCase(CLIENT)];
    var s1 := START.(uploads := map[0 := Handler(Streaming, false)]);
    var s2 := s1.(temps := map[0 := []]);
    var s3 := State(map[], map[], map[0 := []], map[0 := Handler(Finalized, false)], []);
    var s6 := State(rows, map[], map[], map[0 := Handler(Ended(Rejected, Removed), true)], [Sent(CLIENT, Rejected)]);
    var end := [Insert(0), ReadBackFails(0), Remove(0, true)];
    LosingEnd(s3, rows);
    assert Apply(START, Begin(0, CLIENT)) == s1 by { assert forall q :: !HasKey(map[], q, CLIENT); }
    assert Apply(s2, Finalize(0)) == s3;
    Before(s2, Finalize(0), s3, end, s6);
    Before(s1, CreateTemp(0), s2, [Finalize(0)] + end, s6);
    Before(START, Begin(0, CLIENT), s1, [CreateTemp(0)] + ([Finalize(0)] + end), s6);
    assert LOSING == [Begin(0, CLIENT)] + ([CreateTemp(0)] + ([Finalize(0)] + end));
  }
}
