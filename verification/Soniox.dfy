/**
 One Transcription at the provider: upload, create, poll, fetch, and the removal
 of whatever was left there, on every way out.

 The provider is a script of answers; each of its operations but the status
 query is used at most once in a run, so a script covers every sequence of
 answers. Errors arrive already classified as retryable or terminal.
 */
module Soniox {
  import Render
  import opened Wrappers

  type Name = string

  datatype WorkerFailure = Retryable(message: string) | Terminal(message: string)

  /** The `status` of a status document. */
  datatype Progress = Completed | InError(failure: WorkerFailure) | Pending(status: string) | NoStatus

  /** A transcript as the provider sends it. */
  datatype Document = Document(text: string, tokens: seq<Render.Token>)

  datatype Script = Script(
    audio: Result<string, WorkerFailure>,
    upload: Result<Name, WorkerFailure>,
    create: Result<Name, WorkerFailure>,
    status: nat -> Result<Progress, WorkerFailure>,
    transcript: Result<Document, WorkerFailure>,
    deletions: nat -> bool)

  datatype Call =
    | UploadFile
    | CreateTranscription(file: Name)
    | GetTranscription(id: Name)
    | GetTranscript(id: Name)
    | DeleteTranscription(id: Name)
    | DeleteFile(file: Name)

  datatype Output = Output(text: string, file: Name, transcription: Name)

  const UNDECODED := Terminal("transcription response missing status")
  const TIMED_OUT := Retryable("transcription not completed")

  class Transport {
    const script: Script
    var calls: seq<Call>
    var polls: nat

    constructor (script: Script)
      ensures this.script == script && calls == [] && polls == 0
    {
      this.script, calls, polls := script, [], 0;
    }

    method Upload() returns (file: Result<Name, WorkerFailure>)
      modifies this
      ensures file == script.upload && calls == old(calls) + [UploadFile] && polls == old(polls)
    {
      calls := calls + [UploadFile];
      return script.upload;
    }

    method Create(file: Name) returns (id: Result<Name, WorkerFailure>)
      modifies this
      ensures id == script.create && calls == old(calls) + [CreateTranscription(file)] && polls == old(polls)
    {
      calls := calls + [CreateTranscription(file)];
      return script.create;
    }

    method Status(id: Name) returns (status: Result<Progress, WorkerFailure>)
      modifies this
      ensures status == script.status(old(polls)) && calls == old(calls) + [GetTranscription(id)]
      ensures polls == old(polls) + 1
    {
      status := script.status(polls);
      calls, polls := calls + [GetTranscription(id)], polls + 1;
    }

    method Transcript(id: Name) returns (document: Result<Document, WorkerFailure>)
      modifies this
      ensures document == script.transcript && calls == old(calls) + [GetTranscript(id)] && polls == old(polls)
    {
      calls := calls + [GetTranscript(id)];
      return script.transcript;
    }

    /** Whether it worked is logged and otherwise ignored. */
    method Delete(call: Call) returns (deleted: bool)
      modifies this
      ensures calls == old(calls) + [call] && polls == old(polls)
    {
      deleted := script.deletions(|calls|);
      calls := calls + [call];
    }
  }

  // -- What a run does ------------------------------------------------------------------

  /** The first poll from number `from` on that settles the matter, or `max` if none before it does. */
  function Settles(status: nat -> Result<Progress, WorkerFailure>, from: nat, max: nat): (n: nat)
    requires from <= max
    ensures from <= n <= max
    ensures n < max ==> !IsPending(status(n))
    ensures forall i: nat {:trigger status(i)} | from <= i < n :: IsPending(status(i))
    decreases max - from
  {
    if from == max || !IsPending(status(from)) then from else Settles(status, from + 1, max)
  }

  predicate IsPending(answer: Result<Progress, WorkerFailure>) {
    answer.Success? && answer.value.Pending?
  }

  function Verdict(answer: Result<Progress, WorkerFailure>): Option<WorkerFailure>
    requires !IsPending(answer)
  {
    match answer
    case Failure(f) => Some(f)
    case Success(Completed) => None
    case Success(InError(f)) => Some(f)
    case Success(NoStatus) => Some(UNDECODED)
  }

  /** How polling ends: `None` for a completed Transcription. */
  function PollResult(status: nat -> Result<Progress, WorkerFailure>, maxPolls: nat): Option<WorkerFailure> {
    var n := Settles(status, 0, maxPolls);
    if n == maxPolls then Some(TIMED_OUT) else Verdict(status(n))
  }

  function PollCount(status: nat -> Result<Progress, WorkerFailure>, maxPolls: nat): nat {
    var n := Settles(status, 0, maxPolls);
    if n == maxPolls then n else n + 1
  }

  function Polls(id: Name, n: nat): (calls: seq<Call>)
    ensures |calls| == n
  {
    seq(n, _ => GetTranscription(id))
  }

  /** The calls of a run, in order. */
  function Trace(s: Script, maxPolls: nat): seq<Call> {
    if s.audio.Failure? then []
    else if s.upload.Failure? then [UploadFile]
    else
      var file := s.upload.value;
      [UploadFile, CreateTranscription(file)]
      + (if s.create.Failure? then []
         else
           var id := s.create.value;
           Polls(id, PollCount(s.status, maxPolls))
           + (if PollResult(s.status, maxPolls).Some? then [] else [GetTranscript(id)])
           + [DeleteTranscription(id)])
      + [DeleteFile(file)]
  }

  function Ending(s: Script, maxPolls: nat): Result<Output, WorkerFailure> {
    if s.audio.Failure? then Failure(s.audio.error)
    else if s.upload.Failure? then Failure(s.upload.error)
    else if s.create.Failure? then Failure(s.create.error)
    else if PollResult(s.status, maxPolls).Some? then Failure(PollResult(s.status, maxPolls).value)
    else if s.transcript.Failure? then Failure(s.transcript.error)
    else
      var document := s.transcript.value;
      Success(Output(Render.Rendered(document.text, document.tokens), s.upload.value, s.create.value))
  }

  method Poll(t: Transport, id: Name, maxPolls: nat) returns (failure: Option<WorkerFailure>)
    requires t.polls == 0
    modifies t
    ensures failure == PollResult(t.script.status, maxPolls)
    ensures t.calls == old(t.calls) + Polls(id, PollCount(t.script.status, maxPolls))
  {
    for i := 0 to maxPolls
      invariant t.polls == i && t.calls == old(t.calls) + Polls(id, i)
      invariant Settles(t.script.status, 0, maxPolls) == Settles(t.script.status, i, maxPolls)
    {
      var status := t.Status(id);
      assert Polls(id, i + 1) == Polls(id, i) + [GetTranscription(id)];
      match status {
        case Failure(f) => return Some(f);
        case Success(progress) =>
          match progress {
            case Completed => return None;
            case InError(f) => return Some(f);
            case NoStatus => return Some(UNDECODED);
            case Pending(_) =>
          }
      }
    }
    return Some(TIMED_OUT);
  }

  method Cleanup(t: Transport, id: Name, file: Name)
    modifies t
    ensures t.calls == old(t.calls) + [DeleteTranscription(id), DeleteFile(file)]
  {
    var _ := t.Delete(DeleteTranscription(id));
    var _ := t.Delete(DeleteFile(file));
  }

  method Run(t: Transport, maxPolls: nat) returns (result: Result<Output, WorkerFailure>)
    requires t.calls == [] && t.polls == 0
    modifies t
    ensures t.calls == Trace(t.script, maxPolls)
    ensures result == Ending(t.script, maxPolls)
  {
    if t.script.audio.Failure? {
      return Failure(t.script.audio.error);
    }
    var file := t.Upload();
    if file.Failure? {
      return Failure(file.error);
    }
    var id := t.Create(file.value);
    if id.Failure? {
      var _ := t.Delete(DeleteFile(file.value));
      return Failure(id.error);
    }
    var failure := Poll(t, id.value, maxPolls);
    if failure.Some? {
      Cleanup(t, id.value, file.value);
      return Failure(failure.value);
    }
    var document := t.Transcript(id.value);
    if document.Failure? {
      Cleanup(t, id.value, file.value);
      return Failure(document.error);
    }
    var text := Render.RenderTokens(document.value.text, document.value.tokens);
    Cleanup(t, id.value, file.value);
    return Success(Output(text, file.value, id.value));
  }

  // -- What every run keeps ----------------------------------------------------------------

  predicate Only(calls: seq<Call>, at: int, call: Call) {
    forall i | 0 <= i < |calls| :: calls[i] == call <==> i == at
  }

  /** The file is deleted once, last, exactly if it was uploaded. */
  lemma FilesAreReleased(s: Script, maxPolls: nat)
    ensures var calls := Trace(s, maxPolls);
            var uploaded := s.audio.Success? && s.upload.Success?;
            && (uploaded ==> |calls| > 0 && Only(calls, |calls| - 1, DeleteFile(s.upload.value)))
            && (forall i | 0 <= i < |calls| && calls[i].DeleteFile? ::
                  uploaded && i == |calls| - 1 && calls[i].file == s.upload.value)
            && (uploaded <==> UploadFile in calls && s.upload.Success?)
  {
  }

  /** The Transcription is deleted once, just before the file, exactly if it was created. */
  lemma TranscriptionsAreReleased(s: Script, maxPolls: nat)
    ensures var calls := Trace(s, maxPolls);
            var created := s.audio.Success? && s.upload.Success? && s.create.Success?;
            && (created ==> |calls| > 1 && Only(calls, |calls| - 2, DeleteTranscription(s.create.value)))
            && (forall i | 0 <= i < |calls| && calls[i].DeleteTranscription? ::
                  created && i == |calls| - 2 && calls[i].id == s.create.value)
  {
  }

  /** The status queries come between creation and the first deletion, and there are at most `maxPolls`. */
  lemma PollsAreBounded(s: Script, maxPolls: nat)
    ensures var calls := Trace(s, maxPolls);
            var created := s.audio.Success? && s.upload.Success? && s.create.Success?;
            var n := if created then PollCount(s.status, maxPolls) else 0;
            && n <= maxPolls
            && forall i | 0 <= i < |calls| :: calls[i].GetTranscription? <==> 2 <= i < 2 + n
  {
  }

  ghost predicate CompletesAt(s: Script, n: nat) {
    s.status(n) == Success(Completed) && forall i: nat {:trigger s.status(i)} | i < n :: IsPending(s.status(i))
  }

  /** Success exactly when every operation succeeded and a status within the budget said `completed`. */
  lemma SuccessMeansCompleted(s: Script, maxPolls: nat)
    ensures Ending(s, maxPolls).Success? <==>
              && s.audio.Success? && s.upload.Success? && s.create.Success? && s.transcript.Success?
              && exists n: nat | n < maxPolls :: CompletesAt(s, n)
  {
    var m := Settles(s.status, 0, maxPolls);
    if n: nat :| n < maxPolls && CompletesAt(s, n) {
      assert m == n;
    }
    if PollResult(s.status, maxPolls).None? {
      assert CompletesAt(s, m);
    }
  }

  // -- What comes back -----------------------------------------------------------------------

  /** Poll `n` is the first whose answer is not a status that says to wait. */
  ghost predicate SettledBy(s: Script, n: nat) {
    && !(s.status(n).Success? && s.status(n).value.Pending?)
    && forall i: nat {:trigger s.status(i)} | i < n :: s.status(i).Success? && s.status(i).value.Pending?
  }

  lemma SettledOnce(s: Script, maxPolls: nat, n: nat)
    requires SettledBy(s, n) && n < maxPolls
    ensures Settles(s.status, 0, maxPolls) == n
  {
  }

  /** On success: what the transcript query answered, rendered, and the two objects the run then deleted. */
  lemma SuccessIsTheTranscript(s: Script, maxPolls: nat)
    requires Ending(s, maxPolls).Success?
    ensures var (output, calls) := (Ending(s, maxPolls).value, Trace(s, maxPolls));
            && s.transcript.Success?
            && output.text == Render.Rendered(s.transcript.value.text, s.transcript.value.tokens)
            && |calls| >= 2 && calls[|calls| - 1] == DeleteFile(output.file)
            && calls[|calls| - 2] == DeleteTranscription(output.transcription)
            && GetTranscript(output.transcription) in calls && CreateTranscription(output.file) in calls
            && s.upload == Success(output.file) && s.create == Success(output.transcription)
  {
    var calls, id := Trace(s, maxPolls), s.create.value;
    var polls := Polls(id, PollCount(s.status, maxPolls));
    assert calls == [UploadFile, CreateTranscription(s.upload.value)] + (polls + [GetTranscript(id)]
                    + [DeleteTranscription(id)]) + [DeleteFile(s.upload.value)];
    assert calls[1] == CreateTranscription(s.upload.value) && calls[2 + |polls|] == GetTranscript(id);
  }

  /**
   On failure: the error of the first operation that failed, or of the first poll
   that did not say to wait, or a retryable timeout when every poll did.
   */
  lemma FailureIsTheFirst(s: Script, maxPolls: nat)
    requires Ending(s, maxPolls).Failure?
    ensures var error := Ending(s, maxPolls).error;
            if s.audio.Failure? then error == s.audio.error
            else if s.upload.Failure? then error == s.upload.error
            else if s.create.Failure? then error == s.create.error
            else if exists n: nat | n < maxPolls :: SettledBy(s, n) then
              forall n: nat | n < maxPolls && SettledBy(s, n) ::
                match s.status(n)
                case Failure(f) => error == f
                case Success(InError(f)) => error == f
                case Success(NoStatus) => error == Terminal("transcription response missing status")
                case Success(Completed) => s.transcript.Failure? && s.transcript.error == error
                case Success(Pending(_)) => false
            else error == Retryable("transcription not completed")
  {
    var m := Settles(s.status, 0, maxPolls);
    forall n: nat | n < maxPolls && SettledBy(s, n) ensures n == m {
      SettledOnce(s, maxPolls, n);
    }
    assert m < maxPolls ==> SettledBy(s, m);
  }

  /** Every call of a run names the file that was uploaded or the Transcription that was created. */
  lemma CallsNameTheirObjects(s: Script, maxPolls: nat, i: nat)
    requires i < |Trace(s, maxPolls)|
    ensures var call := Trace(s, maxPolls)[i];
            && (call.CreateTranscription? ==> i == 1 && s.upload == Success(call.file))
            && (call.GetTranscription? || call.GetTranscript? ==> s.create == Success(call.id))
            && (call.UploadFile? <==> i == 0)
            && (call.GetTranscript? ==>
                  i + 3 == |Trace(s, maxPolls)| && exists n: nat | n < maxPolls :: CompletesAt(s, n))
  {
    if Trace(s, maxPolls)[i].GetTranscript? {
      assert CompletesAt(s, Settles(s.status, 0, maxPolls));
    }
  }
}
