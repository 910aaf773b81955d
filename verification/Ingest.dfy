/**
 The body of an upload: one byte budget over every field, a cap on text fields,
 exactly one audio field, and the WAV header read from the leading bytes.

 Multipart framing is a list of fields, each a list of chunks, that may break off
 after any chunk. Whether bytes are UTF-8 is a parameter.
 */
module Ingest {
  import opened Bytes
  import opened Wav
  import opened Wrappers

  const MAX_TEXT_FIELD_BYTES := 64 * 1024
  const HEADER_SCAN_BYTES := 64 * 1024

  datatype ApiError = MissingAudio | MultipleAudio | PayloadTooLarge | UnsupportedAudio | InvalidMultipart

  datatype FieldName = Audio | TagsField | RecordedAt | Unknown

  /** `broken`: reading on after the last chunk fails. */
  datatype Field = Field(name: FieldName, chunks: seq<Data>, broken: bool) {
    function Size(): nat { Total(chunks) }
    function Content(): Data { Join(chunks) }
  }

  /** `broken`: no further field can be read. */
  datatype Body = Body(fields: seq<Field>, broken: bool)

  /** What has been read of a body. */
  datatype Parts = Parts(audio: Option<Data>, tags: Option<Data>, recordedAt: Option<Data>)

  function Total(chunks: seq<Data>): nat {
    if chunks == [] then 0 else Total(chunks[..|chunks| - 1]) + |chunks[|chunks| - 1]|
  }

  function Join(chunks: seq<Data>): (d: Data)
    ensures |d| == Total(chunks)
  {
    if chunks == [] then [] else Join(chunks[..|chunks| - 1]) + chunks[|chunks| - 1]
  }

  lemma {:induction false} TotalGrows(chunks: seq<Data>, i: nat)
    requires i <= |chunks|
    ensures Total(chunks[..i]) <= Total(chunks)
    decreases |chunks| - i
  {
    if i < |chunks| {
      assert chunks[..i + 1][..i] == chunks[..i];
      TotalGrows(chunks, i + 1);
    } else {
      assert chunks[..i] == chunks;
    }
  }

  lemma NextChunk(chunks: seq<Data>, i: nat)
    requires i < |chunks|
    ensures Total(chunks[..i + 1]) == Total(chunks[..i]) + |chunks[i]| <= Total(chunks)
    ensures Join(chunks[..i + 1]) == Join(chunks[..i]) + chunks[i]
  {
    assert chunks[..i + 1][..i] == chunks[..i];
    TotalGrows(chunks, i + 1);
  }

  /** The bytes of the chunks, each where the chunks before it end. */
  lemma {:induction false} JoinedInOrder(chunks: seq<Data>, i: nat, k: nat)
    requires i < |chunks| && k < |chunks[i]|
    ensures Total(chunks[..i]) + k < |Join(chunks)|
    ensures Join(chunks)[Total(chunks[..i]) + k] == chunks[i][k]
    decreases |chunks|
  {
    var init := chunks[..|chunks| - 1];
    assert Join(chunks) == Join(init) + chunks[|chunks| - 1];
    if i < |init| {
      assert init[..i] == chunks[..i];
      JoinedInOrder(init, i, k);
    } else {
      assert chunks[..i] == init;
    }
  }

  function Charge(remaining: nat, len: nat): Result<nat, ApiError> {
    if len <= remaining then Success(remaining - len) else Failure(PayloadTooLarge)
  }

  // -- One field -----------------------------------------------------------------------

  /** The audio reaches the file whole and in order, or the first limit crossed is reported. */
  method StreamToFile(field: Field, budget: nat) returns (result: Result<(Data, nat), ApiError>)
    ensures result == if field.Size() > budget then Failure(PayloadTooLarge)
                      else if field.broken then Failure(InvalidMultipart)
                      else Success((field.Content(), budget - field.Size()))
  {
    var file: Data, remaining := [], budget;
    for i := 0 to |field.chunks|
      invariant Total(field.chunks[..i]) <= budget
      invariant remaining == budget - Total(field.chunks[..i]) && file == Join(field.chunks[..i])
    {
      NextChunk(field.chunks, i);
      var charged := Charge(remaining, |field.chunks[i]|);
      if charged.Failure? {
        return Failure(charged.error);
      }
      remaining := charged.value;
      file := file + field.chunks[i];
    }
    assert field.chunks[..|field.chunks|] == field.chunks;
    if field.broken {
      return Failure(InvalidMultipart);
    }
    return Success((file, remaining));
  }

  method ReadTextField(field: Field, budget: nat, utf8: Data -> bool) returns (result: Result<(Data, nat), ApiError>)
    ensures result == if field.Size() > budget || field.Size() > 65_536 then Failure(PayloadTooLarge)
                      else if field.broken || !utf8(field.Content()) then Failure(InvalidMultipart)
                      else Success((field.Content(), budget - field.Size()))
  {
    var buffer: Data, remaining := [], budget;
    for i := 0 to |field.chunks|
      invariant Total(field.chunks[..i]) <= budget && Total(field.chunks[..i]) <= MAX_TEXT_FIELD_BYTES
      invariant remaining == budget - Total(field.chunks[..i]) && buffer == Join(field.chunks[..i])
    {
      NextChunk(field.chunks, i);
      var charged := Charge(remaining, |field.chunks[i]|);
      if charged.Failure? {
        return Failure(charged.error);
      }
      remaining := charged.value;
      if |buffer| + |field.chunks[i]| > MAX_TEXT_FIELD_BYTES {
        return Failure(PayloadTooLarge);
      }
      buffer := buffer + field.chunks[i];
    }
    assert field.chunks[..|field.chunks|] == field.chunks;
    if field.broken || !utf8(buffer) {
      return Failure(InvalidMultipart);
    }
    return Success((buffer, remaining));
  }

  method DiscardField(field: Field, budget: nat) returns (result: Result<nat, ApiError>)
    ensures result == if field.Size() > budget then Failure(PayloadTooLarge)
                      else if field.broken then Failure(InvalidMultipart)
                      else Success(budget - field.Size())
  {
    var remaining := budget;
    for i := 0 to |field.chunks|
      invariant Total(field.chunks[..i]) <= budget && remaining == budget - Total(field.chunks[..i])
    {
      NextChunk(field.chunks, i);
      var charged := Charge(remaining, |field.chunks[i]|);
      if charged.Failure? {
        return Failure(charged.error);
      }
      remaining := charged.value;
    }
    assert field.chunks[..|field.chunks|] == field.chunks;
    return if field.broken then Failure(InvalidMultipart) else Success(remaining);
  }

  // -- The whole body -----------------------------------------------------------------------

  /** A field that can be read to its end when the budget allows it. */
  predicate Readable(f: Field, utf8: Data -> bool) {
    && !f.broken
    && (f.name.TagsField? || f.name.RecordedAt? ==> f.Size() <= MAX_TEXT_FIELD_BYTES && utf8(f.Content()))
  }

  function Spent(fields: seq<Field>): nat {
    if fields == [] then 0 else Spent(fields[..|fields| - 1]) + fields[|fields| - 1].Size()
  }

  function AudioFields(fields: seq<Field>): nat {
    if fields == [] then 0
    else AudioFields(fields[..|fields| - 1]) + (if fields[|fields| - 1].name.Audio? then 1 else 0)
  }

  /** The content of the last field of a name. */
  function Last(fields: seq<Field>, name: FieldName): Option<Data> {
    if fields == [] then None
    else if fields[|fields| - 1].name == name then Some(fields[|fields| - 1].Content())
    else Last(fields[..|fields| - 1], name)
  }

  /** The part kept of a name is its last field, if there is one. */
  lemma {:induction false} LastIsLast(fields: seq<Field>, name: FieldName)
    ensures Last(fields, name).None? <==> forall i | 0 <= i < |fields| :: fields[i].name != name
    ensures Last(fields, name).Some? ==>
              exists i | 0 <= i < |fields| ::
                && fields[i].name == name && Last(fields, name) == Some(Join(fields[i].chunks))
                && forall j | i < j < |fields| :: fields[j].name != name
  {
    if fields != [] && fields[|fields| - 1].name != name {
      var init := fields[..|fields| - 1];
      LastIsLast(init, name);
      if Last(init, name).Some? {
        var i :| 0 <= i < |init| && init[i].name == name && Last(init, name) == Some(Join(init[i].chunks))
                 && forall j | i < j < |init| :: init[j].name != name;
        assert fields[i] == init[i];
        forall j | i < j < |fields| ensures fields[j].name != name {
          assert j == |fields| - 1 || init[j].name != name;
        }
      }
    }
  }

  function Contents(fields: seq<Field>): seq<Data> {
    if fields == [] then [] else Contents(fields[..|fields| - 1]) + [fields[|fields| - 1].Content()]
  }

  /** What is charged are all the bytes of all the fields. */
  lemma {:induction false} EveryByteIsCharged(fields: seq<Field>)
    ensures Spent(fields) == |Join(Contents(fields))|
  {
    if fields != [] {
      var init := fields[..|fields| - 1];
      EveryByteIsCharged(init);
      assert Contents(fields)[..|Contents(init)|] == Contents(init);
    }
  }

  ghost function AudioIndices(fields: seq<Field>): set<nat> {
    set i: nat | i < |fields| && fields[i].name.Audio?
  }

  lemma {:induction false} AudioIsCounted(fields: seq<Field>)
    ensures AudioFields(fields) == |AudioIndices(fields)|
  {
    if fields == [] {
      assert AudioIndices(fields) == {};
    } else {
      var n := |fields| - 1;
      var rest := AudioIndices(fields[..n]);
      AudioIsCounted(fields[..n]);
      assert AudioIndices(fields) == if fields[n].name.Audio? then rest + {n} else rest;
    }
  }

  /** What the limits allow: every field readable, all of them within the budget, one audio field. */
  ghost predicate Acceptable(body: Body, max: nat, utf8: Data -> bool) {
    && !body.broken
    && (forall i | 0 <= i < |body.fields| :: Readable(body.fields[i], utf8))
    && Spent(body.fields) <= max
    && AudioFields(body.fields) == 1
  }

  lemma {:induction false} NextField(fields: seq<Field>, i: nat)
    requires i < |fields|
    ensures Spent(fields[..i + 1]) == Spent(fields[..i]) + fields[i].Size() <= Spent(fields)
    ensures AudioFields(fields[..i + 1]) == AudioFields(fields[..i]) + (if fields[i].name.Audio? then 1 else 0)
            <= AudioFields(fields)
    decreases |fields| - i
  {
    var upTo := fields[..i + 1];
    assert upTo[..|upTo| - 1] == fields[..i] && upTo[|upTo| - 1] == fields[i];
    assert Spent(upTo) == Spent(fields[..i]) + fields[i].Size();
    assert AudioFields(upTo) == AudioFields(fields[..i]) + (if fields[i].name.Audio? then 1 else 0);
    if i + 1 < |fields| {
      NextField(fields, i + 1);
      assert Spent(upTo) <= Spent(fields) && AudioFields(upTo) <= AudioFields(fields);
    } else {
      assert upTo == fields;
    }
  }

  lemma NextLast(fields: seq<Field>, i: nat, name: FieldName)
    requires i < |fields|
    ensures Last(fields[..i + 1], name)
            == if fields[i].name == name then Some(fields[i].Content()) else Last(fields[..i], name)
  {
    assert fields[..i + 1][..i] == fields[..i];
  }

  /** What is kept of the fields read so far. */
  function PartsOf(fields: seq<Field>): Parts {
    Parts(Last(fields, Audio), Last(fields, TagsField), Last(fields, RecordedAt))
  }

  lemma NextParts(fields: seq<Field>, i: nat)
    requires i < |fields|
    ensures var (parts, content) := (PartsOf(fields[..i]), Some(fields[i].Content()));
            PartsOf(fields[..i + 1]) == match fields[i].name
                                        case Audio => parts.(audio := content)
                                        case TagsField => parts.(tags := content)
                                        case RecordedAt => parts.(recordedAt := content)
                                        case Unknown => parts
  {
    NextLast(fields, i, Audio);
    NextLast(fields, i, TagsField);
    NextLast(fields, i, RecordedAt);
  }

  /** The body is accepted exactly when the limits allow it, and the parts are then the fields' contents. */
  method ReadBody(body: Body, max: nat, utf8: Data -> bool) returns (result: Result<Parts, ApiError>)
    ensures result.Success? <==> Acceptable(body, max, utf8)
    ensures result.Success? ==>
              result.value == Parts(Last(body.fields, Audio), Last(body.fields, TagsField),
                                    Last(body.fields, RecordedAt))
    ensures result.Success? ==> result.value.audio.Some?
    ensures result == Failure(MultipleAudio) ==> AudioFields(body.fields) > 1
    ensures result == Failure(MissingAudio) ==> AudioFields(body.fields) == 0
    ensures result == Failure(PayloadTooLarge) ==>
              Spent(body.fields) > max
              || exists i | 0 <= i < |body.fields| :: body.fields[i].Size() > MAX_TEXT_FIELD_BYTES
    ensures result == Failure(InvalidMultipart) ==>
              body.broken || exists i | 0 <= i < |body.fields| :: !Readable(body.fields[i], utf8)
  {
    var parts, remaining := Parts(None, None, None), max;
    for i := 0 to |body.fields|
      invariant forall j | 0 <= j < i :: Readable(body.fields[j], utf8)
      invariant Spent(body.fields[..i]) <= max && remaining == max - Spent(body.fields[..i])
      invariant AudioFields(body.fields[..i]) == (if parts.audio.Some? then 1 else 0)
      invariant parts == PartsOf(body.fields[..i])
    {
      var field := body.fields[i];
      NextField(body.fields, i);
      NextParts(body.fields, i);
      match field.name {
        case Audio =>
          if parts.audio.Some? {
            return Failure(MultipleAudio);
          }
          var streamed := StreamToFile(field, remaining);
          if streamed.Failure? {
            return Failure(streamed.error);
          }
          parts, remaining := parts.(audio := Some(streamed.value.0)), streamed.value.1;
        case TagsField =>
          var text := ReadTextField(field, remaining, utf8);
          if text.Failure? {
            return Failure(text.error);
          }
          parts, remaining := parts.(tags := Some(text.value.0)), text.value.1;
        case RecordedAt =>
          var text := ReadTextField(field, remaining, utf8);
          if text.Failure? {
            return Failure(text.error);
          }
          parts, remaining := parts.(recordedAt := Some(text.value.0)), text.value.1;
        case Unknown =>
          var left := DiscardField(field, remaining);
          if left.Failure? {
            return Failure(left.error);
          }
          remaining := left.value;
      }
    }
    assert body.fields[..|body.fields|] == body.fields;
    if body.broken {
      return Failure(InvalidMultipart);
    }
    if parts.audio.None? {
      return Failure(MissingAudio);
    }
    return Success(parts);
  }

  // -- The header ------------------------------------------------------------------------------

  function LeadingBytes(file: Data, max: nat): Data {
    if |file| <= max then file else file[..max]
  }

  /** Reads may be short; the buffer ends up with the leading bytes all the same. */
  method ReadLeadingBytes(file: Data, max: nat) returns (bytes: Data)
    ensures bytes == LeadingBytes(file, max)
  {
    var buffer := new Byte[max](_ => 0);
    var filled := 0;
    while filled < buffer.Length && filled < |file|
      invariant filled <= buffer.Length && filled <= |file|
      invariant buffer[..filled] == file[..filled]
      decreases buffer.Length - filled
    {
      var limit := if buffer.Length <= |file| then buffer.Length else |file|;
      var read: nat :| 0 < read <= limit - filled;
      forall k | filled <= k < filled + read {
        buffer[k] := file[k];
      }
      filled := filled + read;
    }
    bytes := buffer[..filled];
  }

  /** The metadata stored with an accepted upload. */
  method ReadMetadata(file: Data) returns (info: Result<WavInfo, ApiError>)
    ensures info.Failure? <==> Parse(LeadingBytes(file, HEADER_SCAN_BYTES)).Failure?
    ensures info.Success? ==> Success(info.value) == Parse(LeadingBytes(file, HEADER_SCAN_BYTES))
    ensures info.Failure? ==> info.error == UnsupportedAudio
  {
    var header := ReadLeadingBytes(file, HEADER_SCAN_BYTES);
    var parsed := ParseHeader(header);
    if parsed.Failure? {
      return Failure(UnsupportedAudio);
    }
    return Success(parsed.value);
  }

  /** Scanning 64 KiB of a file gives what scanning all of it would, as soon as a data header is found there. */
  lemma LeadingBytesSuffice(file: Data)
    requires Parse(LeadingBytes(file, HEADER_SCAN_BYTES)).Success?
    requires Parse(LeadingBytes(file, HEADER_SCAN_BYTES)).value.dataLenBytes.Some?
    ensures Parse(file) == Parse(LeadingBytes(file, HEADER_SCAN_BYTES))
  {
    MoreBytesSameAnswer(LeadingBytes(file, HEADER_SCAN_BYTES), file);
  }

  /** For a WAVE file the scan finds format and length exactly when the data header ends within 64 KiB. */
  lemma StoredMetadata(f: File)
    requires f.Valid()
    ensures var scan := Parse(LeadingBytes(f.Bytes(), HEADER_SCAN_BYTES));
            && (scan == Parse(f.Bytes()) <==> f.DataOffset() + 8 <= 65_536)
            && (scan.Failure? <==> 65_536 < f.FormatOffset() + 8 + 16)
  {
    var n := |LeadingBytes(f.Bytes(), HEADER_SCAN_BYTES)|;
    assert LeadingBytes(f.Bytes(), HEADER_SCAN_BYTES) == f.Bytes()[..n];
    assert f.Bytes()[..|f.Bytes()|] == f.Bytes();
    EveryPrefixIsParsed(f, n);
    EveryPrefixIsParsed(f, |f.Bytes()|);
  }
}
