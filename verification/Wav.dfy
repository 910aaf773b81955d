/**
 The RIFF/WAVE header scanner, against a writer of chunks.

 Chunk layout as in "RIFF WAVE", Multimedia Programming Interface and Data
 Specifications 1.0 (IBM and Microsoft, 1991): a four-byte id, a little-endian
 32-bit size, the body, and one pad byte after a body of odd size.
 */
module Wav {
  import opened Bytes
  import opened Wrappers

  const TWO_16: int := 0x1_0000
  const TWO_32: int := 0x1_0000_0000

  type U16 = x: int | 0 <= x < TWO_16
  type U32 = x: int | 0 <= x < TWO_32

  datatype Format = Format(sampleRateHz: U32, channels: U16, bitsPerSample: U16, byteRate: U32)

  datatype WavInfo = WavInfo(format: Format, dataLenBytes: Option<U32>) {
    function DurationMs(): Option<int> {
      if dataLenBytes.Some? && format.byteRate > 0
      then Some(dataLenBytes.value as int * 1000 / format.byteRate as int)
      else None
    }
  }

  datatype WavError = NotRiff | NotWave | MissingFmt | Malformed

  type Parsed = Result<WavInfo, WavError>

  const RIFF: Data := [0x52, 0x49, 0x46, 0x46]
  const WAVE: Data := [0x57, 0x41, 0x56, 0x45]
  const FMT: Data := [0x66, 0x6D, 0x74, 0x20]
  const DATA: Data := [0x64, 0x61, 0x74, 0x61]
  const FMT_BODY_LEN := 16

  // -- Little-endian numbers ------------------------------------------------------------

  function Limit(n: nat): (m: nat)
    ensures m > 0
  {
    if n == 0 then 1 else 0x100 * Limit(n - 1)
  }

  lemma Limits()
    ensures Limit(2) == TWO_16 && Limit(4) == TWO_32
  {
    assert Limit(1) == 0x100 && Limit(3) == 0x100_0000;
  }

  /** The number in the `n` bytes at `o`, least significant byte first. */
  function LeAt(bytes: Data, o: nat, n: nat): (x: nat)
    requires o + n <= |bytes|
    ensures x < Limit(n)
    decreases n, o
  {
    if n == 0 then 0 else bytes[o] as int + 0x100 * LeAt(bytes, o + 1, n - 1)
  }

  function U16At(bytes: Data, o: nat): U16
    requires o + 2 <= |bytes|
  {
    Limits(); LeAt(bytes, o, 2)
  }

  function U32At(bytes: Data, o: nat): U32
    requires o + 4 <= |bytes|
  {
    Limits(); LeAt(bytes, o, 4)
  }

  lemma {:induction false} SameLe(p: Data, o: nat, b: Data, i: nat, n: nat)
    requires o + n <= |p| && i + n <= |b|
    requires forall k | o <= k < o + n :: p[k] == b[k - o + i]
    ensures LeAt(p, o, n) == LeAt(b, i, n)
    decreases n
  {
    if n > 0 {
      SameLe(p, o + 1, b, i + 1, n - 1);
    }
  }

  /** The lowest byte of a number, and what is left of it above. */
  function LowByte(x: nat): Byte {
    if x < 0x100 then x else LowByte(x - 0x100)
  }

  function Above(x: nat): nat {
    if x < 0x100 then 0 else 1 + Above(x - 0x100)
  }

  lemma {:induction false} SplitByte(x: nat)
    ensures x == LowByte(x) as int + 0x100 * Above(x)
  {
    if x >= 0x100 {
      SplitByte(x - 0x100);
    }
  }

  /** `x` in `n` bytes: the low byte first, then the bytes of the rest. */
  function ToLe(x: nat, n: nat): (b: Data)
    ensures |b| == n
    decreases n, x
  {
    if n == 0 then [] else [LowByte(x)] + ToLe(Above(x), n - 1)
  }

  /** Reading what was written gives it back. */
  lemma {:induction false} WrittenIsRead(x: nat, n: nat)
    requires x < Limit(n)
    ensures LeAt(ToLe(x, n), 0, n) == x
    decreases n
  {
    if n > 0 {
      var b, high := ToLe(x, n), ToLe(Above(x), n - 1);
      SplitByte(x);
      WrittenIsRead(Above(x), n - 1);
      assert b == [LowByte(x)] + high;
      SameLe(b, 1, high, 0, n - 1);
    }
  }

  /** Two bytes and four bytes, with their weights. */
  lemma ByteOrder(bytes: Data, o: nat)
    ensures o + 2 <= |bytes| ==> U16At(bytes, o) == bytes[o] as int + 0x100 * bytes[o + 1] as int
    ensures o + 4 <= |bytes| ==>
              U32At(bytes, o) == bytes[o] as int + 0x100 * bytes[o + 1] as int
                                 + 0x1_0000 * bytes[o + 2] as int + 0x100_0000 * bytes[o + 3] as int
  {
    if o + 2 <= |bytes| {
      assert LeAt(bytes, o + 1, 1) == bytes[o + 1];
    }
    if o + 4 <= |bytes| {
      assert LeAt(bytes, o + 3, 1) == bytes[o + 3];
      assert LeAt(bytes, o + 2, 2) == bytes[o + 2] as int + 0x100 * LeAt(bytes, o + 3, 1);
      assert LeAt(bytes, o + 1, 3) == bytes[o + 1] as int + 0x100 * LeAt(bytes, o + 2, 2);
    }
  }

  function ToLe16(x: U16): (b: Data)
    ensures |b| == 2 && U16At(b, 0) == x
  {
    Limits();
    WrittenIsRead(x, 2);
    ToLe(x, 2)
  }

  function ToLe32(x: U32): (b: Data)
    ensures |b| == 4 && U32At(b, 0) == x
  {
    Limits();
    WrittenIsRead(x, 4);
    ToLe(x, 4)
  }

  // -- What the scan computes ---------------------------------------------------------

  /** The four bytes at `offset` are `id`. */
  predicate IsId(bytes: Data, offset: nat, id: Data)
    requires offset + 4 <= |bytes| && |id| == 4
  {
    && bytes[offset] == id[0] && bytes[offset + 1] == id[1]
    && bytes[offset + 2] == id[2] && bytes[offset + 3] == id[3]
  }

  /** The ids are the codes of their letters. */
  lemma IdsAreLetters()
    ensures Spells(RIFF, "RIFF") && Spells(WAVE, "WAVE") && Spells(FMT, "fmt ") && Spells(DATA, "data")
  {
  }

  predicate Spells(id: Data, letters: string) {
    |id| == |letters| && forall i | 0 <= i < |id| :: id[i] == letters[i] as int
  }

  lemma IdIsSlice(bytes: Data, offset: nat, id: Data)
    requires offset + 4 <= |bytes| && |id| == 4
    ensures IsId(bytes, offset, id) <==> bytes[offset..offset + 4] == id
  {
    var s := bytes[offset..offset + 4];
    assert s[0] == bytes[offset] && s[1] == bytes[offset + 1] && s[2] == bytes[offset + 2] && s[3] == bytes[offset + 3];
    if IsId(bytes, offset, id) {
      assert s == id;
    }
  }

  /** The room a body takes: chunks start at even offsets. */
  function Padded(size: nat): nat {
    if size == 0 then 0 else if size == 1 then 2 else 2 + Padded(size - 2)
  }

  lemma {:induction false} PaddedIs(size: nat)
    ensures Padded(size) == size + size % 2
  {
    if size > 1 {
      PaddedIs(size - 2);
    }
  }

  /** Where the chunks that matter begin. */
  datatype Layout = Layout(fmt: Option<nat>, data: Option<nat>)

  /** Every offset has room for what is read from it. */
  predicate Fits(bytes: Data, layout: Layout) {
    && (layout.fmt.Some? ==> layout.fmt.value + 8 + FMT_BODY_LEN <= |bytes|)
    && (layout.data.Some? ==> layout.data.value + 8 <= |bytes|)
  }

  /** The chunks from `offset` on, up to the header of the first `data` chunk; the last format before it wins. */
  function Locate(bytes: Data, offset: nat, fmt: Option<nat>): (r: Result<Layout, WavError>)
    requires Fits(bytes, Layout(fmt, None))
    ensures r.Success? ==> Fits(bytes, r.value)
    decreases if offset <= |bytes| then |bytes| - offset else 0
  {
    if offset + 8 > |bytes| then Success(Layout(fmt, None))
    else if IsId(bytes, offset, DATA) then Success(Layout(fmt, Some(offset)))
    else if !IsId(bytes, offset, FMT) then Locate(bytes, offset + 8 + Padded(U32At(bytes, offset + 4)), fmt)
    else if offset + 8 + FMT_BODY_LEN > |bytes| then Failure(Malformed)
    else Locate(bytes, offset + 8 + Padded(U32At(bytes, offset + 4)), Some(offset))
  }

  function FormatAt(bytes: Data, body: nat): Format
    requires body + FMT_BODY_LEN <= |bytes|
  {
    Format(U32At(bytes, body + 4), U16At(bytes, body + 2), U16At(bytes, body + 14), U32At(bytes, body + 8))
  }

  function Decode(bytes: Data, layout: Layout): Parsed
    requires Fits(bytes, layout)
  {
    if layout.fmt.None? then Failure(MissingFmt)
    else Success(WavInfo(FormatAt(bytes, layout.fmt.value + 8),
                         if layout.data.None? then None else Some(U32At(bytes, layout.data.value + 4))))
  }

  function Parse(bytes: Data): Parsed {
    if |bytes| < 12 then Failure(Malformed)
    else if !IsId(bytes, 0, RIFF) then Failure(NotRiff)
    else if !IsId(bytes, 8, WAVE) then Failure(NotWave)
    else
      var found := Locate(bytes, 12, None);
      if found.Failure? then Failure(found.error) else Decode(bytes, found.value)
  }

  method ParseHeader(bytes: Data) returns (parsed: Parsed)
    ensures parsed == Parse(bytes)
  {
    if |bytes| < 12 {
      return Failure(Malformed);
    }
    if !IsId(bytes, 0, RIFF) {
      return Failure(NotRiff);
    }
    if !IsId(bytes, 8, WAVE) {
      return Failure(NotWave);
    }
    var offset: nat := 12;
    var fmt: Option<Format> := None;
    var dataLen: Option<U32> := None;
    ghost var seen := Layout(None, None);
    while offset + 8 <= |bytes|
      invariant dataLen.None? && seen.data.None? && Fits(bytes, seen)
      invariant fmt == (if seen.fmt.None? then None else Some(FormatAt(bytes, seen.fmt.value + 8)))
      invariant Locate(bytes, 12, None) == Locate(bytes, offset, seen.fmt)
    {
      var size: nat := U32At(bytes, offset + 4);
      var body := offset + 8;
      if IsId(bytes, offset, FMT) {
        if body + FMT_BODY_LEN > |bytes| {
          return Failure(Malformed);
        }
        fmt := Some(FormatAt(bytes, body));
        seen := seen.(fmt := Some(offset));
      } else if IsId(bytes, offset, DATA) {
        dataLen := Some(U32At(bytes, offset + 4));
        seen := seen.(data := Some(offset));
        break;
      }
      PaddedIs(size);
      offset := offset + (8 + size + size % 2);
    }
    assert Locate(bytes, 12, None) == Success(seen);
    if fmt.None? {
      return Failure(MissingFmt);
    }
    return Success(WavInfo(fmt.value, dataLen));
  }

  /** Which bytes are refused for their first twelve. */
  lemma RefusedByTheFirstTwelve(bytes: Data)
    ensures |bytes| < 12 ==> Parse(bytes) == Failure(Malformed)
    ensures |bytes| >= 12 ==>
              && (Parse(bytes) == Failure(NotRiff) <==> !Spells(bytes[..4], "RIFF"))
              && (Parse(bytes) == Failure(NotWave) <==> Spells(bytes[..4], "RIFF") && !Spells(bytes[8..12], "WAVE"))
  {
    if |bytes| >= 12 {
      IdsAreLetters();
      IdIsSlice(bytes, 0, RIFF);
      IdIsSlice(bytes, 8, WAVE);
      assert bytes[0..4] == bytes[..4];
      LocateFailsMalformed(bytes, 12, None);
    }
  }

  lemma {:induction false} LocateFailsMalformed(bytes: Data, offset: nat, fmt: Option<nat>)
    requires Fits(bytes, Layout(fmt, None))
    ensures Locate(bytes, offset, fmt).Failure? ==> Locate(bytes, offset, fmt).error == Malformed
    decreases if offset <= |bytes| then |bytes| - offset else 0
  {
    if offset + 8 <= |bytes| && !IsId(bytes, offset, DATA) {
      var next := offset + 8 + Padded(U32At(bytes, offset + 4));
      if !IsId(bytes, offset, FMT) {
        LocateFailsMalformed(bytes, next, fmt);
      } else if offset + 8 + FMT_BODY_LEN <= |bytes| {
        LocateFailsMalformed(bytes, next, Some(offset));
      }
    }
  }

  // -- The writer -----------------------------------------------------------------------

  datatype Chunk = Chunk(id: Data, body: Data, pad: Byte)

  predicate IsChunk(c: Chunk) {
    |c.id| == 4 && |c.body| < TWO_32
  }

  predicate IsOther(c: Chunk) {
    IsChunk(c) && c.id != FMT && c.id != DATA
  }

  predicate AllOther(cs: seq<Chunk>) {
    forall i | 0 <= i < |cs| :: IsOther(cs[i])
  }

  ghost function Encode(c: Chunk): (b: Data)
    requires IsChunk(c)
    ensures |b| == 8 + Padded(|c.body|)
  {
    PaddedIs(|c.body|);
    c.id + ToLe32(|c.body|) + c.body + (if |c.body| % 2 == 1 then [c.pad] else [])
  }

  ghost function EncodeAll(cs: seq<Chunk>): Data
    requires forall i | 0 <= i < |cs| :: IsChunk(cs[i])
  {
    if cs == [] then [] else Encode(cs[0]) + EncodeAll(cs[1..])
  }

  /** The fixed part of a format chunk, and whatever a writer appends to it. */
  ghost function FormatBody(tag: U16, f: Format, blockAlign: U16, extra: Data): (b: Data)
    ensures |b| == FMT_BODY_LEN + |extra|
  {
    ToLe16(tag) + ToLe16(f.channels) + ToLe32(f.sampleRateHz) + ToLe32(f.byteRate)
    + ToLe16(blockAlign) + ToLe16(f.bitsPerSample) + extra
  }

  lemma FormatRead(tag: U16, f: Format, blockAlign: U16, extra: Data)
    ensures FormatAt(FormatBody(tag, f, blockAlign, extra), 0) == f
  {
    var b := FormatBody(tag, f, blockAlign, extra);
    SameLe(b, 2, ToLe16(f.channels), 0, 2);
    SameLe(b, 4, ToLe32(f.sampleRateHz), 0, 4);
    SameLe(b, 8, ToLe32(f.byteRate), 0, 4);
    SameLe(b, 14, ToLe16(f.bitsPerSample), 0, 2);
  }

  /** A WAVE file: other chunks of any size before and between the format and the data, and any payload. */
  datatype File = File(
    riffSize: U32,
    before: seq<Chunk>,
    fmt: Chunk,
    between: seq<Chunk>,
    dataLen: U32,
    payload: Data)
  {
    predicate Valid() {
      && AllOther(before) && AllOther(between)
      && IsChunk(fmt) && fmt.id == FMT && |fmt.body| >= FMT_BODY_LEN
    }

    ghost function FormatOffset(): nat
      requires Valid()
    {
      12 + |EncodeAll(before)|
    }

    ghost function DataOffset(): nat
      requires Valid()
    {
      FormatOffset() + |Encode(fmt)| + |EncodeAll(between)|
    }

    ghost function Bytes(): Data
      requires Valid()
    {
      (RIFF + ToLe32(riffSize) + WAVE) + EncodeAll(before) + Encode(fmt) + EncodeAll(between)
      + (DATA + ToLe32(dataLen)) + payload
    }
  }

  // -- Round trip --------------------------------------------------------------------------

  /** `p` has `d` at offset `o`, as far as `p` goes. */
  ghost predicate Shows(p: Data, o: nat, d: Data)
    decreases |d|
  {
    d == [] || o >= |p| || (p[o] == d[0] && Shows(p, o + 1, d[1..]))
  }

  lemma {:induction false} ShowsAt(p: Data, o: nat, d: Data, i: nat)
    requires Shows(p, o, d) && i < |d| && o + i < |p|
    ensures p[o + i] == d[i]
    decreases |d|
  {
    if i > 0 {
      ShowsAt(p, o + 1, d[1..], i - 1);
    }
  }

  lemma {:induction false} ShowsParts(p: Data, o: nat, d: Data, e: Data)
    requires Shows(p, o, d + e)
    ensures Shows(p, o, d) && Shows(p, o + |d|, e)
    decreases |d|
  {
    if d == [] {
      assert d + e == e;
    } else if o < |p| {
      assert (d + e)[1..] == d[1..] + e;
      ShowsParts(p, o + 1, d[1..], e);
    }
  }

  lemma {:induction false} ShowsItself(p: Data, n: nat, o: nat)
    requires o <= n <= |p|
    ensures Shows(p[..n], o, p[o..])
    decreases n - o
  {
    if o < n {
      assert p[o..][1..] == p[o + 1..];
      ShowsItself(p, n, o + 1);
    }
  }

  /** The eight bytes of a chunk header. */
  lemma HeaderShown(p: Data, o: nat, id: Data, size: U32, rest: Data)
    requires |id| == 4 && Shows(p, o, id + ToLe32(size) + rest) && o + 8 <= |p|
    ensures IsId(p, o, id) && U32At(p, o + 4) == size
  {
    var d := id + ToLe32(size) + rest;
    ShowsAt(p, o, d, 0);
    ShowsAt(p, o, d, 1);
    ShowsAt(p, o, d, 2);
    ShowsAt(p, o, d, 3);
    forall k | o + 4 <= k < o + 8 ensures p[k] == ToLe32(size)[k - (o + 4) + 0] {
      ShowsAt(p, o, d, k - o);
    }
    SameLe(p, o + 4, ToLe32(size), 0, 4);
  }

  lemma ChunkShown(p: Data, o: nat, c: Chunk)
    requires IsChunk(c) && Shows(p, o, Encode(c)) && o + 8 <= |p|
    ensures IsId(p, o, c.id) && U32At(p, o + 4) == |c.body|
    ensures c.id != FMT ==> !IsId(p, o, FMT)
    ensures c.id != DATA ==> !IsId(p, o, DATA)
  {
    var rest := c.body + (if |c.body| % 2 == 1 then [c.pad] else []);
    assert Encode(c) == c.id + ToLe32(|c.body|) + rest;
    HeaderShown(p, o, c.id, |c.body|, rest);
    IdIsSlice(p, o, c.id);
    IdIsSlice(p, o, FMT);
    IdIsSlice(p, o, DATA);
  }

  lemma {:induction false} SkipOthers(p: Data, o: nat, cs: seq<Chunk>, fmt: Option<nat>)
    requires AllOther(cs) && Shows(p, o, EncodeAll(cs)) && Fits(p, Layout(fmt, None))
    ensures Locate(p, o, fmt) == Locate(p, o + |EncodeAll(cs)|, fmt)
    decreases |cs|
  {
    if cs != [] {
      var next := o + |Encode(cs[0])|;
      FirstChunk(p, o, cs);
      SkipChunk(p, o, cs[0], fmt);
      SkipOthers(p, next, cs[1..], fmt);
    }
  }

  lemma FirstChunk(p: Data, o: nat, cs: seq<Chunk>)
    requires AllOther(cs) && cs != [] && Shows(p, o, EncodeAll(cs))
    ensures IsOther(cs[0]) && AllOther(cs[1..])
    ensures Shows(p, o, Encode(cs[0])) && Shows(p, o + |Encode(cs[0])|, EncodeAll(cs[1..]))
    ensures |EncodeAll(cs)| == |Encode(cs[0])| + |EncodeAll(cs[1..])|
  {
    assert IsOther(cs[0]) && AllOther(cs[1..]);
    var first, rest := Encode(cs[0]), EncodeAll(cs[1..]);
    assert EncodeAll(cs) == first + rest;
    ShowsParts(p, o, first, rest);
  }

  lemma SkipChunk(p: Data, o: nat, c: Chunk, fmt: Option<nat>)
    requires IsOther(c) && Shows(p, o, Encode(c)) && Fits(p, Layout(fmt, None))
    ensures Locate(p, o, fmt) == Locate(p, o + |Encode(c)|, fmt)
  {
    var size := |c.body|;
    assert o + 8 <= |p| ==> !IsId(p, o, FMT) && !IsId(p, o, DATA) && U32At(p, o + 4) == size by {
      if o + 8 <= |p| {
        ChunkShown(p, o, c);
      }
    }
    SkipOne(p, o, size, fmt);
  }

  lemma SkipOne(p: Data, o: nat, size: nat, fmt: Option<nat>)
    requires Fits(p, Layout(fmt, None))
    requires o + 8 <= |p| ==> !IsId(p, o, FMT) && !IsId(p, o, DATA) && U32At(p, o + 4) == size
    ensures Locate(p, o, fmt) == Locate(p, o + 8 + Padded(size), fmt)
  {
  }

  /** A format chunk, shown as far as `p` goes. */
  lemma LocateFormat(p: Data, o: nat, c: Chunk)
    requires IsChunk(c) && c.id == FMT && Shows(p, o, Encode(c))
    ensures o + 8 > |p| ==> Locate(p, o, None) == Success(Layout(None, None))
    ensures o + 8 <= |p| < o + 8 + FMT_BODY_LEN ==> Locate(p, o, None) == Failure(Malformed)
    ensures o + 8 + FMT_BODY_LEN <= |p| ==> Locate(p, o, None) == Locate(p, o + |Encode(c)|, Some(o))
  {
    if o + 8 <= |p| {
      ChunkShown(p, o, c);
    }
  }

  lemma FormatShown(p: Data, o: nat, c: Chunk)
    requires IsChunk(c) && |c.body| >= FMT_BODY_LEN && Shows(p, o, Encode(c)) && o + 8 + FMT_BODY_LEN <= |p|
    ensures FormatAt(p, o + 8) == FormatAt(c.body, 0)
  {
    var b := o + 8;
    forall k | b <= k < b + FMT_BODY_LEN ensures p[k] == c.body[k - b] {
      ShowsAt(p, o, Encode(c), k - o);
      assert Encode(c)[8 + (k - b)] == c.body[k - b];
    }
    SameFormat(p, b, c.body, 0);
  }

  lemma SameFormat(p: Data, o: nat, b: Data, i: nat)
    requires o + FMT_BODY_LEN <= |p| && i + FMT_BODY_LEN <= |b|
    requires forall k | o <= k < o + FMT_BODY_LEN :: p[k] == b[k - o + i]
    ensures FormatAt(p, o) == FormatAt(b, i)
  {
    SameLe(p, o + 2, b, i + 2, 2);
    SameLe(p, o + 4, b, i + 4, 4);
    SameLe(p, o + 8, b, i + 8, 4);
    SameLe(p, o + 14, b, i + 14, 2);
  }

  lemma LocateData(p: Data, o: nat, len: U32, fmt: Option<nat>)
    requires Shows(p, o, DATA + ToLe32(len)) && Fits(p, Layout(fmt, None))
    ensures Locate(p, o, fmt) == Success(Layout(fmt, if o + 8 > |p| then None else Some(o)))
    ensures o + 8 <= |p| ==> U32At(p, o + 4) == len
  {
    if o + 8 <= |p| {
      assert DATA + ToLe32(len) == DATA + ToLe32(len) + [];
      HeaderShown(p, o, DATA, len, []);
    }
  }

  /** What the scan of a prefix of `n` bytes finds. */
  ghost function Found(f: File, n: nat): Result<Layout, WavError>
    requires f.Valid()
  {
    FoundAt(n, f.FormatOffset(), f.DataOffset())
  }

  /** The same, of a format at `o` and a data header at `e`. */
  function FoundAt(n: nat, o: nat, e: nat): Result<Layout, WavError> {
    if n < o + 8 then Success(Layout(None, None))
    else if n < o + 8 + FMT_BODY_LEN then Failure(Malformed)
    else Success(Layout(Some(o), if n < e + 8 then None else Some(e)))
  }

  /** The answer that goes with it. */
  function Answer(found: Result<Layout, WavError>, format: Format, len: U32): Parsed {
    if found.Failure? then Failure(found.error)
    else if found.value.fmt.None? then Failure(MissingFmt)
    else Success(WavInfo(format, if found.value.data.None? then None else Some(len)))
  }

  lemma PartsShown(p: Data, a: Data, before: Data, format: Data, between: Data, head: Data, payload: Data)
    requires Shows(p, 0, a + before + format + between + head + payload)
    ensures Shows(p, 0, a)
    ensures Shows(p, |a|, before)
    ensures Shows(p, |a| + |before|, format)
    ensures Shows(p, |a| + |before| + |format|, between)
    ensures Shows(p, |a| + |before| + |format| + |between|, head)
  {
    ShowsParts(p, 0, a + before + format + between + head, payload);
    ShowsParts(p, 0, a + before + format + between, head);
    ShowsParts(p, 0, a + before + format, between);
    ShowsParts(p, 0, a + before, format);
    ShowsParts(p, 0, a, before);
  }

  lemma LocateToFormat(p: Data, before: seq<Chunk>, c: Chunk, o: nat)
    requires AllOther(before) && IsChunk(c) && c.id == FMT && o == 12 + |EncodeAll(before)|
    requires Shows(p, 12, EncodeAll(before)) && Shows(p, o, Encode(c))
    ensures |p| < o + 8 ==> Locate(p, 12, None) == Success(Layout(None, None))
    ensures o + 8 <= |p| < o + 8 + FMT_BODY_LEN ==> Locate(p, 12, None) == Failure(Malformed)
    ensures o + 8 + FMT_BODY_LEN <= |p| ==> Locate(p, 12, None) == Locate(p, o + |Encode(c)|, Some(o))
  {
    SkipOthers(p, 12, before, None);
    LocateFormat(p, o, c);
  }

  lemma LocateToData(p: Data, cs: seq<Chunk>, len: U32, b: nat, e: nat, o: nat)
    requires AllOther(cs) && o + 8 + FMT_BODY_LEN <= |p| && e == b + |EncodeAll(cs)|
    requires Shows(p, b, EncodeAll(cs)) && Shows(p, e, DATA + ToLe32(len))
    ensures Locate(p, b, Some(o)) == Success(Layout(Some(o), if e + 8 > |p| then None else Some(e)))
    ensures e + 8 <= |p| ==> U32At(p, e + 4) == len
  {
    SkipOthers(p, b, cs, Some(o));
    LocateData(p, e, len, Some(o));
  }

  lemma LocatePastFormat(p: Data, before: seq<Chunk>, c: Chunk, between: seq<Chunk>, len: U32, o: nat, b: nat, e: nat)
    requires AllOther(before) && IsChunk(c) && c.id == FMT && AllOther(between)
    requires o == 12 + |EncodeAll(before)| && b == o + |Encode(c)| && e == b + |EncodeAll(between)|
    requires Shows(p, 12, EncodeAll(before)) && Shows(p, o, Encode(c)) && o + 8 + FMT_BODY_LEN <= |p|
    requires Shows(p, b, EncodeAll(between)) && Shows(p, e, DATA + ToLe32(len))
    ensures Locate(p, 12, None) == Success(Layout(Some(o), if e + 8 > |p| then None else Some(e)))
    ensures e + 8 <= |p| ==> U32At(p, e + 4) == len
  {
    LocateToFormat(p, before, c, o);
    LocateToData(p, between, len, b, e, o);
  }

  /**
   From the first chunk to the `data` header; `o`, `b` and `e` are where the
   format, what follows it and the data start.
   */
  lemma LocateFile(p: Data, before: seq<Chunk>, c: Chunk, between: seq<Chunk>, len: U32, o: nat, b: nat, e: nat)
    requires AllOther(before) && IsChunk(c) && c.id == FMT && AllOther(between)
    requires o == 12 + |EncodeAll(before)| && b == o + |Encode(c)| && e == b + |EncodeAll(between)|
    requires Shows(p, 12, EncodeAll(before)) && Shows(p, o, Encode(c))
    requires Shows(p, b, EncodeAll(between)) && Shows(p, e, DATA + ToLe32(len))
    ensures Locate(p, 12, None) == FoundAt(|p|, o, e)
    ensures o + 8 + FMT_BODY_LEN <= |p| && e + 8 <= |p| ==> U32At(p, e + 4) == len
  {
    if o + 8 + FMT_BODY_LEN <= |p| {
      LocatePastFormat(p, before, c, between, len, o, b, e);
    } else {
      LocateToFormat(p, before, c, o);
    }
  }

  lemma RiffShown(p: Data, size: U32)
    requires |p| >= 12 && Shows(p, 0, RIFF + ToLe32(size) + WAVE)
    ensures IsId(p, 0, RIFF) && IsId(p, 8, WAVE)
  {
    var d := RIFF + ToLe32(size) + WAVE;
    HeaderShown(p, 0, RIFF, size, WAVE);
    ShowsAt(p, 0, d, 8);
    ShowsAt(p, 0, d, 9);
    ShowsAt(p, 0, d, 10);
    ShowsAt(p, 0, d, 11);
  }

  lemma ParseLocated(p: Data, found: Result<Layout, WavError>, format: Format, len: U32)
    requires |p| >= 12 && IsId(p, 0, RIFF) && IsId(p, 8, WAVE) && Locate(p, 12, None) == found
    requires found.Success? && found.value.fmt.Some? ==> FormatAt(p, found.value.fmt.value + 8) == format
    requires found.Success? && found.value.data.Some? ==> U32At(p, found.value.data.value + 4) == len
    ensures Parse(p) == Answer(found, format, len)
  {
  }

  /** Where the parts of a file begin: the format, what follows it, and the data. */
  ghost predicate Offsets(f: File, o: nat, b: nat, e: nat)
    requires f.Valid()
  {
    o == f.FormatOffset() && b == o + |Encode(f.fmt)| && e == f.DataOffset()
  }

  /** `p` shows the parts of a file before its payload, each where it belongs. */
  ghost predicate FileShown(p: Data, f: File, o: nat, b: nat, e: nat)
    requires f.Valid()
  {
    && Shows(p, 0, RIFF + ToLe32(f.riffSize) + WAVE) && Shows(p, 12, EncodeAll(f.before))
    && Shows(p, o, Encode(f.fmt)) && Shows(p, b, EncodeAll(f.between)) && Shows(p, e, DATA + ToLe32(f.dataLen))
  }

  lemma PrefixShows(f: File, p: Data, riff: Data, head: Data, o: nat, b: nat, e: nat)
    requires f.Valid() && p <= f.Bytes() && Offsets(f, o, b, e)
    requires riff == RIFF + ToLe32(f.riffSize) + WAVE && head == DATA + ToLe32(f.dataLen) && |riff| == 12
    ensures FileShown(p, f, o, b, e)
  {
    ShownWhole(f, p, riff, head);
    PartsShown(p, riff, EncodeAll(f.before), Encode(f.fmt), EncodeAll(f.between), head, f.payload);
  }

  lemma ShownWhole(f: File, p: Data, riff: Data, head: Data)
    requires f.Valid() && p <= f.Bytes()
    requires riff == RIFF + ToLe32(f.riffSize) + WAVE && head == DATA + ToLe32(f.dataLen)
    ensures Shows(p, 0, riff + EncodeAll(f.before) + Encode(f.fmt) + EncodeAll(f.between) + head + f.payload)
  {
    var bytes := f.Bytes();
    ShowsItself(bytes, |p|, 0);
    assert bytes[0..] == bytes && bytes[..|p|] == p;
  }

  /** Whatever shows the parts of a file is scanned like it. */
  lemma PartsFound(p: Data, f: File, o: nat, b: nat, e: nat)
    requires f.Valid() && Offsets(f, o, b, e) && FileShown(p, f, o, b, e)
    ensures Locate(p, 12, None) == FoundAt(|p|, o, e)
    ensures o + 8 + FMT_BODY_LEN <= |p| && e + 8 <= |p| ==> U32At(p, e + 4) == f.dataLen
  {
    LocateFile(p, f.before, f.fmt, f.between, f.dataLen, o, b, e);
  }

  lemma PrefixParsed(f: File, p: Data, o: nat, b: nat, e: nat)
    requires f.Valid() && Offsets(f, o, b, e) && FileShown(p, f, o, b, e) && |p| >= 12
    ensures Parse(p) == Answer(FoundAt(|p|, o, e), FormatAt(f.fmt.body, 0), f.dataLen)
  {
    RiffShown(p, f.riffSize);
    PartsFound(p, f, o, b, e);
    if o + 8 + FMT_BODY_LEN <= |p| {
      FormatShown(p, o, f.fmt);
    }
    ParseLocated(p, FoundAt(|p|, o, e), FormatAt(f.fmt.body, 0), f.dataLen);
  }

  /**
   For every WAVE file and every prefix of it the parser's answer is known: the
   encoded fields exactly once the prefix reaches the end of the `data` header,
   the format without a length from the end of the sixteen format bytes, and
   which error before that.
   */
  lemma EveryPrefixIsParsed(f: File, n: nat)
    requires f.Valid() && n <= |f.Bytes()|
    ensures Parse(f.Bytes()[..n])
            == if n < 12 then Failure(Malformed) else Answer(Found(f, n), FormatAt(f.fmt.body, 0), f.dataLen)
  {
    if n >= 12 {
      var (p, o) := (f.Bytes()[..n], f.FormatOffset());
      var b := o + |Encode(f.fmt)|;
      PrefixShows(f, p, RIFF + ToLe32(f.riffSize) + WAVE, DATA + ToLe32(f.dataLen), o, b, f.DataOffset());
      PrefixParsed(f, p, o, b, f.DataOffset());
    } else {
      assert |f.Bytes()[..n]| == n;
    }
  }

  lemma RoundTrip(f: File, tag: U16, format: Format, blockAlign: U16, extra: Data)
    requires f.Valid() && f.fmt.body == FormatBody(tag, format, blockAlign, extra)
    ensures Parse(f.Bytes()) == Success(WavInfo(format, Some(f.dataLen)))
  {
    assert f.Bytes()[..|f.Bytes()|] == f.Bytes();
    EveryPrefixIsParsed(f, |f.Bytes()|);
    FormatRead(tag, format, blockAlign, extra);
  }

  /** Of any bytes at all: once the `data` header has been found, more bytes change nothing. */
  lemma {:induction false} LocateIsStable(a: Data, b: Data, offset: nat, fmt: Option<nat>)
    requires a <= b && Fits(a, Layout(fmt, None))
    requires Locate(a, offset, fmt).Success? && Locate(a, offset, fmt).value.data.Some?
    ensures Locate(b, offset, fmt) == Locate(a, offset, fmt)
    decreases if offset <= |a| then |a| - offset else 0
  {
    assert offset + 8 <= |a|;
    SameLe(a, offset + 4, b, offset + 4, 4);
    if !IsId(a, offset, DATA) {
      var next := offset + 8 + Padded(U32At(a, offset + 4));
      LocateIsStable(a, b, next, if IsId(a, offset, FMT) then Some(offset) else fmt);
    }
  }

  lemma MoreBytesSameAnswer(a: Data, b: Data)
    requires a <= b && Parse(a).Success? && Parse(a).value.dataLenBytes.Some?
    ensures Parse(b) == Parse(a)
  {
    LocateIsStable(a, b, 12, None);
    SameDecode(a, b, Locate(a, 12, None).value);
  }

  lemma SameDecode(a: Data, b: Data, layout: Layout)
    requires a <= b && Fits(a, layout)
    ensures Decode(b, layout) == Decode(a, layout)
  {
    if layout.fmt.Some? {
      PrefixFormat(a, b, layout.fmt.value + 8);
    }
    if layout.data.Some? {
      PrefixLe(a, b, layout.data.value + 4);
    }
  }

  lemma PrefixFormat(a: Data, b: Data, o: nat)
    requires a <= b && o + FMT_BODY_LEN <= |a|
    ensures FormatAt(b, o) == FormatAt(a, o)
  {
    SameFormat(a, o, b, o);
  }

  lemma PrefixLe(a: Data, b: Data, o: nat)
    requires a <= b && o + 4 <= |a|
    ensures U32At(b, o) == U32At(a, o)
  {
    SameLe(a, o, b, o, 4);
  }

  /** The duration is the data length over the byte rate in whole milliseconds, and fits in 64 bits. */
  lemma DurationIsExact(info: WavInfo)
    ensures info.DurationMs().None? <==> info.dataLenBytes.None? || info.format.byteRate == 0
    ensures info.DurationMs().Some? ==>
              var (len, rate) := (info.dataLenBytes.value as int, info.format.byteRate as int);
              var ms := info.DurationMs().value;
              && ms * rate <= len * 1000 < (ms + 1) * rate
              && 0 <= ms < 1000 * TWO_32 && len * 1000 < 0x8000_0000_0000_0000
  {
    if info.DurationMs().Some? {
      WholeQuotient(info.dataLenBytes.value as int * 1000, info.format.byteRate as int);
    }
  }

  lemma WholeQuotient(x: nat, y: int)
    requires y > 0
    ensures x / y * y <= x < (x / y + 1) * y && 0 <= x / y <= x
  {
    var q := x / y;
    assert x == q * y + x % y && 0 <= x % y < y;
    AtLeastOnce(q, y);
  }

  lemma {:induction false} AtLeastOnce(q: nat, y: int)
    requires y > 0
    ensures q <= q * y && (q + 1) * y == q * y + y
  {
    if q > 0 {
      AtLeastOnce(q - 1, y);
    }
  }
}
