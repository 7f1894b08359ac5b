/**
 WAV writing and reading (src/audio/wav.cpp) after the "Waveform Audio File Format (WAVE)"
 section of the Multimedia Programming Interface and Data Specifications 1.0. File sizes
 are unbounded; the 32-bit fields and the 32-bit chunk advance wrap as in the code.
 */
module Wav {
  import opened Samples

  type Byte = x: int | 0 <= x < 256

  const WORD: nat := 0x1_0000_0000

  const RIFF: seq<Byte> := [0x52, 0x49, 0x46, 0x46]
  const WAVE: seq<Byte> := [0x57, 0x41, 0x56, 0x45]
  const FMT: seq<Byte> := [0x66, 0x6D, 0x74, 0x20]
  const DATA: seq<Byte> := [0x64, 0x61, 0x74, 0x61]

  // ----- little-endian fields -----

  function U16Bytes(v: nat): seq<Byte> {
    [v % 256, v / 256 % 256]
  }

  function U32Bytes(v: nat): (r: seq<Byte>)
    ensures |r| == 4
  {
    [v % 256, v / 256 % 256, v / 0x1_0000 % 256, v / 0x100_0000 % 256]
  }

  function ReadU16(b: seq<Byte>, at: nat): (r: nat)
    requires at + 2 <= |b|
    ensures r < 0x1_0000
  {
    b[at] + 256 * (b[at + 1] as int)
  }

  function ReadU32(b: seq<Byte>, at: nat): (r: nat)
    requires at + 4 <= |b|
    ensures r < WORD
  {
    b[at] + 256 * (b[at + 1] as int) + 0x1_0000 * (b[at + 2] as int) + 0x100_0000 * (b[at + 3] as int)
  }

  /** A field that fits is read back wherever it stands. */
  lemma U32RoundTrip(v: nat, pre: seq<Byte>, post: seq<Byte>)
    requires v < WORD
    ensures ReadU32(pre + U32Bytes(v) + post, |pre|) == v
  {
    var b, f := pre + U32Bytes(v) + post, U32Bytes(v);
    assert b[|pre|] == f[0] && b[|pre| + 1] == f[1] && b[|pre| + 2] == f[2] && b[|pre| + 3] == f[3];
    U32Digits(v);
  }

  lemma U32Digits(v: nat)
    requires v < WORD
    ensures var f := U32Bytes(v);
      f[0] + 256 * (f[1] as int) + 0x1_0000 * (f[2] as int) + 0x100_0000 * (f[3] as int) == v
  {
  }

  lemma U16RoundTrip(v: nat, pre: seq<Byte>, post: seq<Byte>)
    requires v < 0x1_0000
    ensures ReadU16(pre + U16Bytes(v) + post, |pre|) == v
  {
  }

  // ----- samples -----

  function SampleByte(s: Sample, k: nat): Byte {
    if k == 0 then s % 0x1_0000 % 256 else s % 0x1_0000 / 256
  }

  function SampleBytes(xs: seq<Sample>): seq<Byte> {
    seq(2 * |xs|, i requires 0 <= i < 2 * |xs| => SampleByte(xs[i / 2], i % 2))
  }

  function SampleOf(lo: Byte, hi: Byte): Sample {
    var v := lo + 256 * (hi as int);
    if v < 0x8000 then v else v - 0x1_0000
  }

  function SamplesOf(b: seq<Byte>): seq<Sample> {
    seq(|b| / 2, i requires 0 <= i < |b| / 2 => SampleOf(b[2 * i], b[2 * i + 1]))
  }

  lemma SampleRoundTrip(s: Sample)
    ensures SampleOf(SampleByte(s, 0), SampleByte(s, 1)) == s
    ensures SampleByte(s, 0) + 256 * (SampleByte(s, 1) as int) == s % 0x1_0000
  {
  }

  lemma SamplesRoundTrip(xs: seq<Sample>)
    ensures SamplesOf(SampleBytes(xs)) == xs
  {
    hide SampleOf, SampleByte;
    forall i | 0 <= i < |xs|
      ensures SamplesOf(SampleBytes(xs))[i] == xs[i]
    {
      SampleRoundTrip(xs[i]);
      var b := SampleBytes(xs);
      assert (2 * i) / 2 == i && (2 * i) % 2 == 0 && b[2 * i] == SampleByte(xs[i], 0);
      assert (2 * i + 1) / 2 == i && (2 * i + 1) % 2 == 1 && b[2 * i + 1] == SampleByte(xs[i], 1);
    }
  }

  // ----- writing -----

  /** The size of the data as the 32-bit field holds it. */
  function DataBytes(xs: seq<Sample>): (n: nat)
    ensures n <= 2 * |xs| && n < WORD
    ensures n == 2 * |xs| <==> 2 * |xs| < WORD
  {
    |xs| % WORD * 2 % WORD
  }

  function FmtBody(rate: nat): seq<Byte> {
    U16Bytes(1) + U16Bytes(1) + U32Bytes(rate) + U32Bytes(rate * 2 % WORD) + U16Bytes(2) + U16Bytes(16)
  }

  function Header(size: nat): seq<Byte> {
    RIFF + U32Bytes(size) + WAVE
  }

  /** The file written for the samples. */
  function File(xs: seq<Sample>, rate: nat): seq<Byte> {
    Header((36 + DataBytes(xs)) % WORD)
    + (FMT + U32Bytes(16) + FmtBody(rate))
    + (DATA + U32Bytes(DataBytes(xs)) + SampleBytes(xs)[..DataBytes(xs)])
  }

  /** The format chunk field by field, as the standard lays it out. */
  lemma FormatLayout(rate: nat)
    requires rate < WORD
    ensures var b := FmtBody(rate);
      && |b| == 16 && ReadU16(b, 0) == 1 && ReadU16(b, 2) == 1 && ReadU32(b, 4) == rate
      && ReadU32(b, 8) == rate * 2 % WORD && ReadU16(b, 12) == 2 && ReadU16(b, 14) == 16
  {
    U32Digits(rate);
    U32Digits(rate * 2 % WORD);
  }

  /** Where the fields of the header stand. */
  lemma HeaderLayout(xs: seq<Sample>, rate: nat)
    requires rate < WORD
    ensures var f, n := File(xs, rate), DataBytes(xs);
      && |f| == 44 + n
      && f[..4] == [0x52, 0x49, 0x46, 0x46] && ReadU32(f, 4) == (36 + n) % WORD && f[8..12] == [0x57, 0x41, 0x56, 0x45]
      && f[12..16] == [0x66, 0x6D, 0x74, 0x20] && ReadU32(f, 16) == 16 && f[20..36] == FmtBody(rate)
      && f[36..40] == [0x64, 0x61, 0x74, 0x61] && ReadU32(f, 40) == n
      && f[44..] == SampleBytes(xs)[..n]
  {
    var n := DataBytes(xs);
    FormatLayout(rate);
    U32Digits((36 + n) % WORD);
    U32Digits(16);
    U32Digits(n);
    hide FmtBody, SampleBytes, DataBytes;
    assert |Header((36 + n) % WORD)| == 12;
  }

  method U32Le(v: nat) returns (s: seq<Byte>)
    requires v < WORD
    ensures s == U32Bytes(v)
  {
    s := [0, 0, 0, 0];
    var shifted := v;
    for i := 0 to 4
      invariant |s| == 4 && shifted == (if i == 0 then v else if i == 1 then v / 256
        else if i == 2 then v / 0x1_0000 else if i == 3 then v / 0x100_0000 else 0)
      invariant forall k | 0 <= k < i :: s[k] == U32Bytes(v)[k]
    {
      s := s[i := shifted % 256];
      shifted := shifted / 256;
    }
  }

  method MakeWav(samples: seq<Sample>, rate: nat) returns (out: seq<Byte>)
    requires rate < WORD
    ensures out == File(samples, rate)
  {
    hide U32Bytes, U16Bytes;
    var dataBytes := |samples| % WORD * 2 % WORD;
    var riffPayload := (4 + 8 + 16 + 8 + dataBytes) % WORD;
    var size := U32Le(riffPayload);
    out := RIFF + size + WAVE;
    var fmtSize := U32Le(16);
    var rateField := U32Le(rate);
    var byteRate := U32Le(rate * 2 % WORD);
    out := out + (FMT + fmtSize
      + (U16Bytes(1) + U16Bytes(1) + rateField + byteRate + U16Bytes(2) + U16Bytes(16)));
    var dataSize := U32Le(dataBytes);
    out := out + (DATA + dataSize + SampleBytes(samples)[..dataBytes]);
  }

  // ----- reading -----

  datatype Format = Format(channels: nat, rate: nat, bits: nat)

  const UNKNOWN := Format(0, 0, 0)

  /** OddData stands for a data size that is odd, Endless for a walk that does not end. */
  datatype Parsed = Rejected | Endless | OddData(rate: nat) | Audio(rate: nat, samples: seq<Sample>)

  /** How a walk over the chunks comes out. */
  datatype Walk = BadFormat | Circles | Found(format: Format, dataAt: nat, size: nat) | NoData(format: Format)

  /** The step to the next chunk, computed in 32 bits. */
  function Advance(size: nat): nat {
    (8 + size + size % 2) % WORD
  }

  function FormatAt(b: seq<Byte>, pos: nat): Format
    requires pos + 24 <= |b|
  {
    Format(ReadU16(b, pos + 10), ReadU32(b, pos + 12), ReadU16(b, pos + 22))
  }

  datatype Examined = Stop(walk: Walk) | Next(pos: nat, format: Format)

  /** One chunk header. */
  function Examine(b: seq<Byte>, pos: nat, f: Format): (r: Examined)
    requires pos + 8 <= |b|
    ensures r.Next? ==> pos < r.pos
  {
    var tag, size := b[pos..pos + 4], ReadU32(b, pos + 4);
    if tag == FMT && (pos + 24 > |b| || ReadU16(b, pos + 8) != 1) then Stop(BadFormat)
    else if tag == DATA then Stop(Found(f, pos + 8, size))
    else if Advance(size) == 0 then Stop(Circles)
    else Next(pos + Advance(size), if tag == FMT then FormatAt(b, pos) else f)
  }

  function WalkFrom(b: seq<Byte>, pos: nat, f: Format): Walk
    decreases |b| - pos
  {
    if pos + 8 > |b| then NoData(f)
    else
      match Examine(b, pos, f)
      case Stop(w) => w
      case Next(p, g) => WalkFrom(b, p, g)
  }

  function Verdict(b: seq<Byte>, w: Walk): Parsed {
    match w
    case BadFormat => Rejected
    case Circles => Endless
    case NoData(_) => Rejected
    case Found(f, at, size) =>
      if f.channels != 1 || f.bits != 16 || f.rate == 0 || at + size > |b| then Rejected
      else if size % 2 == 1 then OddData(f.rate)
      else Audio(f.rate, SamplesOf(b[at..at + size]))
  }

  function Parse(b: seq<Byte>): Parsed {
    if |b| < 44 || b[..4] != RIFF || b[8..12] != WAVE then Rejected
    else Verdict(b, WalkFrom(b, 12, UNKNOWN))
  }

  /** One header, and where the walk goes on. */
  lemma HeaderStep(b: seq<Byte>, pos: nat, f: Format)
    requires pos + 8 <= |b|
    ensures var tag, size := b[pos..pos + 4], ReadU32(b, pos + 4);
      && (tag == FMT && (pos + 24 > |b| || ReadU16(b, pos + 8) != 1) ==> WalkFrom(b, pos, f) == BadFormat)
      && (tag == DATA ==> WalkFrom(b, pos, f) == Found(f, pos + 8, size))
      && (tag != DATA && !(tag == FMT && (pos + 24 > |b| || ReadU16(b, pos + 8) != 1)) ==>
            WalkFrom(b, pos, f) == if Advance(size) == 0 then Circles
              else WalkFrom(b, pos + Advance(size), if tag == FMT then FormatAt(b, pos) else f))
  {
    assert DATA[0] != FMT[0];
  }

  lemma WalkIsOver(b: seq<Byte>)
    ensures forall pos: nat, f | pos + 8 > |b| :: WalkFrom(b, pos, f) == NoData(f)
  {
  }

  /** The parsing part of read_wav_file; a position that would stand still forever is Endless. */
  method ReadWav(buf: seq<Byte>) returns (r: Parsed)
    ensures r == Parse(buf)
  {
    hide ReadU16, ReadU32, SamplesOf, WalkFrom, Examine;
    WalkIsOver(buf);
    if |buf| < 44 {
      return Rejected;
    }
    if buf[..4] != RIFF || buf[8..12] != WAVE {
      return Rejected;
    }
    var pos := 12;
    var channels, bits, rate := 0, 0, 0;
    var dataOff, dataBytes := 0, 0;
    ghost var walk := WalkFrom(buf, pos, UNKNOWN);
    while pos + 8 <= |buf|
      invariant dataOff == 0 && pos >= 12
      invariant walk == WalkFrom(buf, pos, Format(channels, rate, bits))
      decreases |buf| - pos
    {
      HeaderStep(buf, pos, Format(channels, rate, bits));
      var tag := buf[pos..pos + 4];
      var size := ReadU32(buf, pos + 4);
      if tag == FMT {
        if pos + 8 + 16 > |buf| {
          return Rejected;
        }
        var fmtCode := ReadU16(buf, pos + 8);
        if fmtCode != 1 {
          return Rejected;
        }
        channels, rate, bits := ReadU16(buf, pos + 10), ReadU32(buf, pos + 12), ReadU16(buf, pos + 22);
      } else if tag == DATA {
        dataOff, dataBytes := pos + 8, size;
        break;
      }
      var advance := (8 + size + size % 2) % WORD;
      if advance == 0 {
        return Endless;
      }
      pos := pos + advance;
    }
    if channels != 1 || bits != 16 || rate == 0 || dataOff == 0 || dataOff + dataBytes > |buf| {
      return Rejected;
    }
    if dataBytes % 2 == 1 {
      return OddData(rate);
    }
    r := Audio(rate, SamplesOf(buf[dataOff..dataOff + dataBytes]));
  }

  /** The advance stands still for two sizes only, and is the padded chunk unless it wraps. */
  lemma AdvanceStandsStillExactlyWhen(size: nat)
    requires size < WORD
    ensures Advance(size) == 0 <==> size == WORD - 9 || size == WORD - 8
    ensures Advance(size) == 8 + size + size % 2 <==> size < WORD - 9
  {
  }

  // ----- files as lists of chunks -----

  datatype Chunk = Chunk(tag: seq<Byte>, body: seq<Byte>)

  function Padding(size: nat): seq<Byte> {
    if size % 2 == 1 then [0] else []
  }

  function ChunkBytes(c: Chunk): seq<Byte> {
    c.tag + U32Bytes(|c.body|) + c.body + Padding(|c.body|)
  }

  function ChunksBytes(cs: seq<Chunk>): seq<Byte> {
    if cs == [] then [] else ChunkBytes(cs[0]) + ChunksBytes(cs[1..])
  }

  /** A chunk other than the data, whose advance does not wrap, and whose format is whole. */
  predicate WellFormed(c: Chunk) {
    |c.tag| == 4 && c.tag != DATA && |c.body| < WORD - 9 && (c.tag == FMT ==> |c.body| >= 16)
  }

  /** The format chunk of a list that counts is the last; none may be anything but PCM. */
  datatype Formats = NotPcm | Pcm(format: Format)

  function FormatOf(body: seq<Byte>): Formats
    requires |body| >= 16
  {
    if ReadU16(body, 0) != 1 then NotPcm
    else Pcm(Format(ReadU16(body, 2), ReadU32(body, 4), ReadU16(body, 14)))
  }

  /** The format after one chunk. */
  function OneFormat(c: Chunk, f: Format): Formats
    requires WellFormed(c)
  {
    if c.tag == FMT then FormatOf(c.body) else Pcm(f)
  }

  function FormatsOf(cs: seq<Chunk>, f: Format): Formats
    requires forall c | c in cs :: WellFormed(c)
  {
    if cs == [] then Pcm(f)
    else
      assert cs[0] in cs;
      match OneFormat(cs[0], f)
      case NotPcm => NotPcm
      case Pcm(g) => FormatsOf(cs[1..], g)
  }

  lemma FieldsOfChunk(pre: seq<Byte>, c: Chunk, rest: seq<Byte>)
    requires |c.tag| == 4 && |c.body| < WORD
    ensures var b, pos := pre + (ChunkBytes(c) + rest), |pre|;
      && |b| >= pos + 8 + |c.body|
      && b[pos..pos + 4] == c.tag && ReadU32(b, pos + 4) == |c.body|
      && b[pos + 8..pos + 8 + |c.body|] == c.body
  {
    var b, n := pre + (ChunkBytes(c) + rest), U32Bytes(|c.body|);
    var after := c.body + Padding(|c.body|) + rest;
    assert b == (pre + c.tag) + n + after;
    U32RoundTrip(|c.body|, pre + c.tag, after);
  }

  lemma FormatOfChunk(pre: seq<Byte>, c: Chunk, rest: seq<Byte>)
    requires WellFormed(c) && c.tag == FMT
    ensures var b, pos := pre + (ChunkBytes(c) + rest), |pre|;
      && |b| >= pos + 24 && ReadU16(b, pos + 8) == ReadU16(c.body, 0)
      && FormatAt(b, pos) == Format(ReadU16(c.body, 2), ReadU32(c.body, 4), ReadU16(c.body, 14))
  {
    FieldsOfChunk(pre, c, rest);
    var b, pos := pre + (ChunkBytes(c) + rest), |pre|;
    assert forall i | 0 <= i < 16 :: b[pos + 8 + i] == b[pos + 8..pos + 8 + |c.body|][i] == c.body[i];
  }

  lemma ExamineChunk(pre: seq<Byte>, c: Chunk, rest: seq<Byte>, f: Format)
    requires WellFormed(c)
    ensures var b := pre + (ChunkBytes(c) + rest);
      && |b| >= |pre| + 8
      && Examine(b, |pre|, f) == match OneFormat(c, f)
           case NotPcm => Stop(BadFormat)
           case Pcm(g) => Next(|pre + ChunkBytes(c)|, g)
  {
    FieldsOfChunk(pre, c, rest);
    AdvanceStandsStillExactlyWhen(|c.body|);
    if c.tag == FMT {
      FormatOfChunk(pre, c, rest);
    }
  }

  /** One chunk is stepped over, whatever surrounds it. */
  lemma WalkOverChunk(pre: seq<Byte>, c: Chunk, rest: seq<Byte>, f: Format)
    requires WellFormed(c)
    ensures var b := pre + (ChunkBytes(c) + rest);
      WalkFrom(b, |pre|, f) ==
        match OneFormat(c, f)
        case NotPcm => BadFormat
        case Pcm(g) => WalkFrom((pre + ChunkBytes(c)) + rest, |pre + ChunkBytes(c)|, g)
  {
    var b := pre + (ChunkBytes(c) + rest);
    ExamineChunk(pre, c, rest, f);
    assert b == (pre + ChunkBytes(c)) + rest;
  }

  /** A list of chunks is stepped over; only the formats in it matter. */
  lemma {:induction false} WalkOverChunks(pre: seq<Byte>, cs: seq<Chunk>, rest: seq<Byte>, f: Format)
    requires forall c | c in cs :: WellFormed(c)
    ensures WalkFrom(pre + (ChunksBytes(cs) + rest), |pre|, f) ==
      match FormatsOf(cs, f)
      case NotPcm => BadFormat
      case Pcm(g) => WalkFrom((pre + ChunksBytes(cs)) + rest, |pre + ChunksBytes(cs)|, g)
    decreases |cs|
  {
    hide WalkFrom, ChunkBytes, FormatOf;
    if cs == [] {
      assert pre + (ChunksBytes(cs) + rest) == (pre + ChunksBytes(cs)) + rest;
      assert pre + ChunksBytes(cs) == pre;
    } else {
      var c, more := cs[0], ChunksBytes(cs[1..]);
      var bytes := ChunkBytes(c);
      assert c in cs;
      assert (bytes + more) + rest == bytes + (more + rest);
      WalkOverChunk(pre, c, more + rest, f);
      assert pre + (bytes + more) == (pre + bytes) + more;
      match OneFormat(c, f) {
        case NotPcm =>
        case Pcm(g) => WalkOverChunks(pre + bytes, cs[1..], rest, g);
      }
    }
  }

  /** A RIFF file: header, chunks, the data chunk, and anything after it. */
  function RiffFile(size: nat, cs: seq<Chunk>, data: seq<Byte>, tail: seq<Byte>): seq<Byte> {
    Header(size) + (ChunksBytes(cs) + (ChunkBytes(Chunk(DATA, data)) + tail))
  }

  function DataMeans(f: Format, data: seq<Byte>): Parsed {
    if f.channels != 1 || f.bits != 16 || f.rate == 0 then Rejected
    else if |data| % 2 == 1 then OddData(f.rate)
    else Audio(f.rate, SamplesOf(data))
  }

  /** What a list of chunks means, without offsets. */
  function Meaning(cs: seq<Chunk>, data: seq<Byte>): Parsed
    requires forall c | c in cs :: WellFormed(c)
  {
    match FormatsOf(cs, UNKNOWN)
    case NotPcm => Rejected
    case Pcm(f) => DataMeans(f, data)
  }

  lemma WalkFindsData(pre: seq<Byte>, data: seq<Byte>, tail: seq<Byte>, f: Format)
    requires |data| < WORD
    ensures var b := pre + (ChunkBytes(Chunk(DATA, data)) + tail);
      WalkFrom(b, |pre|, f) == Found(f, |pre| + 8, |data|)
  {
    FieldsOfChunk(pre, Chunk(DATA, data), tail);
    hide ChunkBytes, ReadU32;
    assert DATA[0] != FMT[0];
  }

  lemma WalkStopsAtData(pre: seq<Byte>, data: seq<Byte>, tail: seq<Byte>, f: Format)
    requires |data| < WORD
    ensures var b := pre + (ChunkBytes(Chunk(DATA, data)) + tail);
      Verdict(b, WalkFrom(b, |pre|, f)) == DataMeans(f, data)
  {
    hide WalkFrom, ChunkBytes, ReadU32, SamplesOf;
    WalkFindsData(pre, data, tail, f);
    FieldsOfChunk(pre, Chunk(DATA, data), tail);
  }

  lemma {:induction false} FormatNeedsRoom(cs: seq<Chunk>, f: Format)
    requires forall c | c in cs :: WellFormed(c)
    ensures FormatsOf(cs, f) == Pcm(f) || |ChunksBytes(cs)| >= 24
  {
    if cs != [] {
      assert cs[0] in cs;
      FormatNeedsRoom(cs[1..], f);
    }
  }

  /** The parser gives every file of well-formed chunks its meaning. */
  lemma ParseIsMeaning(size: nat, cs: seq<Chunk>, data: seq<Byte>, tail: seq<Byte>)
    requires |data| < WORD && forall c | c in cs :: WellFormed(c)
    ensures Parse(RiffFile(size, cs, data, tail)) == Meaning(cs, data)
  {
    var head, bytes := Header(size), ChunksBytes(cs);
    var last := ChunkBytes(Chunk(DATA, data)) + tail;
    HeaderIsRead(size, bytes + last);
    FormatNeedsRoom(cs, UNKNOWN);
    WalkOverChunks(head, cs, last, UNKNOWN);
    FileRegroups(head, bytes, last);
    if FormatsOf(cs, UNKNOWN).Pcm? {
      WalkStopsAtData(head + bytes, data, tail, FormatsOf(cs, UNKNOWN).format);
    }
  }

  lemma FileRegroups(head: seq<Byte>, bytes: seq<Byte>, last: seq<Byte>)
    ensures head + (bytes + last) == (head + bytes) + last
  {
  }

  lemma HeaderIsRead(size: nat, rest: seq<Byte>)
    ensures |Header(size)| == 12
    ensures (Header(size) + rest)[..4] == RIFF && (Header(size) + rest)[8..12] == WAVE
  {
  }

  // ----- round trip -----

  lemma FmtBodyMeans(rate: nat)
    requires rate < WORD
    ensures |FmtBody(rate)| == 16 && FormatOf(FmtBody(rate)) == Pcm(Format(1, rate, 16))
  {
    var body := FmtBody(rate);
    var pre, post := U16Bytes(1) + U16Bytes(1), U32Bytes(rate * 2 % WORD) + U16Bytes(2) + U16Bytes(16);
    U32RoundTrip(rate, pre, post);
    assert body == pre + U32Bytes(rate) + post;
  }

  lemma EvenChunk(tag: seq<Byte>, body: seq<Byte>)
    requires |body| % 2 == 0
    ensures ChunkBytes(Chunk(tag, body)) == tag + U32Bytes(|body|) + body
    ensures ChunkBytes(Chunk(tag, body)) + [] == ChunkBytes(Chunk(tag, body))
  {
    hide U32Bytes;
  }

  lemma OneChunk(c: Chunk)
    ensures ChunksBytes([c]) == ChunkBytes(c)
  {
    hide ChunkBytes;
    assert [c][1..] == [];
    assert ChunkBytes(c) + [] == ChunkBytes(c);
  }

  lemma FileIsRiff(xs: seq<Sample>, rate: nat)
    requires rate < WORD
    ensures var data := SampleBytes(xs)[..DataBytes(xs)];
      File(xs, rate) == RiffFile((36 + DataBytes(xs)) % WORD, [Chunk(FMT, FmtBody(rate))], data, [])
  {
    var data := SampleBytes(xs)[..DataBytes(xs)];
    assert |FmtBody(rate)| == 16 && DataBytes(xs) % 2 == 0;
    EvenChunk(FMT, FmtBody(rate));
    EvenChunk(DATA, data);
    OneChunk(Chunk(FMT, FmtBody(rate)));
    hide ChunkBytes, ChunksBytes, FmtBody, U32Bytes, Header, SampleBytes;
    FileRegroups(Header((36 + DataBytes(xs)) % WORD), FMT + U32Bytes(16) + FmtBody(rate),
                 DATA + U32Bytes(DataBytes(xs)) + data);
  }

  /**
   Reading what was written gives the same samples and rate, exactly when the data fits its
   32-bit size field and the rate is not zero.
   */
  lemma RoundTrip(xs: seq<Sample>, rate: nat)
    requires rate < WORD
    ensures Parse(File(xs, rate)) == Audio(rate, xs) <==> 2 * |xs| < WORD && rate > 0
  {
    var data := SampleBytes(xs)[..DataBytes(xs)];
    var c := Chunk(FMT, FmtBody(rate));
    FmtBodyMeans(rate);
    FileIsRiff(xs, rate);
    ParseIsMeaning((36 + DataBytes(xs)) % WORD, [c], data, []);
    OnlyFormat(c, UNKNOWN);
    assert DataBytes(xs) % 2 == 0;
    if 2 * |xs| < WORD {
      assert data == SampleBytes(xs);
      SamplesRoundTrip(xs);
    } else {
      assert |SamplesOf(data)| < |xs|;
    }
  }

  lemma NoDataMeansNoSamples(rate: nat)
    requires 0 < rate < WORD
    ensures WellFormed(Chunk(FMT, FmtBody(rate))) && Meaning([Chunk(FMT, FmtBody(rate))], []) == Audio(rate, [])
  {
    FmtBodyMeans(rate);
    OnlyFormat(Chunk(FMT, FmtBody(rate)), UNKNOWN);
    hide FmtBody, FormatsOf;
  }

  lemma NoDataFits(xs: seq<Sample>)
    requires |xs| == WORD / 2
    ensures DataBytes(xs) == 0 && SampleBytes(xs)[..DataBytes(xs)] == [] && (36 + DataBytes(xs)) % WORD == 36
  {
    hide SampleBytes;
  }

  /** 2^31 samples have a data size of 0, and are read back as none at all. */
  lemma TooLongIsReadAsNothing(xs: seq<Sample>, rate: nat)
    requires |xs| == WORD / 2 && 0 < rate < WORD
    ensures DataBytes(xs) == 0 && Parse(File(xs, rate)) == Audio(rate, [])
  {
    var cs, none := [Chunk(FMT, FmtBody(rate))], [];
    NoDataFits(xs);
    FileIsRiff(xs, rate);
    NoDataMeansNoSamples(rate);
    hide *;
    ParseIsMeaning(36, cs, none, none);
  }

  lemma OnlyFormat(c: Chunk, f: Format)
    requires WellFormed(c)
    ensures FormatsOf([c], f) == OneFormat(c, f)
  {
    assert [c][1..] == [];
  }

  lemma {:induction false} FormatsConcat(a: seq<Chunk>, b: seq<Chunk>, f: Format)
    requires (forall c | c in a :: WellFormed(c)) && forall c | c in b :: WellFormed(c)
    ensures FormatsOf(a + b, f) == match FormatsOf(a, f)
      case NotPcm => NotPcm
      case Pcm(g) => FormatsOf(b, g)
    decreases |a|
  {
    if a == [] {
      assert a + b == b;
    } else {
      assert a[0] in a && (a + b)[0] == a[0] && (a + b)[1..] == a[1..] + b;
      match OneFormat(a[0], f) {
        case NotPcm =>
        case Pcm(g) => FormatsConcat(a[1..], b, g);
      }
    }
  }

  lemma {:induction false} OthersDoNotMatter(cs: seq<Chunk>, f: Format)
    requires forall c | c in cs :: WellFormed(c) && c.tag != FMT
    ensures FormatsOf(cs, f) == Pcm(f)
  {
    if cs != [] {
      assert cs[0] in cs;
      OthersDoNotMatter(cs[1..], f);
    }
  }

  /** The round trip with any other chunks before the format and before the data, and anything behind. */
  lemma RoundTripAmongOtherChunks(xs: seq<Sample>, rate: nat, size: nat,
                                  before: seq<Chunk>, between: seq<Chunk>, tail: seq<Byte>)
    requires 2 * |xs| < WORD && 0 < rate < WORD
    requires forall c | c in before + between :: WellFormed(c) && c.tag != FMT
    ensures var cs := before + [Chunk(FMT, FmtBody(rate))] + between;
      Parse(RiffFile(size, cs, SampleBytes(xs), tail)) == Audio(rate, xs)
  {
    var c := Chunk(FMT, FmtBody(rate));
    FmtBodyMeans(rate);
    assert forall o | o in before :: o in before + between;
    assert forall o | o in between :: o in before + between;
    OthersDoNotMatter(before, UNKNOWN);
    FormatsConcat(before, [c], UNKNOWN);
    OnlyFormat(c, UNKNOWN);
    FormatsConcat(before + [c], between, UNKNOWN);
    OthersDoNotMatter(between, Format(1, rate, 16));
    ParseIsMeaning(size, before + [c] + between, SampleBytes(xs), tail);
    SamplesRoundTrip(xs);
  }

  // ----- termination of the original walk -----

  predicate StandsStill(size: nat) {
    size == WORD - 9 || size == WORD - 8
  }

  /** The chunk header at p is one from which the walk does not get away. */
  predicate StuckAt(b: seq<Byte>, p: nat) {
    && p + 8 <= |b| && StandsStill(ReadU32(b, p + 4)) && b[p..p + 4] != DATA
    && (b[p..p + 4] == FMT ==> p + 24 <= |b| && ReadU16(b, p + 8) == 1)
  }

  /** A walk that starts at pos comes to p. */
  predicate Visits(b: seq<Byte>, pos: nat, p: nat)
    decreases |b| - pos
  {
    p == pos ||
    (pos + 8 <= |b| &&
     match Examine(b, pos, UNKNOWN)
     case Stop(_) => false
     case Next(next, _) => Visits(b, next, p))
  }

  /** Where a header leads does not depend on the format known so far. */
  lemma ExamineLeads(b: seq<Byte>, pos: nat, f: Format, g: Format)
    requires pos + 8 <= |b|
    ensures Examine(b, pos, f).Next? <==> Examine(b, pos, g).Next?
    ensures Examine(b, pos, f).Next? ==> Examine(b, pos, f).pos == Examine(b, pos, g).pos
    ensures Examine(b, pos, f) == Stop(Circles) <==> StuckAt(b, pos)
  {
    AdvanceStandsStillExactlyWhen(ReadU32(b, pos + 4));
  }

  /** For every file: the walk goes round in circles exactly when it comes to such a header. */
  lemma {:induction false} WalkCirclesExactlyWhen(b: seq<Byte>, pos: nat, f: Format)
    ensures WalkFrom(b, pos, f) == Circles <==> exists p: nat :: Visits(b, pos, p) && StuckAt(b, p)
    decreases |b| - pos
  {
    hide Examine, StuckAt;
    if pos + 8 > |b| {
      NothingIsStuckBehind(b);
    } else {
      ExamineLeads(b, pos, f, UNKNOWN);
      match Examine(b, pos, f) {
        case Stop(w) => assert Visits(b, pos, pos);
        case Next(next, g) =>
          WalkCirclesExactlyWhen(b, next, g);
          assert forall p: nat :: Visits(b, pos, p) <==> p == pos || Visits(b, next, p);
      }
    }
  }

  lemma NothingIsStuckBehind(b: seq<Byte>)
    ensures forall p: nat | p + 8 > |b| :: !StuckAt(b, p)
  {
  }

  /**
   For files that are well-formed up to a last chunk header: reading never ends exactly when
   that header declares one of two sizes and is neither the data nor a format that is refused.
   */
  lemma ReadingNeverEndsExactlyWhen(size: nat, cs: seq<Chunk>, tag: seq<Byte>, declared: nat, rest: seq<Byte>)
    requires |tag| == 4 && declared < WORD && (forall c | c in cs :: WellFormed(c))
    requires StandsStill(declared) || Advance(declared) > |rest|
    ensures var b := Header(size) + (ChunksBytes(cs) + (tag + U32Bytes(declared) + rest));
      Parse(b) == Endless <==>
        && |b| >= 44 && FormatsOf(cs, UNKNOWN).Pcm? && StandsStill(declared) && tag != DATA
        && (tag == FMT ==> |rest| >= 16 && ReadU16(rest, 0) == 1)
  {
    var last, head := tag + U32Bytes(declared) + rest, Header(size);
    HeaderIsRead(size, ChunksBytes(cs) + last);
    WalkOverChunks(head, cs, last, UNKNOWN);
    if FormatsOf(cs, UNKNOWN).Pcm? {
      LastHeader(head + ChunksBytes(cs), tag, declared, rest, FormatsOf(cs, UNKNOWN).format);
      FileRegroups(head, ChunksBytes(cs), last);
    }
    hide WalkFrom, FormatsOf, ChunksBytes;
  }

  lemma LastHeader(pre: seq<Byte>, tag: seq<Byte>, declared: nat, rest: seq<Byte>, f: Format)
    requires |tag| == 4 && declared < WORD && (StandsStill(declared) || Advance(declared) > |rest|)
    ensures WalkFrom(pre + (tag + U32Bytes(declared) + rest), |pre|, f) == Circles <==>
      StandsStill(declared) && tag != DATA && (tag == FMT ==> |rest| >= 16 && ReadU16(rest, 0) == 1)
  {
    var b := pre + (tag + U32Bytes(declared) + rest);
    HeaderFields(pre, tag, declared, rest);
    ExamineLeads(b, |pre|, f, f);
    AdvanceStandsStillExactlyWhen(declared);
    hide ReadU32, ReadU16, U32Bytes;
    assert StuckAt(b, |pre|) <==>
      (StandsStill(declared) && tag != DATA && (tag == FMT ==> |rest| >= 16 && ReadU16(rest, 0) == 1));
    if Examine(b, |pre|, f).Next? {
      var next := Examine(b, |pre|, f);
      assert WalkFrom(b, next.pos, next.format) == NoData(next.format);
    }
  }

  lemma HeaderFields(pre: seq<Byte>, tag: seq<Byte>, declared: nat, rest: seq<Byte>)
    requires |tag| == 4 && declared < WORD
    ensures var b := pre + (tag + U32Bytes(declared) + rest);
      && |b| == |pre| + 8 + |rest| && b[|pre|..|pre| + 4] == tag && ReadU32(b, |pre| + 4) == declared
      && (|rest| >= 2 ==> ReadU16(b, |pre| + 8) == ReadU16(rest, 0))
  {
    hide ReadU32, U32Bytes;
    var b := pre + (tag + U32Bytes(declared) + rest);
    U32RoundTrip(declared, pre + tag, rest);
    assert b == (pre + tag) + U32Bytes(declared) + rest;
    assert |rest| >= 2 ==> b[|pre| + 8] == rest[0] && b[|pre| + 9] == rest[1];
  }

  /** Such files exist: a header, then an unknown chunk of 2^32 - 8 bytes. */
  lemma SomeFilesAreNeverRead(rest: seq<Byte>)
    requires |rest| >= 24
    ensures Parse(Header(0) + ([0x4C, 0x49, 0x53, 0x54] + U32Bytes(WORD - 8) + rest)) == Endless
  {
    var tag: seq<Byte> := [0x4C, 0x49, 0x53, 0x54];
    hide Parse, U32Bytes;
    ReadingNeverEndsExactlyWhen(0, [], tag, WORD - 8, rest);
    assert tag[0] != DATA[0] && tag[0] != FMT[0];
    var last := tag + U32Bytes(WORD - 8) + rest;
    assert ChunksBytes([]) + last == last;
  }
}
