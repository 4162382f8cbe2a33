/** The RIFF/WAVE header scanner. Four-character codes are compared as the numbers their bytes read as. */
module WavHeaders {
  import opened Prelude
  import opened LittleEndian

  datatype SampleFormat = PcmInt | Float

  datatype WavHeader = WavHeader(format: SampleFormat, sampleRate: nat, channels: nat, bitsPerSample: nat, dataOffset: nat, dataSize: nat)

  datatype Error = TooShort | NotRiffWave | FmtTooSmall | Unsupported(format: nat) | MissingFmt | MissingData

  /** The bytes `RIFF`, `WAVE`, `fmt ` and `data`. */
  const RIFF: nat := 0x46464952
  const WAVE: nat := 0x45564157
  const FMT: nat := 0x20746D66
  const DATA: nat := 0x61746164

  // -------------------------------------------------------------------
  // The scan, over bytes
  // -------------------------------------------------------------------

  /** What a `fmt ` chunk declares. */
  datatype Format = Format(format: SampleFormat, sampleRate: nat, channels: nat, bitsPerSample: nat)

  /** Where the samples are. */
  datatype Extent = Extent(offset: nat, size: nat)

  /** The `fmt ` chunk whose body of the declared size starts at `at`. */
  function FormatAt(data: seq<byte>, at: nat, size: nat): Result<Format, Error> {
    if size < 16 || at + 16 > |data| then Err(FmtTooSmall)
    else
      var code := U16At(data, at);
      if code != 1 && code != 3 then Err(Unsupported(code))
      else Ok(Format(if code == 1 then PcmInt else Float, U32At(data, at + 4), U16At(data, at + 2), U16At(data, at + 14)))
  }

  function Header(f: Format, e: Extent): WavHeader {
    WavHeader(f.format, f.sampleRate, f.channels, f.bitsPerSample, e.offset, e.size)
  }

  function Finish(fmt: Option<Format>, extent: Option<Extent>): Result<WavHeader, Error> {
    if fmt.None? then Err(MissingFmt)
    else if extent.None? then Err(MissingData)
    else Ok(Header(fmt.value, extent.value))
  }

  /** From one chunk's header to the next: chunks are padded to an even length. */
  function Step(size: nat): nat { 8 + if size % 2 != 0 then size + 1 else size }

  /** The scan from the chunk at `pos`, given what was found before it. */
  function Scan(data: seq<byte>, pos: nat, fmt: Option<Format>, extent: Option<Extent>): Result<WavHeader, Error>
    decreases |data| - pos
  {
    if pos + 8 > |data| then Finish(fmt, extent)
    else
      var id, size := U32At(data, pos), U32At(data, pos + 4);
      if id == FMT then
        match FormatAt(data, pos + 8, size)
        case Err(e) => Err(e)
        case Ok(f) => if extent.Some? then Finish(Some(f), extent) else Scan(data, pos + Step(size), Some(f), extent)
      else if id == DATA then
        if fmt.Some? then Finish(fmt, Some(Extent(pos + 8, size)))
        else Scan(data, pos + Step(size), fmt, Some(Extent(pos + 8, size)))
      else Scan(data, pos + Step(size), fmt, extent)
  }

  function Parsed(data: seq<byte>): Result<WavHeader, Error> {
    if |data| < 12 then Err(TooShort)
    else if U32At(data, 0) != RIFF || U32At(data, 8) != WAVE then Err(NotRiffWave)
    else Scan(data, 12, None, None)
  }

  // -------------------------------------------------------------------
  // What a parsed header says is in the input
  // -------------------------------------------------------------------

  /** A `data` chunk of that size starts its body at that offset. */
  ghost predicate DataThere(data: seq<byte>, e: Extent) {
    20 <= e.offset <= |data| && U32At(data, e.offset - 8) == DATA && U32At(data, e.offset - 4) == e.size
  }

  /** A `fmt ` chunk at `pos` declares this format. */
  ghost predicate FormatThere(data: seq<byte>, pos: nat, f: Format) {
    12 <= pos && pos + 24 <= |data| && U32At(data, pos) == FMT && FormatAt(data, pos + 8, U32At(data, pos + 4)) == Ok(f)
  }

  /** Everything found so far is in the input. */
  ghost predicate Found(data: seq<byte>, fmt: Option<Format>, extent: Option<Extent>) {
    && (extent.Some? ==> DataThere(data, extent.value))
    && (fmt.Some? ==> exists p :: FormatThere(data, p, fmt.value))
  }

  lemma {:induction false} ScanFindsWhatIsThere(data: seq<byte>, pos: nat, fmt: Option<Format>, extent: Option<Extent>)
    requires 12 <= pos && Found(data, fmt, extent)
    ensures Scan(data, pos, fmt, extent).Ok? ==>
              exists f, e :: Scan(data, pos, fmt, extent).value == Header(f, e) && Found(data, Some(f), Some(e))
    decreases |data| - pos
  {
    if pos + 8 <= |data| {
      var id, size := U32At(data, pos), U32At(data, pos + 4);
      var here := Extent(pos + 8, size);
      if id == FMT {
        var f := FormatAt(data, pos + 8, size);
        if f.Ok? {
          assert FormatThere(data, pos, f.value);
          if extent.None? {
            ScanFindsWhatIsThere(data, pos + Step(size), Some(f.value), None);
          }
        }
      } else if id == DATA {
        assert DataThere(data, here);
        if fmt.None? {
          ScanFindsWhatIsThere(data, pos + Step(size), None, Some(here));
        }
      } else {
        ScanFindsWhatIsThere(data, pos + Step(size), fmt, extent);
      }
    }
  }

  /** Of any input at all: a header that parses describes a `fmt ` and a `data` chunk that are there, its offset within the input. */
  lemma ParsedIsThere(data: seq<byte>)
    requires Parsed(data).Ok?
    ensures exists f, e :: Parsed(data).value == Header(f, e) && Found(data, Some(f), Some(e))
    ensures 20 <= Parsed(data).value.dataOffset <= |data|
  {
    ScanFindsWhatIsThere(data, 12, None, None);
  }

  // -------------------------------------------------------------------
  // Well-formed files
  // -------------------------------------------------------------------

  /** `pad` follows a body of odd length. */
  datatype Chunk = Chunk(id: nat, body: seq<byte>, pad: byte)

  ghost predicate ValidChunk(c: Chunk) {
    c.id < TWO_32 && |c.body| < TWO_32
  }

  function ChunkBytes(c: Chunk): (r: seq<byte>)
    ensures |r| == Step(|c.body|)
  {
    Le32(c.id) + Le32(|c.body|) + c.body + if |c.body| % 2 != 0 then [c.pad] else []
  }

  function Bytes(chunks: seq<Chunk>): seq<byte> {
    if chunks == [] then [] else ChunkBytes(chunks[0]) + Bytes(chunks[1..])
  }

  /** The chunk stands in the input at `pos`. */
  ghost predicate ChunkAt(data: seq<byte>, pos: nat, c: Chunk) {
    && pos + Step(|c.body|) <= |data|
    && U32At(data, pos) == c.id
    && U32At(data, pos + 4) == |c.body|
    && forall i :: 0 <= i < |c.body| ==> c.body[i] == data[pos + 8 + i]
  }

  ghost predicate ChunksAt(data: seq<byte>, pos: nat, chunks: seq<Chunk>)
    decreases |chunks|
  {
    chunks == [] || (ChunkAt(data, pos, chunks[0]) && ChunksAt(data, pos + Step(|chunks[0].body|), chunks[1..]))
  }

  function Length(chunks: seq<Chunk>): nat {
    if chunks == [] then 0 else Step(|chunks[0].body|) + Length(chunks[1..])
  }

  function Tail(c: Chunk): seq<byte> {
    c.body + if |c.body| % 2 != 0 then [c.pad] else []
  }

  lemma ChunkHeader(c: Chunk)
    requires ValidChunk(c)
    ensures U32At(ChunkBytes(c), 0) == c.id && U32At(ChunkBytes(c), 4) == |c.body|
  {
    var id, size, tail := Le32(c.id), Le32(|c.body|), Tail(c);
    Le32Reads(c.id);
    Le32Reads(|c.body|);
    assert ChunkBytes(c) == id + size + tail;
    TwoNumbers(id, size, tail);
  }

  lemma TwoNumbers(a: seq<byte>, b: seq<byte>, tail: seq<byte>)
    requires |a| == |b| == 4
    ensures U32At(a + b + tail, 0) == U32At(a, 0) && U32At(a + b + tail, 4) == U32At(b, 0)
  {
  }

  lemma ChunkIsAt(before: seq<byte>, c: Chunk, rest: seq<byte>)
    requires ValidChunk(c)
    ensures ChunkAt(before + ChunkBytes(c) + rest, |before|, c)
  {
    ChunkHeader(c);
    ReadInside(before, ChunkBytes(c), rest, 0);
    ReadInside(before, ChunkBytes(c), rest, 4);
    assert forall i :: 0 <= i < |c.body| ==> c.body[i] == ChunkBytes(c)[8 + i];
  }

  /** Written chunks stand where they were written. */
  lemma {:induction false} ChunksAreAt(before: seq<byte>, chunks: seq<Chunk>, rest: seq<byte>)
    requires forall c :: c in chunks ==> ValidChunk(c)
    ensures ChunksAt(before + Bytes(chunks) + rest, |before|, chunks)
    decreases |chunks|
  {
    if chunks != [] {
      var c := chunks[0];
      Regroup(before, ChunkBytes(c), Bytes(chunks[1..]), rest);
      ChunkIsAt(before, c, Bytes(chunks[1..]) + rest);
      ChunksAreAt(before + ChunkBytes(c), chunks[1..], rest);
    }
  }

  lemma Regroup(a: seq<byte>, b: seq<byte>, c: seq<byte>, d: seq<byte>)
    ensures a + (b + c) + d == a + b + (c + d) == a + b + c + d
  {
  }

  ghost predicate Unknown(c: Chunk) { c.id != FMT && c.id != DATA }

  lemma {:induction false} ChunksSplit(data: seq<byte>, pos: nat, chunks: seq<Chunk>, more: seq<Chunk>)
    requires ChunksAt(data, pos, chunks + more)
    ensures ChunksAt(data, pos, chunks) && ChunksAt(data, pos + Length(chunks), more)
    decreases |chunks|
  {
    if chunks == [] {
      assert chunks + more == more;
    } else {
      assert (chunks + more)[1..] == chunks[1..] + more && (chunks + more)[0] == chunks[0];
      ChunksSplit(data, pos + Step(|chunks[0].body|), chunks[1..], more);
    }
  }

  lemma ScansUnknown(data: seq<byte>, pos: nat, c: Chunk, fmt: Option<Format>, extent: Option<Extent>)
    requires ChunkAt(data, pos, c) && Unknown(c)
    ensures Scan(data, pos, fmt, extent) == Scan(data, pos + Step(|c.body|), fmt, extent)
  {
  }

  lemma {:induction false} SkipsUnknown(data: seq<byte>, pos: nat, chunks: seq<Chunk>, fmt: Option<Format>, extent: Option<Extent>)
    requires ChunksAt(data, pos, chunks) && forall c :: c in chunks ==> Unknown(c)
    ensures Scan(data, pos, fmt, extent) == Scan(data, pos + Length(chunks), fmt, extent)
    decreases |chunks|
  {
    if chunks != [] {
      ScansUnknown(data, pos, chunks[0], fmt, extent);
      SkipsUnknown(data, pos + Step(|chunks[0].body|), chunks[1..], fmt, extent);
    }
  }

  /** A chunk's format is read from its own bytes; only the first sixteen matter. */
  lemma FormatOfChunk(data: seq<byte>, pos: nat, c: Chunk)
    requires ChunkAt(data, pos, c)
    ensures FormatAt(data, pos + 8, |c.body|) == FormatAt(c.body, 0, |c.body|)
  {
  }

  /** A usable `fmt ` chunk: long enough, in a format the decoder knows. */
  ghost predicate FmtChunk(c: Chunk) {
    c.id == FMT && FormatAt(c.body, 0, |c.body|).Ok?
  }

  function FormatOf(c: Chunk): Format
    requires FormatAt(c.body, 0, |c.body|).Ok?
  {
    FormatAt(c.body, 0, |c.body|).value
  }

  /** A `fmt ` chunk ends the scan if the samples were found, and is remembered if not. */
  lemma ScansFmt(data: seq<byte>, pos: nat, c: Chunk, extent: Option<Extent>)
    requires ChunkAt(data, pos, c) && FmtChunk(c)
    ensures Scan(data, pos, None, extent) ==
            if extent.Some? then Ok(Header(FormatOf(c), extent.value)) else Scan(data, pos + Step(|c.body|), Some(FormatOf(c)), None)
  {
    FormatOfChunk(data, pos, c);
  }

  lemma ScansData(data: seq<byte>, pos: nat, c: Chunk, fmt: Option<Format>)
    requires ChunkAt(data, pos, c) && c.id == DATA
    ensures var e := Extent(pos + 8, |c.body|);
            Scan(data, pos, fmt, None) == if fmt.Some? then Ok(Header(fmt.value, e)) else Scan(data, pos + Step(|c.body|), None, Some(e))
  {
  }

  /** Two chunks with unknown ones between them: where they stand. */
  datatype Places = Places(first: nat, between: nat, second: nat)

  function PlacesOf(before: seq<Chunk>, a: Chunk, between: seq<Chunk>): Places {
    var first := 12 + Length(before);
    var next := first + Step(|a.body|);
    Places(first, next, next + Length(between))
  }

  ghost predicate Stand(data: seq<byte>, p: Places, before: seq<Chunk>, a: Chunk, between: seq<Chunk>, b: Chunk) {
    ChunksAt(data, 12, before) && ChunkAt(data, p.first, a) && ChunksAt(data, p.between, between) && ChunkAt(data, p.second, b)
  }

  lemma FourGroups(data: seq<byte>, before: seq<Chunk>, a: Chunk, between: seq<Chunk>, b: Chunk)
    requires ChunksAt(data, 12, before + [a] + between + [b])
    ensures Stand(data, PlacesOf(before, a, between), before, a, between, b)
  {
    var p := PlacesOf(before, a, between);
    var tail := between + [b];
    assert before + [a] + between + [b] == before + ([a] + tail);
    ChunksSplit(data, 12, before, [a] + tail);
    NextChunk(data, p.first, a, tail);
    ChunksSplit(data, p.between, between, [b]);
    assert [b] == [b] + [];
    NextChunk(data, p.second, b, []);
  }

  lemma NextChunk(data: seq<byte>, pos: nat, c: Chunk, more: seq<Chunk>)
    requires ChunksAt(data, pos, [c] + more)
    ensures ChunkAt(data, pos, c) && ChunksAt(data, pos + Step(|c.body|), more)
  {
    assert ([c] + more)[1..] == more;
  }

  lemma ScansFmtOn(data: seq<byte>, p: Places, before: seq<Chunk>, fmt: Chunk, between: seq<Chunk>, samples: Chunk)
    requires Stand(data, p, before, fmt, between, samples) && p == PlacesOf(before, fmt, between)
    requires FmtChunk(fmt) && samples.id == DATA && forall c :: c in between ==> Unknown(c)
    ensures Scan(data, p.first, None, None) == Ok(Header(FormatOf(fmt), Extent(p.second + 8, |samples.body|)))
  {
    ScansFmt(data, p.first, fmt, None);
    SkipsUnknown(data, p.between, between, Some(FormatOf(fmt)), None);
    ScansData(data, p.second, samples, Some(FormatOf(fmt)));
  }

  lemma ScansDataOn(data: seq<byte>, p: Places, before: seq<Chunk>, samples: Chunk, between: seq<Chunk>, fmt: Chunk)
    requires Stand(data, p, before, samples, between, fmt) && p == PlacesOf(before, samples, between)
    requires FmtChunk(fmt) && samples.id == DATA && forall c :: c in between ==> Unknown(c)
    ensures Scan(data, p.first, None, None) == Ok(Header(FormatOf(fmt), Extent(p.first + 8, |samples.body|)))
  {
    var e := Some(Extent(p.first + 8, |samples.body|));
    ScansData(data, p.first, samples, None);
    SkipsUnknown(data, p.between, between, None, e);
    ScansFmt(data, p.second, fmt, e);
  }

  /** Format first: the header is the `fmt ` chunk's fields and the `data` chunk's extent. */
  lemma ScansFormatThenData(data: seq<byte>, before: seq<Chunk>, fmt: Chunk, between: seq<Chunk>, samples: Chunk)
    requires FmtChunk(fmt) && samples.id == DATA
    requires (forall c :: c in before ==> Unknown(c)) && (forall c :: c in between ==> Unknown(c))
    requires ChunksAt(data, 12, before + [fmt] + between + [samples])
    ensures Scan(data, 12, None, None) ==
            Ok(Header(FormatOf(fmt), Extent(PlacesOf(before, fmt, between).second + 8, |samples.body|)))
  {
    FourGroups(data, before, fmt, between, samples);
    SkipsUnknown(data, 12, before, None, None);
    ScansFmtOn(data, PlacesOf(before, fmt, between), before, fmt, between, samples);
  }

  /** Samples first: the same header, with the extent of the `data` chunk where it stands. */
  lemma ScansDataThenFormat(data: seq<byte>, before: seq<Chunk>, samples: Chunk, between: seq<Chunk>, fmt: Chunk)
    requires FmtChunk(fmt) && samples.id == DATA
    requires (forall c :: c in before ==> Unknown(c)) && (forall c :: c in between ==> Unknown(c))
    requires ChunksAt(data, 12, before + [samples] + between + [fmt])
    ensures Scan(data, 12, None, None) ==
            Ok(Header(FormatOf(fmt), Extent(PlacesOf(before, samples, between).first + 8, |samples.body|)))
  {
    FourGroups(data, before, samples, between, fmt);
    SkipsUnknown(data, 12, before, None, None);
    ScansDataOn(data, PlacesOf(before, samples, between), before, samples, between, fmt);
  }

  /** A file: the RIFF header, whatever size it gives, the chunks, and whatever follows them. */
  function File(riffSize: nat, chunks: seq<Chunk>, rest: seq<byte>): seq<byte> {
    Le32(RIFF) + Le32(riffSize) + Le32(WAVE) + Bytes(chunks) + rest
  }

  lemma FileStarts(riffSize: nat, chunks: seq<Chunk>, rest: seq<byte>)
    requires forall c :: c in chunks ==> ValidChunk(c)
    ensures var data := File(riffSize, chunks, rest);
            Parsed(data) == Scan(data, 12, None, None) && ChunksAt(data, 12, chunks)
  {
    var data := File(riffSize, chunks, rest);
    var tail := Bytes(chunks) + rest;
    assert data == [] + Le32(RIFF) + (Le32(riffSize) + Le32(WAVE) + tail);
    ReadInside([], Le32(RIFF), Le32(riffSize) + Le32(WAVE) + tail, 0);
    Le32Inverts(RIFF);
    assert data == (Le32(RIFF) + Le32(riffSize)) + Le32(WAVE) + tail;
    ReadInside(Le32(RIFF) + Le32(riffSize), Le32(WAVE), tail, 0);
    Le32Inverts(WAVE);
    ChunksAreAt(Le32(RIFF) + Le32(riffSize) + Le32(WAVE), chunks, rest);
  }

  /**
   Every well-formed file with one usable `fmt ` chunk and one `data` chunk, in either order, among any
   unknown chunks and whatever follows, parses to exactly that format and extent.
   */
  lemma WellFormedParses(riffSize: nat, before: seq<Chunk>, fmt: Chunk, between: seq<Chunk>, samples: Chunk, rest: seq<byte>)
    requires ValidChunk(fmt) && ValidChunk(samples) && FmtChunk(fmt) && samples.id == DATA
    requires forall c :: c in before || c in between ==> ValidChunk(c) && Unknown(c)
    ensures Parsed(File(riffSize, before + [fmt] + between + [samples], rest)) ==
            Ok(Header(FormatOf(fmt), Extent(PlacesOf(before, fmt, between).second + 8, |samples.body|)))
    ensures Parsed(File(riffSize, before + [samples] + between + [fmt], rest)) ==
            Ok(Header(FormatOf(fmt), Extent(PlacesOf(before, samples, between).first + 8, |samples.body|)))
  {
    var formatFirst, dataFirst := before + [fmt] + between + [samples], before + [samples] + between + [fmt];
    FileStarts(riffSize, formatFirst, rest);
    ScansFormatThenData(File(riffSize, formatFirst, rest), before, fmt, between, samples);
    FileStarts(riffSize, dataFirst, rest);
    ScansDataThenFormat(File(riffSize, dataFirst, rest), before, samples, between, fmt);
  }

  // -------------------------------------------------------------------
  // Files by their bytes
  // -------------------------------------------------------------------

  /** The numbers compared are the four-character codes. */
  lemma CodesAreLetters()
    ensures Le32(RIFF) == ['R' as int, 'I' as int, 'F' as int, 'F' as int] && Le32(WAVE) == ['W' as int, 'A' as int, 'V' as int, 'E' as int]
    ensures Le32(FMT) == ['f' as int, 'm' as int, 't' as int, ' ' as int] && Le32(DATA) == ['d' as int, 'a' as int, 't' as int, 'a' as int]
  {
  }

  lemma {:induction false} LengthIsBytes(chunks: seq<Chunk>)
    ensures Length(chunks) == |Bytes(chunks)|
  {
    if chunks != [] {
      LengthIsBytes(chunks[1..]);
    }
  }

  /** The body of a `fmt ` chunk as a writer lays it out: byte rate, block align and any extension are for others to read. */
  function FormatBytes(code: nat, channels: nat, rate: nat, byteRate: int, align: int, bits: nat, extension: seq<byte>): (r: seq<byte>)
    ensures |r| == 16 + |extension|
  {
    Le16(code) + Le16(channels) + Le32(rate) + Le32(byteRate) + Le16(align) + Le16(bits) + extension
  }

  lemma FormatBytesRead(code: nat, channels: nat, rate: nat, byteRate: int, align: int, bits: nat, extension: seq<byte>)
    requires code < 65536 && channels < 65536 && rate < 4294967296 && bits < 65536
    ensures var body := FormatBytes(code, channels, rate, byteRate, align, bits, extension);
            U16At(body, 0) == code && U16At(body, 2) == channels && U32At(body, 4) == rate && U16At(body, 14) == bits
  {
    var body := FormatBytes(code, channels, rate, byteRate, align, bits, extension);
    Le16Reads(code);
    Le16Reads(channels);
    Le32Reads(rate);
    Le16Reads(bits);
    assert body[0..2] == Le16(code) && body[2..4] == Le16(channels) && body[4..8] == Le32(rate) && body[14..16] == Le16(bits);
    Sliced(body, 0, Le16(code));
    Sliced(body, 2, Le16(channels));
    Sliced(body, 4, Le32(rate));
    Sliced(body, 14, Le16(bits));
  }

  lemma Sliced(s: seq<byte>, i: nat, part: seq<byte>)
    requires i + |part| <= |s| && s[i..i + |part|] == part
    ensures |part| >= 2 ==> U16At(s, i) == U16At(part, 0)
    ensures |part| >= 4 ==> U32At(s, i) == U32At(part, 0)
  {
    assert forall k :: 0 <= k < |part| ==> s[i + k] == part[k];
  }

  lemma WrittenFormat(fmt: Chunk, code: nat, channels: nat, rate: nat, byteRate: int, align: int, bits: nat, extension: seq<byte>)
    requires (code == 1 || code == 3) && channels < 65536 && rate < 4294967296 && bits < 65536
    requires fmt.id == FMT && fmt.body == FormatBytes(code, channels, rate, byteRate, align, bits, extension)
    ensures FmtChunk(fmt) && FormatOf(fmt) == Format(if code == 1 then PcmInt else Float, rate, channels, bits)
  {
    FormatBytesRead(code, channels, rate, byteRate, align, bits, extension);
  }

  /** Chunks stand behind the bytes of those before them. */
  lemma PlacesInBytes(before: seq<Chunk>, a: Chunk, between: seq<Chunk>)
    ensures PlacesOf(before, a, between).first == 12 + |Bytes(before)|
    ensures PlacesOf(before, a, between).second == 12 + |Bytes(before)| + |ChunkBytes(a)| + |Bytes(between)|
  {
    LengthIsBytes(before);
    LengthIsBytes(between);
  }

  /**
   A file written with those numbers parses to exactly them: any channel count, depth and rate, whatever
   byte rate, block align and extension go with them, in either order of the two chunks, among any
   unknown ones.
   */
  lemma WrittenFormatParses(riffSize: nat, before: seq<Chunk>, code: nat, channels: nat, rate: nat, byteRate: int, align: int, bits: nat,
                            extension: seq<byte>, pad: byte, between: seq<Chunk>, samples: Chunk, rest: seq<byte>)
    requires (code == 1 || code == 3) && channels < 65536 && rate < 4294967296 && bits < 65536
    requires 16 + |extension| < 4294967296 && ValidChunk(samples) && samples.id == DATA
    requires forall c :: c in before || c in between ==> ValidChunk(c) && c.id != FMT && c.id != DATA
    ensures var fmt := Chunk(FMT, FormatBytes(code, channels, rate, byteRate, align, bits, extension), pad);
            var format, size := if code == 1 then PcmInt else Float, |samples.body|;
            && Parsed(File(riffSize, before + [fmt] + between + [samples], rest)) ==
               Ok(WavHeader(format, rate, channels, bits, PlacesOf(before, fmt, between).second + 8, size))
            && Parsed(File(riffSize, before + [samples] + between + [fmt], rest)) ==
               Ok(WavHeader(format, rate, channels, bits, PlacesOf(before, samples, between).first + 8, size))
  {
    var fmt := Chunk(FMT, FormatBytes(code, channels, rate, byteRate, align, bits, extension), pad);
    WrittenFormat(fmt, code, channels, rate, byteRate, align, bits, extension);
    WellFormedParses(riffSize, before, fmt, between, samples, rest);
  }

  lemma BodiesStand(data: seq<byte>, before: seq<Chunk>, a: Chunk, between: seq<Chunk>, b: Chunk)
    requires ChunksAt(data, 12, before + [a] + between + [b])
    ensures var p := PlacesOf(before, a, between);
            && p.first + 8 + |a.body| <= |data| && data[p.first + 8..p.first + 8 + |a.body|] == a.body
            && p.second + 8 + |b.body| <= |data| && data[p.second + 8..p.second + 8 + |b.body|] == b.body
  {
    FourGroups(data, before, a, between, b);
    BodyAt(data, PlacesOf(before, a, between).first, a);
    BodyAt(data, PlacesOf(before, a, between).second, b);
  }

  /** The bodies of two chunks are what stands behind their headers in the file. */
  lemma BodyStands(riffSize: nat, before: seq<Chunk>, a: Chunk, between: seq<Chunk>, b: Chunk, rest: seq<byte>)
    requires forall c :: c in before + [a] + between + [b] ==> ValidChunk(c)
    ensures var data, p := File(riffSize, before + [a] + between + [b], rest), PlacesOf(before, a, between);
            && p.first + 8 + |a.body| <= |data| && data[p.first + 8..p.first + 8 + |a.body|] == a.body
            && p.second + 8 + |b.body| <= |data| && data[p.second + 8..p.second + 8 + |b.body|] == b.body
  {
    var chunks := before + [a] + between + [b];
    FileStarts(riffSize, chunks, rest);
    BodiesStand(File(riffSize, chunks, rest), before, a, between, b);
  }

  lemma BodyAt(data: seq<byte>, pos: nat, c: Chunk)
    requires ChunkAt(data, pos, c)
    ensures pos + 8 + |c.body| <= |data| && data[pos + 8..pos + 8 + |c.body|] == c.body
  {
  }

  // -------------------------------------------------------------------
  // Files that are refused
  // -------------------------------------------------------------------

  /** A `fmt ` chunk that is too short, or in another format, ends the scan with its error wherever the samples are. */
  lemma ScansBadFmt(data: seq<byte>, pos: nat, c: Chunk, extent: Option<Extent>)
    requires ChunkAt(data, pos, c) && c.id == FMT
    requires |c.body| < 16 || (U16At(c.body, 0) != 1 && U16At(c.body, 0) != 3)
    ensures Scan(data, pos, None, extent) == if |c.body| < 16 then Err(FmtTooSmall) else Err(Unsupported(U16At(c.body, 0)))
  {
  }

  lemma BadFormatFails(riffSize: nat, before: seq<Chunk>, fmt: Chunk, more: seq<Chunk>, rest: seq<byte>)
    requires ValidChunk(fmt) && fmt.id == FMT && forall c :: c in before || c in more ==> ValidChunk(c)
    requires forall c :: c in before ==> c.id != FMT && c.id != DATA
    requires |fmt.body| < 16 || (U16At(fmt.body, 0) != 1 && U16At(fmt.body, 0) != 3)
    ensures Parsed(File(riffSize, before + ([fmt] + more), rest)) ==
            if |fmt.body| < 16 then Err(FmtTooSmall) else Err(Unsupported(U16At(fmt.body, 0)))
  {
    KnownStands(riffSize, before, fmt, more, rest);
    ScansBadFmt(File(riffSize, before + ([fmt] + more), rest), 12 + Length(before), fmt, None);
  }

  /** A file of unknown chunks with no room for another behind them has neither. */
  lemma NothingKnownFails(riffSize: nat, chunks: seq<Chunk>, rest: seq<byte>)
    requires |rest| < 8 && forall c :: c in chunks ==> ValidChunk(c) && c.id != FMT && c.id != DATA
    ensures Parsed(File(riffSize, chunks, rest)) == Err(MissingFmt)
  {
    var data := File(riffSize, chunks, rest);
    FileStarts(riffSize, chunks, rest);
    LengthIsBytes(chunks);
    SkipsUnknown(data, 12, chunks, None, None);
  }

  /** Past the last unknown chunk there is no room for another. */
  lemma ScanEnds(data: seq<byte>, pos: nat, more: seq<Chunk>, fmt: Option<Format>, extent: Option<Extent>)
    requires ChunksAt(data, pos, more) && pos + Length(more) + 8 > |data| && forall c :: c in more ==> Unknown(c)
    ensures Scan(data, pos, fmt, extent) == Finish(fmt, extent)
  {
    SkipsUnknown(data, pos, more, fmt, extent);
  }

  lemma KnownIsAt(data: seq<byte>, before: seq<Chunk>, known: Chunk, more: seq<Chunk>)
    requires ChunksAt(data, 12, before + ([known] + more))
    ensures ChunksAt(data, 12, before) && ChunkAt(data, 12 + Length(before), known)
    ensures ChunksAt(data, 12 + Length(before) + Step(|known.body|), more)
  {
    ChunksSplit(data, 12, before, [known] + more);
    NextChunk(data, 12 + Length(before), known, more);
  }

  /** Where one known chunk stands among unknown ones. */
  lemma KnownStands(riffSize: nat, before: seq<Chunk>, known: Chunk, more: seq<Chunk>, rest: seq<byte>)
    requires ValidChunk(known) && forall c :: c in before || c in more ==> ValidChunk(c)
    requires forall c :: c in before ==> Unknown(c)
    ensures var data := File(riffSize, before + ([known] + more), rest);
            && Parsed(data) == Scan(data, 12 + Length(before), None, None)
            && ChunkAt(data, 12 + Length(before), known) && ChunksAt(data, 12 + Length(before) + Step(|known.body|), more)
  {
    var data := File(riffSize, before + ([known] + more), rest);
    FileStarts(riffSize, before + ([known] + more), rest);
    KnownIsAt(data, before, known, more);
    SkipsUnknown(data, 12, before, None, None);
  }

  /** One with samples and no format is refused for that. */
  lemma SamplesAloneFail(riffSize: nat, before: seq<Chunk>, samples: Chunk, more: seq<Chunk>, rest: seq<byte>)
    requires |rest| < 8 && ValidChunk(samples) && samples.id == DATA
    requires forall c :: c in before || c in more ==> ValidChunk(c) && c.id != FMT && c.id != DATA
    ensures Parsed(File(riffSize, before + ([samples] + more), rest)) == Err(MissingFmt)
  {
    var data, pos := File(riffSize, before + ([samples] + more), rest), 12 + Length(before);
    KnownStands(riffSize, before, samples, more, rest);
    FileLength(riffSize, before, samples, more, rest);
    ScansData(data, pos, samples, None);
    ScanEnds(data, pos + Step(|samples.body|), more, None, Some(Extent(pos + 8, |samples.body|)));
  }

  /** And one with a usable format and no samples for that. */
  lemma FormatAloneFails(riffSize: nat, before: seq<Chunk>, fmt: Chunk, more: seq<Chunk>, rest: seq<byte>)
    requires |rest| < 8 && ValidChunk(fmt) && FmtChunk(fmt)
    requires forall c :: c in before || c in more ==> ValidChunk(c) && c.id != FMT && c.id != DATA
    ensures Parsed(File(riffSize, before + ([fmt] + more), rest)) == Err(MissingData)
  {
    var data, pos := File(riffSize, before + ([fmt] + more), rest), 12 + Length(before);
    KnownStands(riffSize, before, fmt, more, rest);
    FileLength(riffSize, before, fmt, more, rest);
    ScansFmt(data, pos, fmt, None);
    ScanEnds(data, pos + Step(|fmt.body|), more, Some(FormatOf(fmt)), None);
  }

  lemma FileLength(riffSize: nat, before: seq<Chunk>, known: Chunk, more: seq<Chunk>, rest: seq<byte>)
    ensures |File(riffSize, before + ([known] + more), rest)| == 12 + Length(before) + Step(|known.body|) + Length(more) + |rest|
  {
    LengthIsBytes(before + ([known] + more));
    LengthAdds(before, [known] + more);
    assert ([known] + more)[1..] == more;
  }

  lemma {:induction false} LengthAdds(one: seq<Chunk>, two: seq<Chunk>)
    ensures Length(one + two) == Length(one) + Length(two)
    decreases |one|
  {
    if one == [] {
      assert one + two == two;
    } else {
      assert (one + two)[1..] == one[1..] + two;
      LengthAdds(one[1..], two);
    }
  }

  // -------------------------------------------------------------------
  // The parser as written
  // -------------------------------------------------------------------

  /** Every read is within the input. */
  method ParseWavHeader(data: seq<byte>) returns (r: Result<WavHeader, Error>)
    ensures r == Parsed(data)
  {
    if |data| < 12 {
      return Err(TooShort);
    }
    if U32At(data, 0) != RIFF || U32At(data, 8) != WAVE {
      return Err(NotRiffWave);
    }
    var pos := 12;
    var fmtFound, dataFound := false, false;
    var fmt := Format(PcmInt, 0, 0, 0);
    var extent := Extent(0, 0);
    while pos + 8 <= |data|
      invariant pos >= 12
      invariant !(fmtFound && dataFound)
      invariant Parsed(data) == Scan(data, pos, if fmtFound then Some(fmt) else None, if dataFound then Some(extent) else None)
      decreases |data| - pos
    {
      var id := U32At(data, pos);
      var size := U32At(data, pos + 4);
      if id == FMT {
        if size < 16 || pos + 8 + 16 > |data| {
          return Err(FmtTooSmall);
        }
        var body := pos + 8;
        var code := U16At(data, body);
        if code != 1 && code != 3 {
          return Err(Unsupported(code));
        }
        fmt := Format(if code == 1 then PcmInt else Float, U32At(data, body + 4), U16At(data, body + 2), U16At(data, body + 14));
        fmtFound := true;
      } else if id == DATA {
        extent := Extent(pos + 8, size);
        dataFound := true;
      }
      if fmtFound && dataFound {
        break;
      }
      var padded := if size % 2 != 0 then size + 1 else size;
      pos := pos + 8 + padded;
    }
    if !fmtFound {
      return Err(MissingFmt);
    }
    if !dataFound {
      return Err(MissingData);
    }
    r := Ok(Header(fmt, extent));
  }
}
