/** The WAV file the browser sends: a 44-byte header and one 16-bit sample after another, which the server has to read back. */
module BrowserWav {
  import opened Prelude
  import opened LittleEndian
  import opened WavHeaders
  import opened PcmSamples

  function RiffPart(n: nat): (r: seq<byte>)
    ensures |r| == 12
  {
    Le32(RIFF) + Le32(36 + n * 2) + Le32(WAVE)
  }

  /** The `fmt ` chunk written behind `before`. */
  function WithFormat(before: seq<byte>, rate: int): (r: seq<byte>)
    ensures |r| == |before| + 24
  {
    before + Le32(FMT) + Le32(16) + Le16(1) + Le16(1) + Le32(rate) + Le32(rate * 2) + Le16(2) + Le16(16)
  }

  function WithDataHeader(before: seq<byte>, n: nat): (r: seq<byte>)
    ensures |r| == |before| + 8
  {
    before + Le32(DATA) + Le32(n * 2)
  }

  /** The header for `n` samples at `rate`: stores keep only the low bits of sizes and rates that do not fit. */
  function HeaderBytes(n: nat, rate: int): (r: seq<byte>)
    ensures |r| == 44
  {
    WithDataHeader(WithFormat(RiffPart(n), rate), n)
  }

  function SampleBytes(samples: seq<real>): (r: seq<byte>)
    ensures |r| == 2 * |samples|
  {
    if samples == [] then [] else SampleBytes(samples[..|samples| - 1]) + Le16(BrowserSample(samples[|samples| - 1]))
  }

  function WavBytes(samples: seq<real>, rate: int): seq<byte> {
    HeaderBytes(|samples|, rate) + SampleBytes(samples)
  }

  // -------------------------------------------------------------------
  // What the server's parser makes of it
  // -------------------------------------------------------------------

  /** The body of the browser's `fmt ` chunk. */
  function FormatBody(rate: int): (r: seq<byte>)
    ensures |r| == 16
  {
    Le16(1) + Le16(1) + Le32(rate) + Le32(rate * 2) + Le16(2) + Le16(16)
  }

  lemma FormatBodyReads(rate: int)
    ensures FormatAt(FormatBody(rate), 0, 16) == Ok(Format(PcmInt, rate % TWO_32, 1, 16))
  {
    var body := FormatBody(rate);
    Le32Inverts(rate);
    var r := Le32(rate);
    assert body[4] == r[0] && body[5] == r[1] && body[6] == r[2] && body[7] == r[3];
    assert U32At(body, 4) == U32At(r, 0);
    assert body[14..] == Le16(16);
  }

  lemma FormatIsBody(before: seq<byte>, rate: int)
    ensures WithFormat(before, rate) == before + Le32(FMT) + Le32(16) + FormatBody(rate)
  {
  }

  lemma ReadNumber(before: seq<byte>, v: int, rest: seq<byte>)
    ensures U32At(before + Le32(v) + rest, |before|) == v % TWO_32
  {
    ReadInside(before, Le32(v), rest, 0);
    Le32Inverts(v);
  }

  /** Numbers stand where they stood whatever is appended. */
  lemma Prefixed(a: seq<byte>, b: seq<byte>, i: nat)
    requires i + 4 <= |a|
    ensures U32At(a + b, i) == U32At(a, i)
  {
  }

  lemma RiffNumbers(n: nat)
    ensures U32At(RiffPart(n), 0) == RIFF && U32At(RiffPart(n), 8) == WAVE
  {
    assert RiffPart(n) == [] + Le32(RIFF) + (Le32(36 + n * 2) + Le32(WAVE));
    ReadNumber([], RIFF, Le32(36 + n * 2) + Le32(WAVE));
    assert RiffPart(n) == Le32(RIFF) + Le32(36 + n * 2) + Le32(WAVE) + [];
    ReadNumber(Le32(RIFF) + Le32(36 + n * 2), WAVE, []);
  }

  lemma FormatNumbers(before: seq<byte>, rate: int)
    ensures var data := WithFormat(before, rate);
            && U32At(data, |before|) == FMT && U32At(data, |before| + 4) == 16
            && forall i :: 0 <= i < 16 ==> FormatBody(rate)[i] == data[|before| + 8 + i]
  {
    var data := WithFormat(before, rate);
    FormatIsBody(before, rate);
    var body := FormatBody(rate);
    assert data == before + Le32(FMT) + (Le32(16) + body);
    ReadNumber(before, FMT, Le32(16) + body);
    assert data == (before + Le32(FMT)) + Le32(16) + body;
    ReadNumber(before + Le32(FMT), 16, body);
  }

  lemma DataNumbers(before: seq<byte>, n: nat)
    ensures var data := WithDataHeader(before, n);
            U32At(data, |before|) == DATA && U32At(data, |before| + 4) == n * 2 % TWO_32
  {
    var data := WithDataHeader(before, n);
    ReadNumber(before, DATA, Le32(n * 2));
    assert data == (before + Le32(DATA)) + Le32(n * 2) + [];
    ReadNumber(before + Le32(DATA), n * 2, []);
  }

  /** What stands where in the browser's file. */
  lemma BrowserNumbers(samples: seq<real>, rate: int)
    ensures var data := WavBytes(samples, rate);
            && U32At(data, 0) == RIFF && U32At(data, 8) == WAVE
            && U32At(data, 12) == FMT && U32At(data, 16) == 16
            && U32At(data, 36) == DATA && U32At(data, 40) == |samples| * 2 % TWO_32
            && forall i :: 0 <= i < 16 ==> FormatBody(rate)[i] == data[20 + i]
  {
    var n := |samples|;
    var riff := RiffPart(n);
    var format := WithFormat(riff, rate);
    var header := WithDataHeader(format, n);
    RiffNumbers(n);
    FormatNumbers(riff, rate);
    DataNumbers(format, n);
    var more := Le32(FMT) + Le32(16) + FormatBody(rate) + Le32(DATA) + Le32(n * 2) + SampleBytes(samples);
    FormatIsBody(riff, rate);
    assert WavBytes(samples, rate) == riff + more;
    Prefixed(riff, more, 0);
    Prefixed(riff, more, 8);
    var rest := Le32(DATA) + Le32(n * 2) + SampleBytes(samples);
    assert WavBytes(samples, rate) == format + rest;
    Prefixed(format, rest, 12);
    Prefixed(format, rest, 16);
    Prefixed(header, SampleBytes(samples), 36);
    Prefixed(header, SampleBytes(samples), 40);
  }

  /**
   The server reads the browser's header as mono 16-bit PCM with the samples at byte 44, their size and
   rate as written modulo 2^32.
   */
  lemma ParsesBrowserFile(samples: seq<real>, rate: int)
    ensures Parsed(WavBytes(samples, rate)) == Ok(WavHeader(PcmInt, rate % TWO_32, 1, 16, 44, |samples| * 2 % TWO_32))
  {
    var data := WavBytes(samples, rate);
    BrowserNumbers(samples, rate);
    FormatBodyReads(rate);
    assert FormatAt(data, 20, 16) == FormatAt(FormatBody(rate), 0, 16);
    var f := Some(Format(PcmInt, rate % TWO_32, 1, 16));
    assert Scan(data, 12, None, None) == Scan(data, 36, f, None);
    assert Scan(data, 36, f, None) == Finish(f, Some(Extent(44, |samples| * 2 % TWO_32)));
  }

  lemma FormatBodyFields(rate: int)
    ensures var body := FormatBody(rate);
            && U16At(body, 0) == 1 && U16At(body, 2) == 1 && U32At(body, 4) == rate % 4294967296
            && U32At(body, 8) == (2 * rate) % 4294967296 && U16At(body, 12) == 2 && U16At(body, 14) == 16
  {
    var body := FormatBody(rate);
    Le32Inverts(rate);
    Le32Inverts(rate * 2);
    assert body[4..8] == Le32(rate) && body[8..12] == Le32(rate * 2);
    Sliced(body, 4, Le32(rate));
    Sliced(body, 8, Le32(rate * 2));
  }

  /** The rest of the header: sizes and rates modulo 2^32, two bytes a frame, sixteen bits a sample. */
  lemma BrowserHeaderFields(samples: seq<real>, rate: int)
    ensures var data := WavBytes(samples, rate);
            && |data| == 44 + 2 * |samples|
            && U32At(data, 4) == (36 + 2 * |samples|) % 4294967296
            && U16At(data, 20) == 1 && U16At(data, 22) == 1 && U32At(data, 24) == rate % 4294967296
            && U32At(data, 28) == (2 * rate) % 4294967296 && U16At(data, 32) == 2 && U16At(data, 34) == 16
  {
    var data := WavBytes(samples, rate);
    BrowserNumbers(samples, rate);
    FormatBodyFields(rate);
    assert data[4..8] == Le32(36 + |samples| * 2);
    Sliced(data, 4, Le32(36 + |samples| * 2));
    Le32Inverts(36 + |samples| * 2);
  }

  /** The size read is the size of the samples exactly when there are fewer than 2^31 of them. */
  lemma SizeIsWhole(n: nat)
    ensures n * 2 % TWO_32 == n * 2 <==> n < TWO_31
  {
    if n < TWO_31 {
      Remainder(n * 2, 0, n * 2, TWO_32);
    }
  }

  lemma {:induction false} SampleBytesAt(samples: seq<real>, k: nat)
    requires k < |samples|
    ensures (SampleBytes(samples)[2 * k], SampleBytes(samples)[2 * k + 1]) == StoredBytes(BrowserSample(samples[k]))
    decreases |samples|
  {
    var n := |samples| - 1;
    if k < n {
      SampleBytesAt(samples[..n], k);
    }
  }

  /** The bytes the server decodes: from the header's offset, for its size, within the input. */
  function DataBytes(data: seq<byte>, h: WavHeader): seq<byte>
    requires h.dataOffset <= |data|
  {
    data[h.dataOffset..Min(h.dataOffset + h.dataSize, |data|)]
  }

  lemma DataIsSamples(samples: seq<real>, rate: int, h: WavHeader)
    requires h.dataOffset == 44 && h.dataSize == |samples| * 2
    ensures DataBytes(WavBytes(samples, rate), h) == SampleBytes(samples)
  {
    Behind(HeaderBytes(|samples|, rate), SampleBytes(samples));
  }

  lemma Behind(head: seq<byte>, tail: seq<byte>)
    ensures (head + tail)[|head|..|head| + |tail|] == tail
  {
  }

  /** Each decoded sample is close to the one the browser clamped. */
  ghost predicate Hears(samples: seq<real>, r: Result<seq<real>, PcmSamples.Error>) {
    && r.Ok? && |r.value| == |samples|
    && forall k :: 0 <= k < |samples| ==> -2.0 / 32768.0 < r.value[k] - Unit(samples[k]) < 2.0 / 32768.0
  }

  lemma DecodesSamples(samples: seq<real>)
    ensures Hears(samples, PcmToReals(SampleBytes(samples), 16))
  {
    var r := DecodeAll16(SampleBytes(samples));
    forall k | 0 <= k < |samples| ensures -2.0 / 32768.0 < r[k] - Unit(samples[k]) < 2.0 / 32768.0 {
      SampleBytesAt(samples, k);
      BrowserErrorIsSmall(samples[k]);
    }
  }

  /**
   What the browser records the server hears: fewer than 2^31 samples come back in number and order,
   each within two 32768ths of the sample clamped to [-1, 1].
   */
  lemma ServerHearsBrowser(samples: seq<real>, rate: int) returns (h: WavHeader)
    requires |samples| < TWO_31
    ensures Parsed(WavBytes(samples, rate)) == Ok(h) && h.dataOffset <= |WavBytes(samples, rate)|
    ensures Hears(samples, PcmToReals(DataBytes(WavBytes(samples, rate), h), h.bitsPerSample))
  {
    ParsesBrowserFile(samples, rate);
    SizeIsWhole(|samples|);
    h := WavHeader(PcmInt, rate % TWO_32, 1, 16, 44, |samples| * 2);
    DataIsSamples(samples, rate, h);
    DecodesSamples(samples);
  }

  // -------------------------------------------------------------------
  // The writer as written
  // -------------------------------------------------------------------

  method SetUint16(view: array<byte>, offset: nat, v: int)
    requires offset + 2 <= view.Length
    modifies view
    ensures view[..offset + 2] == old(view[..offset]) + Le16(v)
  {
    view[offset], view[offset + 1] := Low8(v), Low8(v / 256);
  }

  method SetUint32(view: array<byte>, offset: nat, v: int)
    requires offset + 4 <= view.Length
    modifies view
    ensures view[..offset + 4] == old(view[..offset]) + Le32(v)
  {
    view[offset], view[offset + 1] := Low8(v), Low8(v / 256);
    view[offset + 2], view[offset + 3] := Low8(v / TWO_16), Low8(v / TWO_16 / 256);
  }

  method WriteFormat(view: array<byte>, rate: int)
    requires view.Length >= 36
    modifies view
    ensures view[..36] == WithFormat(old(view[..12]), rate)
  {
    SetUint32(view, 12, FMT);
    SetUint32(view, 16, 16);
    SetUint16(view, 20, 1);
    SetUint16(view, 22, 1);
    SetUint32(view, 24, rate);
    SetUint32(view, 28, rate * 2);
    SetUint16(view, 32, 2);
    SetUint16(view, 34, 16);
  }

  /** Every store goes right behind the one before it, and none outside the file. */
  method EncodeWav(samples: seq<real>, rate: int) returns (view: array<byte>)
    ensures fresh(view) && view[..] == WavBytes(samples, rate)
  {
    var n := |samples|;
    view := new byte[44 + n * 2](_ => 0);
    SetUint32(view, 0, RIFF);
    SetUint32(view, 4, 36 + n * 2);
    SetUint32(view, 8, WAVE);
    assert view[..12] == RiffPart(n);
    WriteFormat(view, rate);
    SetUint32(view, 36, DATA);
    SetUint32(view, 40, n * 2);
    assert view[..44] == HeaderBytes(n, rate);
    WriteSamples(view, samples);
    assert view[..44 + 2 * n] == view[..];
  }

  method WriteSamples(view: array<byte>, samples: seq<real>)
    requires view.Length == 44 + 2 * |samples|
    modifies view
    ensures view[..44 + 2 * |samples|] == old(view[..44]) + SampleBytes(samples)
  {
    var offset := 44;
    var i := 0;
    while i < |samples|
      invariant 0 <= i <= |samples| && offset == 44 + 2 * i
      invariant view[..offset] == old(view[..44]) + SampleBytes(samples[..i])
    {
      SetUint16(view, offset, BrowserSample(samples[i]));
      assert samples[..i + 1][..i] == samples[..i];
      offset := offset + 2;
      i := i + 1;
    }
    assert samples[..|samples|] == samples;
  }
}
