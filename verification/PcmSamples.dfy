/**
 Samples between floating point, taken as real numbers, and 16-, 24- and 32-bit integers: the server's
 decoder and its history writer, and the browser's writer.
 */
module PcmSamples {
  import opened Prelude
  import opened LittleEndian

  const I16_MIN: int := -32768
  const I16_MAX: int := 32767
  const TWO_24: nat := 0x100_0000
  const TWO_31: nat := 0x8000_0000

  // -------------------------------------------------------------------
  // Decoding
  // -------------------------------------------------------------------

  /** The two's complement value of an unsigned number below `m`, for even `m`. */
  function Signed(u: nat, m: nat): int
    requires u < m
  {
    if u < m / 2 then u else u - m
  }

  function I16(lo: byte, hi: byte): int { Signed(lo as int + 256 * (hi as int), TWO_16) }

  function Decode16(lo: byte, hi: byte): real { I16(lo, hi) as real / 32768.0 }

  function U32Of(a: byte, b: byte, c: byte, d: byte): nat { a as int + 256 * (b as int) + TWO_16 * (c as int) + TWO_24 * (d as int) }

  /** The three bytes as the high bits of a 32-bit number, shifted back down arithmetically. */
  function Shifted24(a: byte, b: byte, c: byte): int { Signed(U32Of(0, a, b, c), TWO_32) / 256 }

  function Decode24(a: byte, b: byte, c: byte): real { Shifted24(a, b, c) as real / 8388608.0 }

  function Decode32(a: byte, b: byte, c: byte, d: byte): real { Signed(U32Of(a, b, c, d), TWO_32) as real / 2147483648.0 }

  datatype Error = OddBytes | UnsupportedBits(bits: nat)

  function DecodeAll16(bytes: seq<byte>): (r: seq<real>)
    requires |bytes| % 2 == 0
    ensures |r| == |bytes| / 2 && forall k :: 0 <= k < |r| ==> r[k] == Decode16(bytes[2 * k], bytes[2 * k + 1])
  {
    seq(|bytes| / 2, k requires 0 <= k < |bytes| / 2 => Decode16(bytes[2 * k], bytes[2 * k + 1]))
  }

  function DecodeAll24(bytes: seq<byte>): seq<real>
    requires |bytes| % 3 == 0
  {
    seq(|bytes| / 3, k requires 0 <= k < |bytes| / 3 => Decode24(bytes[3 * k], bytes[3 * k + 1], bytes[3 * k + 2]))
  }

  function DecodeAll32(bytes: seq<byte>): seq<real>
    requires |bytes| % 4 == 0
  {
    seq(|bytes| / 4, k requires 0 <= k < |bytes| / 4 => Decode32(bytes[4 * k], bytes[4 * k + 1], bytes[4 * k + 2], bytes[4 * k + 3]))
  }

  /** Integer PCM of the depths the decoder knows. */
  function PcmToReals(bytes: seq<byte>, bits: nat): Result<seq<real>, Error> {
    if bits == 16 then (if |bytes| % 2 != 0 then Err(OddBytes) else Ok(DecodeAll16(bytes)))
    else if bits == 24 then (if |bytes| % 3 != 0 then Err(OddBytes) else Ok(DecodeAll24(bytes)))
    else if bits == 32 then (if |bytes| % 4 != 0 then Err(OddBytes) else Ok(DecodeAll32(bytes)))
    else Err(UnsupportedBits(bits))
  }

  /** The shift decode of three bytes is their two's complement value. */
  lemma ShiftIsTwosComplement(a: byte, b: byte, c: byte)
    ensures Shifted24(a, b, c) == Signed(a as int + 256 * (b as int) + TWO_16 * (c as int), TWO_24)
  {
    var u := a as int + 256 * (b as int) + TWO_16 * (c as int);
    assert U32Of(0, a, b, c) == 256 * u;
    if u < TWO_24 / 2 {
      Remainder(256 * u, u, 0, 256);
    } else {
      Remainder(256 * u - TWO_32, u - TWO_24, 0, 256);
    }
  }

  /** The number `u` of `2 * half` values, those from `half` on standing for the negative ones. */
  function Value(u: nat, half: nat): int { if u < half then u else u - 2 * half }

  /** Integer PCM is decoded when its length is a whole number of samples of a depth the decoder knows. */
  lemma DecodesExactly(bytes: seq<byte>, bits: nat)
    ensures PcmToReals(bytes, bits).Ok? <==> (bits == 16 || bits == 24 || bits == 32) && |bytes| % (bits / 8) == 0
    ensures PcmToReals(bytes, bits).Ok? ==> |PcmToReals(bytes, bits).value| == |bytes| / (bits / 8)
    ensures PcmToReals(bytes, bits).Err? ==>
              PcmToReals(bytes, bits).error == if bits == 16 || bits == 24 || bits == 32 then OddBytes else UnsupportedBits(bits)
  {
    assert 16 / 8 == 2 && 24 / 8 == 3 && 32 / 8 == 4;
  }

  /** Each sample is then the two's complement value of its own bytes, low byte first, over half the range. */
  lemma DecodesEachSample(bytes: seq<byte>, bits: nat, k: nat)
    requires PcmToReals(bytes, bits).Ok? && k < |PcmToReals(bytes, bits).value|
    ensures var sample := PcmToReals(bytes, bits).value[k];
            match bits
            case 16 =>
              2 * k + 2 <= |bytes| && sample == Value(bytes[2 * k] as int + 256 * (bytes[2 * k + 1] as int), 32768) as real / 32768.0
            case 24 =>
              3 * k + 3 <= |bytes|
              && sample == Value(bytes[3 * k] as int + 256 * (bytes[3 * k + 1] as int) + 65536 * (bytes[3 * k + 2] as int), 8388608) as real / 8388608.0
            case _ =>
              4 * k + 4 <= |bytes|
              && sample == Value(bytes[4 * k] as int + 256 * (bytes[4 * k + 1] as int) + 65536 * (bytes[4 * k + 2] as int)
                                 + 16777216 * (bytes[4 * k + 3] as int), 2147483648) as real / 2147483648.0
  {
    if bits == 24 {
      ShiftIsTwosComplement(bytes[3 * k], bytes[3 * k + 1], bytes[3 * k + 2]);
    }
  }

  /** Every decoder stays within [-1, 1), reaching -1 exactly at the most negative integer. */
  lemma DecodedInRange(a: byte, b: byte, c: byte, d: byte)
    ensures -1.0 <= Decode16(a, b) < 1.0 && (Decode16(a, b) == -1.0 <==> I16(a, b) == I16_MIN)
    ensures -1.0 <= Decode24(a, b, c) < 1.0
    ensures -1.0 <= Decode32(a, b, c, d) < 1.0
  {
    ShiftIsTwosComplement(a, b, c);
  }

  // -------------------------------------------------------------------
  // The history writer: scale, round half away from zero, clamp
  // -------------------------------------------------------------------

  function Round(x: real): int {
    if x >= 0.0 then (x + 0.5).Floor else -((-x + 0.5).Floor)
  }

  function Clamp(v: int, lo: int, hi: int): int { Max(lo, Min(v, hi)) }

  function Quantise(s: real): int { Clamp(Round(s * 32768.0), I16_MIN, I16_MAX) }

  /** The samples' data bytes, as the writer's loop leaves them. */
  function Written(samples: seq<real>): (r: seq<byte>)
    ensures |r| == 2 * |samples|
  {
    if samples == [] then [] else Written(samples[..|samples| - 1]) + Le16(Quantise(samples[|samples| - 1]))
  }

  method EncodeSamples(samples: seq<real>) returns (data: seq<byte>)
    ensures data == Written(samples)
  {
    data := [];
    var i := 0;
    while i < |samples|
      invariant 0 <= i <= |samples|
      invariant data == Written(samples[..i])
    {
      var v := Clamp(Round(samples[i] * 32768.0), I16_MIN, I16_MAX);
      data := data + Le16(v);
      assert samples[..i + 1][..i] == samples[..i];
      i := i + 1;
    }
    assert samples[..|samples|] == samples;
  }

  lemma RoundOfInt(v: int)
    ensures Round(v as real) == v
  {
    assert (v as real + 0.5).Floor == v;
    assert (-(v as real) + 0.5).Floor == -v;
  }

  /** Quantising what a 16-bit integer decodes to gives the integer back. */
  lemma QuantiseInvertsDecode(lo: byte, hi: byte)
    ensures Quantise(Decode16(lo, hi)) == I16(lo, hi)
    ensures Le16(Quantise(Decode16(lo, hi))) == [lo, hi]
  {
    var v := I16(lo, hi);
    assert Decode16(lo, hi) * 32768.0 == v as real;
    RoundOfInt(v);
    Le16OfBytes(lo, hi);
    SameLe16(v, lo as int + 256 * (hi as int));
  }

  /** A 16-bit store depends only on the value modulo 2^16. */
  lemma SameLe16(v: int, u: int)
    requires v == u || v == u - TWO_16
    ensures Le16(v) == Le16(u)
  {
    if v != u {
      Remainder(v, u / 256 - 256, u % 256, 256);
      Remainder(v / 256, u / 256 / 256 - 1, u / 256 % 256, 256);
    }
  }

  /** Audio decoded from 16-bit samples and written again is the same bytes, whatever they were. */
  lemma {:induction false} WriteInvertsDecode(bytes: seq<byte>)
    requires |bytes| % 2 == 0
    ensures Written(DecodeAll16(bytes)) == bytes
    decreases |bytes|
  {
    if bytes != [] {
      var n := |bytes|;
      var init := bytes[..n - 2];
      WriteInvertsDecode(init);
      var samples := DecodeAll16(bytes);
      assert samples[..|samples| - 1] == DecodeAll16(init);
      QuantiseInvertsDecode(bytes[n - 2], bytes[n - 1]);
      assert bytes == init + [bytes[n - 2], bytes[n - 1]];
    }
  }

  /** Elsewhere the writer rounds to the nearest value it can store, and saturates exactly beyond the last half step. */
  lemma QuantiseIsNearest(s: real)
    ensures I16_MIN <= Quantise(s) <= I16_MAX
    ensures s * 32768.0 >= 32766.5 <==> Quantise(s) == I16_MAX
    ensures s * 32768.0 <= -32767.5 <==> Quantise(s) == I16_MIN
    ensures -32768.5 <= s * 32768.0 <= 32767.5 ==> -0.5 <= Quantise(s) as real - s * 32768.0 <= 0.5
  {
    var x := s * 32768.0;
    RoundIsNearest(x);
    assert x >= 32766.5 <==> Round(x) >= 32767;
    assert x <= -32767.5 <==> Round(x) <= -32768;
  }

  lemma RoundIsNearest(x: real)
    ensures -0.5 <= Round(x) as real - x <= 0.5
    ensures Round(x) as real - x == 0.5 ==> x >= 0.0
    ensures Round(x) as real - x == -0.5 ==> x <= 0.0
  {
  }

  // -------------------------------------------------------------------
  // The browser's writer: clamp, scale each side, truncate
  // -------------------------------------------------------------------

  function Truncate(x: real): int {
    if x >= 0.0 then x.Floor else -((-x).Floor)
  }

  function Unit(s: real): real { if s > 1.0 then 1.0 else if s < -1.0 then -1.0 else s }

  function BrowserSample(s: real): int {
    var clamped := Unit(s);
    Truncate(if clamped < 0.0 then clamped * 32768.0 else clamped * 32767.0)
  }

  lemma BrowserInRange(s: real)
    ensures I16_MIN <= BrowserSample(s) <= I16_MAX
  {
    var c := Unit(s);
    assert c >= 0.0 ==> 0.0 <= c * 32767.0 <= 32767.0;
    assert c < 0.0 ==> -32768.0 <= c * 32768.0 <= 0.0;
  }

  /** The browser truncates towards zero, on a scale of 32767 above it and 32768 below, and stores the ends for whatever is beyond them. */
  lemma BrowserTruncates(s: real)
    ensures 0.0 <= s <= 1.0 ==> BrowserSample(s) as real <= s * 32767.0 < BrowserSample(s) as real + 1.0
    ensures -1.0 <= s <= 0.0 ==> BrowserSample(s) as real - 1.0 < s * 32768.0 <= BrowserSample(s) as real
    ensures s >= 1.0 ==> BrowserSample(s) == 32767
    ensures s <= -1.0 ==> BrowserSample(s) == -32768
  {
  }

  function StoredBytes(v: int): (byte, byte) { (Low8(v), Low8(v / 256)) }

  /** A stored 16-bit value decodes to itself over 2^15. */
  lemma StoredDecodes(v: int)
    requires I16_MIN <= v <= I16_MAX
    ensures var (lo, hi) := StoredBytes(v); Decode16(lo, hi) == v as real / 32768.0
  {
    var (lo, hi) := StoredBytes(v);
    Le16Inverts(v);
    assert U16At(Le16(v), 0) == lo as int + 256 * (hi as int);
    if v >= 0 {
      Remainder(v, 0, v, TWO_16);
    } else {
      Remainder(v, -1, v + TWO_16, TWO_16);
    }
  }

  /** A sample in [-1, 1] that the browser writes and the server decodes differs by less than 2/32768; beyond, it is clamped first. */
  lemma BrowserErrorIsSmall(s: real)
    ensures var (lo, hi) := StoredBytes(BrowserSample(s));
            -2.0 / 32768.0 < Decode16(lo, hi) - Unit(s) < 2.0 / 32768.0
    ensures -1.0 <= s <= 1.0 ==> Unit(s) == s
  {
    var c, v := Unit(s), BrowserSample(s);
    BrowserInRange(s);
    StoredDecodes(v);
    if c >= 0.0 {
      assert 0.0 <= c * 32767.0 - v as real < 1.0;
      assert c * 32768.0 == c * 32767.0 + c;
    } else {
      assert -1.0 < c * 32768.0 - v as real <= 0.0;
    }
    assert -2.0 < v as real - c * 32768.0 < 2.0;
    Scaled(v as real, c);
  }

  lemma Scaled(v: real, c: real)
    requires -2.0 < v - c * 32768.0 < 2.0
    ensures -2.0 / 32768.0 < v / 32768.0 - c < 2.0 / 32768.0
  {
    assert v / 32768.0 - c == (v - c * 32768.0) / 32768.0;
  }
}
