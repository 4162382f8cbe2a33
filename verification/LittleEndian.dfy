/** Bytes, and unsigned 16- and 32-bit numbers in little-endian order. */
module LittleEndian {
  type byte = b: int | 0 <= b < 256

  const TWO_16: nat := 0x1_0000
  const TWO_32: nat := 0x1_0000_0000

  function U16At(s: seq<byte>, i: nat): nat
    requires i + 2 <= |s|
  {
    (s[i] as int) + 256 * (s[i + 1] as int)
  }

  function U32At(s: seq<byte>, i: nat): nat
    requires i + 4 <= |s|
  {
    U16At(s, i) + TWO_16 * U16At(s, i + 2)
  }

  /** The first byte counts least. */
  lemma LowByteFirst(s: seq<byte>, i: nat)
    requires i + 4 <= |s|
    ensures U16At(s, i) == s[i] as int + 256 * (s[i + 1] as int)
    ensures U32At(s, i) == s[i] as int + 256 * (s[i + 1] as int) + 65536 * (s[i + 2] as int) + 16777216 * (s[i + 3] as int)
  {
  }

  function Low8(v: int): byte { v % 256 }

  /** The two bytes a 16-bit store writes: the value modulo 2^16, whatever its sign. */
  function Le16(v: int): (r: seq<byte>)
    ensures |r| == 2
  {
    [Low8(v), Low8(v / 256)]
  }

  /** The four bytes a 32-bit store writes: the value modulo 2^32. */
  function Le32(v: int): (r: seq<byte>)
    ensures |r| == 4
  {
    [Low8(v), Low8(v / 256), Low8(v / TWO_16), Low8(v / TWO_16 / 256)]
  }

  lemma Remainder(v: int, q: int, r: int, m: int)
    requires v == m * q + r && 0 <= r < m
    ensures v % m == r && v / m == q
  {
    var d := v / m - q;
    assert m * d == r - v % m;
    assert d > 0 ==> m * d >= m;
    assert d < 0 ==> m * d <= -m;
  }

  /** Reading back a 16-bit store gives the value modulo 2^16. */
  lemma Le16Inverts(v: int)
    ensures U16At(Le16(v), 0) == v % TWO_16
  {
    var a, b := v % 256, v / 256 % 256;
    assert v == 256 * (v / 256) + a && v / 256 == 256 * (v / 256 / 256) + b;
    Remainder(v, v / 256 / 256, a + 256 * b, TWO_16);
  }

  /** Reading back a 32-bit store gives the value modulo 2^32. */
  lemma Le32Inverts(v: int)
    ensures U32At(Le32(v), 0) == v % TWO_32
  {
    var high := v / TWO_16;
    Le16Inverts(v);
    Le16Inverts(high);
    var low, top := v % TWO_16, high % TWO_16;
    assert v == TWO_16 * high + low && high == TWO_16 * (high / TWO_16) + top;
    Remainder(v, high / TWO_16, low + TWO_16 * top, TWO_32);
  }

  lemma Le16Reads(v: nat)
    requires v < TWO_16
    ensures U16At(Le16(v), 0) == v
  {
    Le16Inverts(v);
    Remainder(v, 0, v, TWO_16);
  }

  lemma Le32Reads(v: nat)
    requires v < TWO_32
    ensures U32At(Le32(v), 0) == v
  {
    Le32Inverts(v);
    Remainder(v, 0, v, TWO_32);
  }

  /** A number is read where its bytes stand. */
  lemma ReadInside(before: seq<byte>, s: seq<byte>, rest: seq<byte>, i: nat)
    ensures i + 2 <= |s| ==> U16At(before + s + rest, |before| + i) == U16At(s, i)
    ensures i + 4 <= |s| ==> U32At(before + s + rest, |before| + i) == U32At(s, i)
  {
    var all := before + s + rest;
    assert forall k :: 0 <= k < |s| ==> all[|before| + k] == s[k];
  }

  /** A pair of bytes is the store of the number it reads as. */
  lemma Le16OfBytes(lo: byte, hi: byte)
    ensures Le16(lo as int + 256 * (hi as int)) == [lo, hi]
  {
    Remainder(lo as int + 256 * (hi as int), hi, lo, 256);
  }
}
