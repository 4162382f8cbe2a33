/** Base64url without padding (RFC 4648, section 5), as raw API keys are written. Shifts and masks are divisions and remainders. */
module Base64Url {
  import opened Prelude
  import opened LittleEndian

  const UPPER: string := "ABCDEFGHIJKLMNOPQRSTUVWXYZ"
  const LOWER: string := "abcdefghijklmnopqrstuvwxyz"
  const DIGITS: string := "0123456789"
  const ALPHABET: string := UPPER + LOWER + DIGITS + "-_"

  type sextet = v: nat | v < 64

  // -------------------------------------------------------------------
  // Letters
  // -------------------------------------------------------------------

  /** The value a letter stands for, if it is one. */
  function Value(c: char): Option<sextet> {
    var i := c as int;
    if 65 <= i < 91 then Some(i - 65)
    else if 97 <= i < 123 then Some(i - 71)
    else if 48 <= i < 58 then Some(i + 4)
    else if i == 45 then Some(62)
    else if i == 95 then Some(63)
    else None
  }

  lemma Ranges(i: nat)
    ensures |UPPER| == 26 && (i < 26 ==> UPPER[i] as int == 65 + i)
    ensures |LOWER| == 26 && (i < 26 ==> LOWER[i] as int == 97 + i)
    ensures |DIGITS| == 10 && (i < 10 ==> DIGITS[i] as int == 48 + i)
    ensures |ALPHABET| == 64
  {
  }

  function Letter(v: sextet): char {
    Ranges(0);
    ALPHABET[v]
  }

  /** The alphabet gives each value its own letter, and nothing else is a letter. */
  lemma LettersAreValues(v: sextet, c: char)
    ensures Value(Letter(v)) == Some(v)
    ensures Value(c).Some? ==> Letter(Value(c).value) == c
  {
    LetterCode(v);
    if Value(c).Some? {
      LetterCode(Value(c).value);
    }
  }

  lemma LetterCode(v: sextet)
    ensures Letter(v) as int == if v < 26 then 65 + v else if v < 52 then 71 + v else if v < 62 then v - 4 else if v == 62 then 45 else 95
  {
    Ranges(if v < 26 then v else if v < 52 then v - 26 else if v < 62 then v - 52 else 0);
  }

  /** Capitals, small letters and digits in their order, then the two signs that are safe in a URL. */
  lemma LettersInOrder(v: sextet)
    ensures v < 26 ==> Letter(v) as int == 'A' as int + v
    ensures 26 <= v < 52 ==> Letter(v) as int == 'a' as int + (v - 26)
    ensures 52 <= v < 62 ==> Letter(v) as int == '0' as int + (v - 52)
    ensures v == 62 ==> Letter(v) == '-'
    ensures v == 63 ==> Letter(v) == '_'
  {
    LetterCode(v);
  }

  function Letters(s: seq<sextet>): (r: string)
    ensures |r| == |s| && forall i :: 0 <= i < |r| ==> r[i] == Letter(s[i])
  {
    seq(|s|, i requires 0 <= i < |s| => Letter(s[i]))
  }

  /** The values of a text, if all its characters are letters. */
  function Values(text: string): Option<seq<sextet>> {
    if exists i :: 0 <= i < |text| && Value(text[i]).None? then None
    else Some(seq(|text|, i requires 0 <= i < |text| && Value(text[i]).Some? => Value(text[i]).value))
  }

  lemma ValuesInvertLetters(s: seq<sextet>)
    ensures Values(Letters(s)) == Some(s)
  {
    forall i | 0 <= i < |s| ensures Value(Letters(s)[i]) == Some(s[i]) {
      LettersAreValues(s[i], 'A');
    }
    assert Values(Letters(s)).Some?;
    assert Values(Letters(s)).value == s;
  }

  lemma LettersInvertValues(text: string)
    requires Values(text).Some?
    ensures Letters(Values(text).value) == text
  {
    forall i | 0 <= i < |text| ensures Letter(Values(text).value[i]) == text[i] {
      assert Value(text[i]).Some?;
      LettersAreValues(0, text[i]);
    }
  }

  // -------------------------------------------------------------------
  // Chunks of three bytes
  // -------------------------------------------------------------------

  /** The bits of a number from `2^low` up, six of them, as the shift and mask of the code take them. */
  function Six(t: nat, low: nat): sextet
    requires low > 0
  {
    t / low % 64
  }

  function TripleOf(a: byte, b: byte, c: byte): nat { (a as int) * 65536 + (b as int) * 256 + (c as int) }

  function At(data: seq<byte>, i: nat): byte { if i < |data| then data[i] else 0 }

  /** The sextets of the first chunk. */
  function Group(data: seq<byte>): (r: seq<sextet>)
    requires data != []
    ensures |r| == if |data| > 2 then 4 else |data| + 1
  {
    var t := TripleOf(data[0], At(data, 1), At(data, 2));
    if |data| == 1 then [Six(t, 262144), Six(t, 4096)]
    else if |data| == 2 then [Six(t, 262144), Six(t, 4096), Six(t, 64)]
    else [Six(t, 262144), Six(t, 4096), Six(t, 64), Six(t, 1)]
  }

  function Sextets(data: seq<byte>): seq<sextet> {
    if data == [] then [] else if |data| <= 3 then Group(data) else Group(data) + Sextets(data[3..])
  }

  function Encoded(data: seq<byte>): string { Letters(Sextets(data)) }

  /** The four sextets of three bytes, byte by byte. */
  lemma SextetsOfTriple(a: byte, b: byte, c: byte)
    ensures var t := TripleOf(a, b, c);
            && Six(t, 262144) == a as int / 4
            && Six(t, 4096) == a as int % 4 * 16 + b as int / 16
            && Six(t, 64) == b as int % 16 * 4 + c as int / 64
            && Six(t, 1) == c as int % 64
  {
    var x, y, z := a as int, b as int, c as int;
    var t := x * 65536 + y * 256 + z;
    var a1, a0 := x / 4, x % 4;
    var b1, b0 := y / 16, y % 16;
    var c1, c0 := z / 64, z % 64;
    Split(t, 262144, a1, a0 * 65536 + y * 256 + z);
    Split(t, 4096, a1 * 64 + (a0 * 16 + b1), b0 * 256 + z);
    Split(t, 64, (a1 * 64 + (a0 * 16 + b1)) * 64 + (b0 * 4 + c1), c0);
    Remainder(a1, 0, a1, 64);
    Remainder(a1 * 64 + (a0 * 16 + b1), a1, a0 * 16 + b1, 64);
    Remainder((a1 * 64 + (a0 * 16 + b1)) * 64 + (b0 * 4 + c1), a1 * 64 + (a0 * 16 + b1), b0 * 4 + c1, 64);
    Remainder(t, (a1 * 64 + (a0 * 16 + b1)) * 64 + (b0 * 4 + c1), c0, 64);
  }

  lemma Split(t: nat, m: nat, q: nat, r: nat)
    requires m > 0 && r < m && t == m * q + r
    ensures t / m == q
  {
    Remainder(t, q, r, m);
  }

  // -------------------------------------------------------------------
  // The loop as written
  // -------------------------------------------------------------------

  lemma NextChunk(rest: seq<byte>)
    requires rest != []
    ensures Encoded(rest) == Letters(Group(rest)) + Encoded(rest[Min(3, |rest|)..])
  {
    if |rest| > 3 {
      LettersAppend(Group(rest), Sextets(rest[3..]));
    } else {
      assert rest[Min(3, |rest|)..] == [];
    }
  }

  lemma Slices(data: seq<byte>, i: nat, n: nat)
    requires i + n <= |data|
    ensures data[i..i + n] == data[i..][..n] && data[i + n..] == data[i..][n..]
  {
  }

  /** A loop over chunks of three. */
  method Encode(data: seq<byte>) returns (out: string)
    ensures out == Encoded(data)
  {
    out := "";
    var i := 0;
    assert data[0..] == data;
    while i < |data|
      invariant 0 <= i <= |data|
      invariant Encoded(data) == out + Encoded(data[i..])
    {
      var n := Min(3, |data| - i);
      Slices(data, i, n);
      var piece := EncodeChunk(data[i..i + n], data[i..]);
      Regroup(out, piece, Encoded(data[i + n..]));
      out := out + piece;
      i := i + n;
    }
    assert Encoded([]) == [];
  }

  /** The body of the loop, for one chunk. */
  method EncodeChunk(chunk: seq<byte>, ghost rest: seq<byte>) returns (piece: string)
    requires rest != [] && chunk == rest[..Min(3, |rest|)]
    ensures Encoded(rest) == piece + Encoded(rest[Min(3, |rest|)..])
  {
    var b0 := chunk[0];
    var b1 := if |chunk| > 1 then chunk[1] else 0;
    var b2 := if |chunk| > 2 then chunk[2] else 0;
    var triple := TripleOf(b0, b1, b2);
    piece := [Letter(Six(triple, 262144)), Letter(Six(triple, 4096))];
    if |chunk| > 1 {
      piece := piece + [Letter(Six(triple, 64))];
    }
    if |chunk| > 2 {
      piece := piece + [Letter(Six(triple, 1))];
    }
    PieceIsGroup(rest, piece);
    NextChunk(rest);
  }

  lemma PieceIsGroup(rest: seq<byte>, piece: string)
    requires rest != []
    requires var t := TripleOf(rest[0], At(rest, 1), At(rest, 2));
             piece == [Letter(Six(t, 262144)), Letter(Six(t, 4096))]
                      + (if |rest| > 1 then [Letter(Six(t, 64))] else []) + (if |rest| > 2 then [Letter(Six(t, 1))] else [])
    ensures piece == Letters(Group(rest))
  {
  }

  lemma LettersAppend(s: seq<sextet>, t: seq<sextet>)
    ensures Letters(s + t) == Letters(s) + Letters(t)
  {
  }

  // -------------------------------------------------------------------
  // What the text says
  // -------------------------------------------------------------------

  /**
   The `k`-th six bits of the input, high bits first, zeros following its last byte: the high six of a
   chunk's first byte, its low two and the high four of the second, and so on.
   */
  function SixBits(data: seq<byte>, k: nat): sextet {
    var i := k / 4 * 3;
    match k % 4
    case 0 => At(data, i) / 4
    case 1 => At(data, i) % 4 * 16 + At(data, i + 1) / 16
    case 2 => At(data, i + 1) % 16 * 4 + At(data, i + 2) / 64
    case _ => At(data, i + 2) % 64
  }

  lemma GroupIsSixes(data: seq<byte>, k: nat)
    requires data != [] && k < |Group(data)|
    ensures Group(data)[k] == SixBits(data, k)
  {
    SextetsOfTriple(data[0], At(data, 1), At(data, 2));
  }

  lemma LaterSixes(data: seq<byte>, k: nat)
    requires |data| > 3 && k >= 4
    ensures SixBits(data, k) == SixBits(data[3..], k - 4)
  {
    Remainder(k, (k - 4) / 4 + 1, (k - 4) % 4, 4);
    var i := k / 4 * 3;
    assert At(data, i) == At(data[3..], i - 3) && At(data, i + 1) == At(data[3..], i - 2) && At(data, i + 2) == At(data[3..], i - 1);
  }

  lemma {:induction false} SextetsAreSixes(data: seq<byte>, k: nat)
    requires k < |Sextets(data)|
    ensures Sextets(data)[k] == SixBits(data, k)
  {
    if k < |Group(data)| {
      GroupIsSixes(data, k);
    } else {
      SextetsAreSixes(data[3..], k - 4);
      LaterSixes(data, k);
    }
  }

  lemma {:induction false} SextetCount(data: seq<byte>)
    ensures |Sextets(data)| == (4 * |data| + 2) / 3
  {
    if |data| > 3 {
      SextetCount(data[3..]);
    }
  }

  /**
   The encoding is the input's bits taken six at a time, each group as its letter, zeros filling up the
   last: ceil(4n/3) letters, all of the alphabet and none of them padding.
   */
  lemma EncodesBits(data: seq<byte>)
    ensures |Encoded(data)| == (4 * |data| + 2) / 3
    ensures forall k :: 0 <= k < |Encoded(data)| ==> Encoded(data)[k] == Letter(SixBits(data, k))
  {
    SextetCount(data);
    forall k | 0 <= k < |Encoded(data)| ensures Encoded(data)[k] == Letter(SixBits(data, k)) {
      SextetsAreSixes(data, k);
    }
  }

  // -------------------------------------------------------------------
  // Decoding
  // -------------------------------------------------------------------

  function First(v: sextet, w: sextet): byte { v * 4 + w / 16 }

  function Second(w: sextet, x: sextet): byte { w % 16 * 16 + x / 4 }

  function Third(x: sextet, y: sextet): byte { x % 4 * 64 + y }

  /** The bytes of sextets: nothing may be left in the bits past the last byte. */
  function Joined(s: seq<sextet>): Option<seq<byte>> {
    if s == [] then Some([])
    else if |s| == 1 then None
    else if |s| == 2 then (if s[1] % 16 != 0 then None else Some([First(s[0], s[1])]))
    else if |s| == 3 then (if s[2] % 4 != 0 then None else Some([First(s[0], s[1]), Second(s[1], s[2])]))
    else
      match Joined(s[4..])
      case None => None
      case Some(rest) => Some([First(s[0], s[1]), Second(s[1], s[2]), Third(s[2], s[3])] + rest)
  }

  /** A strict decoder: no padding and no other characters. */
  function Decoded(text: string): Option<seq<byte>> {
    match Values(text)
    case None => None
    case Some(s) => Joined(s)
  }

  /** Three bytes to four sextets and back. */
  lemma BytesBack(a: byte, b: byte, c: byte)
    ensures var t := TripleOf(a, b, c);
            && First(Six(t, 262144), Six(t, 4096)) == a && Second(Six(t, 4096), Six(t, 64)) == b && Third(Six(t, 64), Six(t, 1)) == c
            && (b == 0 ==> Six(t, 4096) % 16 == 0) && (c == 0 ==> Six(t, 64) % 4 == 0)
  {
    SextetsOfTriple(a, b, c);
    var x, y, z := a as int, b as int, c as int;
    Remainder(x % 4 * 16 + y / 16, x % 4, y / 16, 16);
    Remainder(y % 16 * 4 + z / 64, y % 16, z / 64, 4);
  }

  /** Four sextets to three bytes and back. */
  lemma SextetsBack(v: sextet, w: sextet, x: sextet, y: sextet)
    ensures var t := TripleOf(First(v, w), Second(w, x), Third(x, y));
            Six(t, 262144) == v && Six(t, 4096) == w && Six(t, 64) == x && Six(t, 1) == y
  {
    var a, b, c := First(v, w), Second(w, x), Third(x, y);
    SextetsOfTriple(a, b, c);
    Remainder(v * 4 + w / 16, v, w / 16, 4);
    Remainder(w % 16 * 16 + x / 4, w % 16, x / 4, 16);
    Remainder(x % 4 * 64 + y, x % 4, y, 64);
  }

  lemma JoinedGroup(data: seq<byte>, rest: seq<sextet>, bytes: seq<byte>)
    requires |data| >= 3 && Joined(rest) == Some(bytes)
    ensures Joined(Group(data) + rest) == Some([data[0], data[1], data[2]] + bytes)
  {
    BytesBack(data[0], data[1], data[2]);
    assert (Group(data) + rest)[4..] == rest;
  }

  lemma JoinOfTwo(p: sextet, q: sextet)
    requires q % 16 == 0
    ensures Joined([p, q]) == Some([First(p, q)])
  {
  }

  lemma JoinOfThree(p: sextet, q: sextet, r: sextet)
    requires r % 4 == 0
    ensures Joined([p, q, r]) == Some([First(p, q), Second(q, r)])
  {
  }

  lemma JoinedShort(data: seq<byte>)
    requires data != [] && |data| < 3
    ensures Joined(Group(data)) == Some(data)
  {
    var a, b := data[0], At(data, 1);
    var t := TripleOf(a, b, 0);
    BytesBack(a, b, 0);
    if |data| == 1 {
      JoinOfTwo(Six(t, 262144), Six(t, 4096));
      assert data == [a];
    } else {
      JoinOfThree(Six(t, 262144), Six(t, 4096), Six(t, 64));
      assert data == [a, b];
    }
  }

  lemma {:induction false} JoinInvertsSplit(data: seq<byte>)
    ensures Joined(Sextets(data)) == Some(data)
  {
    if |data| >= 3 {
      var rest := if |data| == 3 then [] else Sextets(data[3..]);
      if |data| > 3 {
        JoinInvertsSplit(data[3..]);
      }
      JoinedGroup(data, rest, data[3..]);
      assert Sextets(data) == Group(data) + rest;
      assert data == [data[0], data[1], data[2]] + data[3..];
    } else if data != [] {
      JoinedShort(data);
    }
  }

  lemma {:induction false} SplitInvertsJoin(s: seq<sextet>)
    requires Joined(s).Some?
    ensures Sextets(Joined(s).value) == s
    decreases |s|
  {
    if |s| == 2 {
      SextetsBack(s[0], s[1], 0, 0);
    } else if |s| == 3 {
      SextetsBack(s[0], s[1], s[2], 0);
    } else if |s| >= 4 {
      var data := Joined(s).value;
      var rest := Joined(s[4..]).value;
      SplitInvertsJoin(s[4..]);
      SextetsBack(s[0], s[1], s[2], s[3]);
      assert data[3..] == rest;
      assert s == s[..4] + s[4..];
      if rest == [] {
        assert s[4..] == [];
      }
    }
  }

  /** Decoding inverts encoding, for every byte string. */
  lemma DecodeInvertsEncode(data: seq<byte>)
    ensures Decoded(Encoded(data)) == Some(data)
  {
    ValuesInvertLetters(Sextets(data));
    JoinInvertsSplit(data);
  }

  /** Encoding inverts decoding: a text the decoder accepts is the encoding of what it decodes to. */
  lemma EncodeInvertsDecode(text: string)
    requires Decoded(text).Some?
    ensures Encoded(Decoded(text).value) == text
  {
    SplitInvertsJoin(Values(text).value);
    LettersInvertValues(text);
  }
}
