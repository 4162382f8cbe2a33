/**
 The character diff between a reference transcript and one output: a longest-common-subsequence
 table in one flat array, then a walk back into runs. A `char` is one code point.
 */
module TranscriptDiff {
  import opened Prelude

  const MAX_DIFF_CHARS: nat := 400

  newtype uint16 = n: int | 0 <= n < 0x1_0000

  datatype Kind = Same | Added | Removed

  datatype Part = Part(text: string, kind: Kind)

  // -------------------------------------------------------------------
  // What a diff says
  // -------------------------------------------------------------------

  /** The text of every part that is not of kind `hidden`, in order. */
  function Spell(parts: seq<Part>, hidden: Kind): string {
    if parts == [] then ""
    else Spell(parts[..|parts| - 1], hidden) + (if parts[|parts| - 1].kind == hidden then "" else parts[|parts| - 1].text)
  }

  function SameText(parts: seq<Part>): string {
    if parts == [] then ""
    else SameText(parts[..|parts| - 1]) + (if parts[|parts| - 1].kind == Same then parts[|parts| - 1].text else "")
  }

  /** The parts spell both transcripts, none is empty, and neighbours differ in kind. */
  ghost predicate Explains(parts: seq<Part>, reference: string, output: string) {
    && Spell(parts, Added) == reference
    && Spell(parts, Removed) == output
    && Tidy(parts)
  }

  ghost predicate Tidy(parts: seq<Part>) {
    && (forall k :: 0 <= k < |parts| ==> parts[k].text != "")
    && (forall k :: 0 < k < |parts| ==> parts[k - 1].kind != parts[k].kind)
  }

  /** `c` is what is left of `a` after deleting some of its characters. */
  ghost predicate Subsequence(c: string, a: string) {
    c == "" || (a != "" && ((c[0] == a[0] && Subsequence(c[1..], a[1..])) || Subsequence(c, a[1..])))
  }

  function Lcs(a: string, b: string): (n: nat)
    ensures n <= |a| && n <= |b|
    decreases |a| + |b|
  {
    if a == "" || b == "" then 0
    else if a[0] == b[0] then 1 + Lcs(a[1..], b[1..])
    else Max(Lcs(a[1..], b), Lcs(a, b[1..]))
  }

  // -------------------------------------------------------------------
  // Optimality
  // -------------------------------------------------------------------

  lemma {:induction false} SubsequenceTail(c: string, a: string)
    requires c != "" && Subsequence(c, a)
    ensures a != "" && Subsequence(c[1..], a[1..])
    decreases |a|
  {
    if !(c[0] == a[0] && Subsequence(c[1..], a[1..])) {
      SubsequenceTail(c, a[1..]);
      SubsequenceWiden(c[1..], a[1..]);
    }
  }

  lemma {:induction false} SubsequenceWiden(c: string, a: string)
    requires a != "" && Subsequence(c, a[1..])
    ensures Subsequence(c, a)
  {
  }

  /** No common subsequence is longer than `Lcs` says. */
  lemma {:induction false} LcsIsUpperBound(c: string, a: string, b: string)
    requires Subsequence(c, a) && Subsequence(c, b)
    ensures |c| <= Lcs(a, b)
    decreases |a| + |b|
  {
    if c != "" {
      if a[0] == b[0] {
        SubsequenceTail(c, a);
        SubsequenceTail(c, b);
        LcsIsUpperBound(c[1..], a[1..], b[1..]);
      } else if c[0] != a[0] {
        LcsIsUpperBound(c, a[1..], b);
      } else {
        LcsIsUpperBound(c, a, b[1..]);
      }
    }
  }

  lemma {:induction false} SubsequenceJoin(c: string, a: string, d: string, b: string)
    requires Subsequence(c, a) && Subsequence(d, b)
    ensures Subsequence(c + d, a + b)
    decreases |a|
  {
    if a == "" {
      assert c + d == d && a + b == b;
    } else if c != "" && c[0] == a[0] && Subsequence(c[1..], a[1..]) {
      SubsequenceJoin(c[1..], a[1..], d, b);
      assert (c + d)[1..] == c[1..] + d && (a + b)[1..] == a[1..] + b;
    } else {
      SubsequenceJoin(c, a[1..], d, b);
      assert (a + b)[1..] == a[1..] + b;
      SubsequenceWiden(c + d, a + b);
    }
  }

  lemma {:induction false} SubsequenceSelf(a: string)
    ensures Subsequence(a, a)
  {
    if a != "" {
      SubsequenceSelf(a[1..]);
    }
  }

  lemma {:induction false} SameIsCommon(parts: seq<Part>, hidden: Kind)
    requires hidden != Same
    ensures Subsequence(SameText(parts), Spell(parts, hidden))
  {
    if parts != [] {
      var init, last := parts[..|parts| - 1], parts[|parts| - 1];
      SameIsCommon(init, hidden);
      SubsequenceSelf(last.text);
      SubsequenceJoin(SameText(init), Spell(init, hidden),
                      if last.kind == Same then last.text else "", if last.kind == hidden then "" else last.text);
    }
  }

  /** A diff whose `same` text is as long as the table's first cell says marks a longest common subsequence: no other way to explain the pair keeps more characters. */
  lemma LongestIsOptimal(parts: seq<Part>, other: seq<Part>, c: string, reference: string, output: string)
    requires Explains(parts, reference, output) && |SameText(parts)| == Lcs(reference, output)
    ensures Subsequence(SameText(parts), reference) && Subsequence(SameText(parts), output)
    ensures Subsequence(c, reference) && Subsequence(c, output) ==> |c| <= |SameText(parts)|
    ensures Explains(other, reference, output) ==> |SameText(other)| <= |SameText(parts)|
  {
    SameIsCommon(parts, Added);
    SameIsCommon(parts, Removed);
    if Subsequence(c, reference) && Subsequence(c, output) {
      LcsIsUpperBound(c, reference, output);
    }
    if Explains(other, reference, output) {
      SameIsCommon(other, Added);
      SameIsCommon(other, Removed);
      LcsIsUpperBound(SameText(other), reference, output);
    }
  }

  // -------------------------------------------------------------------
  // The parts under construction
  // -------------------------------------------------------------------

  /** One more character of a kind: it joins the last part if that has the kind, or starts a new one. */
  function Push(parts: seq<Part>, c: char, kind: Kind): seq<Part> {
    if parts != [] && parts[|parts| - 1].kind == kind then
      parts[..|parts| - 1] + [Part(parts[|parts| - 1].text + [c], kind)]
    else parts + [Part([c], kind)]
  }

  lemma PushSpells(parts: seq<Part>, c: char, kind: Kind, hidden: Kind)
    ensures Spell(Push(parts, c, kind), hidden) == Spell(parts, hidden) + if kind == hidden then "" else [c]
    ensures SameText(Push(parts, c, kind)) == SameText(parts) + if kind == Same then [c] else ""
  {
    var pushed := Push(parts, c, kind);
    if parts != [] && parts[|parts| - 1].kind == kind {
      assert pushed[..|pushed| - 1] == parts[..|parts| - 1];
    } else {
      assert pushed[..|pushed| - 1] == parts;
    }
  }

  lemma PushKeepsTidy(parts: seq<Part>, c: char, kind: Kind)
    requires Tidy(parts)
    ensures Tidy(Push(parts, c, kind))
  {
  }

  lemma PushExplains(parts: seq<Part>, reference: string, output: string, c: char, kind: Kind)
    requires Explains(parts, reference, output)
    ensures Explains(Push(parts, c, kind), reference + (if kind == Added then "" else [c]), output + (if kind == Removed then "" else [c]))
    ensures |SameText(Push(parts, c, kind))| == |SameText(parts)| + if kind == Same then 1 else 0
  {
    PushSpells(parts, c, kind, Added);
    PushSpells(parts, c, kind, Removed);
    PushKeepsTidy(parts, c, kind);
  }

  // -------------------------------------------------------------------
  // The flat table
  // -------------------------------------------------------------------

  function At(i: nat, j: nat, width: nat): nat { i * width + j }

  lemma AtInRange(i: nat, j: nat, rows: nat, width: nat)
    requires i < rows && j < width
    ensures At(i, j, width) < rows * width
  {
    assert i * width + width == (i + 1) * width <= rows * width;
  }

  lemma AtOrdered(i: nat, j: nat, k: nat, l: nat, width: nat)
    requires i < k && j < width
    ensures At(i, j, width) < At(k, l, width)
  {
    assert k * width >= (i + 1) * width == i * width + width;
  }

  lemma AtDistinct(i: nat, j: nat, k: nat, l: nat, width: nat)
    requires j < width && l < width && (i != k || j != l)
    ensures At(i, j, width) != At(k, l, width)
  {
    if i < k {
      AtOrdered(i, j, k, l, width);
    } else if k < i {
      AtOrdered(k, l, i, j, width);
    }
  }

  /** The cell for `a[i..]` and `b[j..]` holds its answer. */
  ghost predicate Filled(table: seq<uint16>, a: string, b: string, i: nat, j: nat)
    requires i <= |a| && j <= |b|
  {
    var at := At(i, j, |b| + 1);
    at < |table| && table[at] as int == Lcs(a[i..], b[j..])
  }

  /** Rows below `i` are filled, and row `i` from column `j` on. */
  ghost predicate FilledFrom(table: seq<uint16>, a: string, b: string, i: nat, j: nat) {
    && |table| == (|a| + 1) * (|b| + 1)
    && (forall k, l :: 0 <= k <= |a| && 0 <= l <= |b| && (k > i || (k == i && l >= j) || l == |b|) ==> Filled(table, a, b, k, l))
  }

  lemma FillCell(table: seq<uint16>, a: string, b: string, i: nat, j: nat, value: uint16)
    requires i < |a| && j < |b| && FilledFrom(table, a, b, i, j + 1) && value as int == Lcs(a[i..], b[j..])
    requires At(i, j, |b| + 1) < |table|
    ensures FilledFrom(table[At(i, j, |b| + 1) := value], a, b, i, j)
  {
    var next := table[At(i, j, |b| + 1) := value];
    forall k, l | 0 <= k <= |a| && 0 <= l <= |b| && (k > i || (k == i && l >= j) || l == |b|)
      ensures Filled(next, a, b, k, l)
    {
      if k != i || l != j {
        assert Filled(table, a, b, k, l);
        AtDistinct(i, j, k, l, |b| + 1);
      }
    }
  }

  lemma BlankTable(table: seq<uint16>, a: string, b: string)
    requires |table| == (|a| + 1) * (|b| + 1) && forall k :: 0 <= k < |table| ==> table[k] == 0
    ensures FilledFrom(table, a, b, |a|, 0)
  {
    forall k, l | 0 <= k <= |a| && 0 <= l <= |b| && (k >= |a| || l == |b|)
      ensures Filled(table, a, b, k, l)
    {
      AtInRange(k, l, |a| + 1, |b| + 1);
    }
  }

  /** What the recurrence reads and writes at one cell. */
  lemma CellRecurrence(a: string, b: string, i: nat, j: nat)
    requires i < |a| && j < |b|
    ensures Lcs(a[i..], b[j..]) ==
            if a[i] == b[j] then Lcs(a[i + 1..], b[j + 1..]) + 1 else Max(Lcs(a[i + 1..], b[j..]), Lcs(a[i..], b[j + 1..]))
  {
    assert a[i..][1..] == a[i + 1..] && b[j..][1..] == b[j + 1..];
  }

  method FillTable(a: string, b: string) returns (lcs: array<uint16>)
    requires |a| <= MAX_DIFF_CHARS && |b| <= MAX_DIFF_CHARS
    ensures fresh(lcs) && FilledFrom(lcs[..], a, b, 0, 0)
  {
    var width := |b| + 1;
    lcs := new uint16[(|a| + 1) * width](_ => 0);
    BlankTable(lcs[..], a, b);
    var i := |a|;
    while i > 0
      invariant 0 <= i <= |a|
      invariant FilledFrom(lcs[..], a, b, i, 0)
    {
      i := i - 1;
      var j := |b|;
      while j > 0
        invariant 0 <= j <= |b|
        invariant FilledFrom(lcs[..], a, b, i, j)
      {
        j := j - 1;
        assert Filled(lcs[..], a, b, i + 1, j + 1) && Filled(lcs[..], a, b, i + 1, j) && Filled(lcs[..], a, b, i, j + 1);
        CellRecurrence(a, b, i, j);
        AtInRange(i, j, |a| + 1, width);
        var diagonal, below, right := lcs[At(i + 1, j + 1, width)], lcs[At(i + 1, j, width)], lcs[At(i, j + 1, width)];
        var value := if a[i] == b[j] then diagonal + 1 else if below < right then right else below;
        FillCell(lcs[..], a, b, i, j, value);
        lcs[At(i, j, width)] := value;
      }
    }
  }

  /** The parts explain `a[..i]` and `b[..j]`, and can still be completed to keep as much as the whole pair allows. */
  ghost predicate Walked(parts: seq<Part>, a: string, b: string, i: nat, j: nat) {
    && i <= |a| && j <= |b|
    && Explains(parts, a[..i], b[..j])
    && |SameText(parts)| + Lcs(a[i..], b[j..]) == Lcs(a, b)
  }

  lemma KeepBoth(parts: seq<Part>, a: string, b: string, i: nat, j: nat)
    requires Walked(parts, a, b, i, j) && i < |a| && j < |b| && a[i] == b[j]
    ensures Walked(Push(parts, b[j], Same), a, b, i + 1, j + 1)
  {
    CellRecurrence(a, b, i, j);
    PushExplains(parts, a[..i], b[..j], b[j], Same);
    assert a[..i + 1] == a[..i] + [a[i]] && b[..j + 1] == b[..j] + [b[j]];
  }

  lemma DropReference(parts: seq<Part>, a: string, b: string, i: nat, j: nat)
    requires Walked(parts, a, b, i, j) && i < |a| && Lcs(a[i + 1..], b[j..]) == Lcs(a[i..], b[j..])
    ensures Walked(Push(parts, a[i], Removed), a, b, i + 1, j)
  {
    PushExplains(parts, a[..i], b[..j], a[i], Removed);
    assert a[..i + 1] == a[..i] + [a[i]] && b[..j] == b[..j] + "";
  }

  lemma TakeOutput(parts: seq<Part>, a: string, b: string, i: nat, j: nat)
    requires Walked(parts, a, b, i, j) && j < |b| && Lcs(a[i..], b[j + 1..]) == Lcs(a[i..], b[j..])
    ensures Walked(Push(parts, b[j], Added), a, b, i, j + 1)
  {
    PushExplains(parts, a[..i], b[..j], b[j], Added);
    assert b[..j + 1] == b[..j] + [b[j]] && a[..i] == a[..i] + "";
  }

  lemma WalkEnds(parts: seq<Part>, a: string, b: string)
    ensures Walked([], a, b, 0, 0)
    ensures Walked(parts, a, b, |a|, |b|) ==> Explains(parts, a, b) && |SameText(parts)| == Lcs(a, b)
  {
    assert a[..0] == "" && b[..0] == "" && a[0..] == a && b[0..] == b;
    assert a[..|a|] == a && b[..|b|] == b;
  }

  /** Where the characters differ, the table says which side to advance. */
  lemma Advance(table: seq<uint16>, a: string, b: string, i: nat, j: nat)
    requires FilledFrom(table, a, b, 0, 0) && i < |a| && j < |b| && a[i] != b[j]
    ensures At(i + 1, j, |b| + 1) < |table| && At(i, j + 1, |b| + 1) < |table|
    ensures table[At(i + 1, j, |b| + 1)] >= table[At(i, j + 1, |b| + 1)] ==> Lcs(a[i + 1..], b[j..]) == Lcs(a[i..], b[j..])
    ensures table[At(i + 1, j, |b| + 1)] < table[At(i, j + 1, |b| + 1)] ==> Lcs(a[i..], b[j + 1..]) == Lcs(a[i..], b[j..])
  {
    CellRecurrence(a, b, i, j);
    assert Filled(table, a, b, i + 1, j) && Filled(table, a, b, i, j + 1);
  }

  /** Follow the table until one side runs out. */
  method WalkBack(a: string, b: string, lcs: array<uint16>) returns (parts: seq<Part>, i: nat, j: nat)
    requires FilledFrom(lcs[..], a, b, 0, 0)
    ensures Walked(parts, a, b, i, j) && (i == |a| || j == |b|)
  {
    parts, i, j := [], 0, 0;
    WalkEnds(parts, a, b);
    while i < |a| && j < |b|
      invariant Walked(parts, a, b, i, j)
      decreases |a| - i + |b| - j
    {
      if a[i] == b[j] {
        KeepBoth(parts, a, b, i, j);
        parts := Push(parts, b[j], Same);
        i := i + 1;
        j := j + 1;
      } else {
        Advance(lcs[..], a, b, i, j);
        if lcs[At(i + 1, j, |b| + 1)] >= lcs[At(i, j + 1, |b| + 1)] {
          DropReference(parts, a, b, i, j);
          parts := Push(parts, a[i], Removed);
          i := i + 1;
        } else {
          TakeOutput(parts, a, b, i, j);
          parts := Push(parts, b[j], Added);
          j := j + 1;
        }
      }
    }
  }

  /** Whatever is left of either side is a difference. */
  method FlushRest(a: string, b: string, walked: seq<Part>, from: nat, to: nat) returns (parts: seq<Part>)
    requires Walked(walked, a, b, from, to) && (from == |a| || to == |b|)
    ensures Walked(parts, a, b, |a|, |b|)
  {
    parts := walked;
    var i, j := from, to;
    while i < |a|
      invariant Walked(parts, a, b, i, j) && (i == |a| || j == |b|)
    {
      DropReference(parts, a, b, i, j);
      parts := Push(parts, a[i], Removed);
      i := i + 1;
    }
    while j < |b|
      invariant Walked(parts, a, b, i, j) && i == |a|
    {
      TakeOutput(parts, a, b, i, j);
      parts := Push(parts, b[j], Added);
      j := j + 1;
    }
  }

  method DiffCharacters(reference: string, output: string) returns (parts: seq<Part>)
    ensures |reference| <= 400 && |output| <= 400 ==>
              Explains(parts, reference, output) && |SameText(parts)| == Lcs(reference, output)
    ensures |reference| > 400 || |output| > 400 ==> parts == [Part(output, Same)]
  {
    if |reference| > MAX_DIFF_CHARS || |output| > MAX_DIFF_CHARS {
      return [Part(output, Same)];
    }
    var lcs := FillTable(reference, output);
    var walked, i, j := WalkBack(reference, output, lcs);
    parts := FlushRest(reference, output, walked, i, j);
    WalkEnds(parts, reference, output);
  }

  /** Past the length limit the result explains the pair exactly when there was nothing to mark. */
  lemma OverLimitExplains(reference: string, output: string)
    requires |reference| > 400 || |output| > 400
    ensures Explains([Part(output, Same)], reference, output) <==> reference == output
  {
    var parts := [Part(output, Same)];
    assert parts[..0] == [] && |parts| == 1;
    assert forall hidden :: hidden != Same ==> Spell(parts, hidden) == "" + output == output;
  }
}
