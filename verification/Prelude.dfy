/** Option and Result, and the few facts about sequences and maps that several components share. */
module Prelude {

  datatype Option<+T> = None | Some(value: T)

  datatype Result<+T, +E> = Ok(value: T) | Err(error: E)

  function Max(a: int, b: int): int { if a < b then b else a }

  function Min(a: int, b: int): int { if a < b then a else b }

  /** The elements of `s` outside `dropped`, in order. */
  function Without<T(==)>(s: seq<T>, dropped: set<T>): (r: seq<T>)
  {
    if s == [] then []
    else (if s[0] in dropped then [] else [s[0]]) + Without(s[1..], dropped)
  }

  lemma {:induction false} WithoutAppend<T>(s: seq<T>, t: seq<T>, dropped: set<T>)
    ensures Without(s + t, dropped) == Without(s, dropped) + Without(t, dropped)
  {
    if s == [] {
      assert s + t == t;
    } else {
      assert (s + t)[1..] == s[1..] + t;
      WithoutAppend(s[1..], t, dropped);
    }
  }

  lemma {:induction false} WithoutMore<T>(s: seq<T>, dropped: set<T>, x: T)
    ensures Without(s, dropped + {x}) == Without(Without(s, dropped), {x})
  {
    if s != [] {
      WithoutMore(s[1..], dropped, x);
      var head := if s[0] in dropped then [] else [s[0]];
      WithoutAppend(head, Without(s[1..], dropped), {x});
    }
  }

  lemma {:induction false} WithoutAbsent<T>(s: seq<T>, dropped: set<T>)
    requires forall i :: 0 <= i < |s| ==> s[i] !in dropped
    ensures Without(s, dropped) == s
  {
    if s != [] {
      WithoutAbsent(s[1..], dropped);
    }
  }

  lemma MapGrows<K, V>(m: map<K, V>, k: K, v: V)
    requires k !in m
    ensures |m[k := v]| == |m| + 1
  {
    assert m[k := v].Keys == m.Keys + {k};
    assert |m[k := v].Keys| == |m.Keys| + 1;
    assert |m[k := v]| == |m[k := v].Keys| && |m| == |m.Keys|;
  }

  lemma MapShrinks<K, V>(m: map<K, V>, k: K)
    requires k in m
    ensures |m - {k}| == |m| - 1
  {
    assert (m - {k}).Keys == m.Keys - {k};
    assert |(m - {k}).Keys| == |m.Keys| - 1;
    assert |m - {k}| == |(m - {k}).Keys| && |m| == |m.Keys|;
  }

  lemma SubsetSize<T>(a: set<T>, b: set<T>)
    requires a <= b
    ensures |a| <= |b|
    ensures |a| == |b| ==> a == b
  {
    assert b == a + (b - a);
  }

  lemma Regroup<T>(a: seq<T>, b: seq<T>, c: seq<T>)
    ensures (a + b) + c == a + (b + c)
  {
  }

  /** A number not yet used. */
  lemma {:induction false} NotIn(used: set<nat>, from: nat) returns (c: nat)
    ensures c !in used && from <= c
    decreases |used|
  {
    c := from;
    if from in used {
      c := NotIn(used - {from}, from + 1);
    }
  }

  // -------------------------------------------------------------------
  // Rearrangements
  // -------------------------------------------------------------------

  lemma TakeOut<T>(s: seq<T>, i: nat)
    requires i < |s|
    ensures multiset(s[..i] + s[i + 1..]) == multiset(s) - multiset{s[i]}
  {
    assert s == s[..i] + [s[i]] + s[i + 1..];
    assert multiset(s) == multiset(s[..i] + s[i + 1..]) + multiset{s[i]};
  }

  /** Two rearrangements stay so without the last element of the one and an equal one of the other. */
  lemma FindLast<T>(a: seq<T>, b: seq<T>) returns (i: nat)
    requires multiset(a) == multiset(b) && a != []
    ensures i < |b| && b[i] == a[|a| - 1]
    ensures multiset(a[..|a| - 1]) == multiset(b[..i] + b[i + 1..])
  {
    var n := |a| - 1;
    assert a[n] in multiset(a);
    assert a[n] in b;
    i :| 0 <= i < |b| && b[i] == a[n];
    TakeOut(a, n);
    TakeOut(b, i);
    assert a[..n] + a[n + 1..] == a[..n];
  }

  // -------------------------------------------------------------------
  // A stable sort by an integer key
  // -------------------------------------------------------------------

  function InsertBy<T>(x: T, s: seq<T>, key: T -> int): seq<T> {
    if s == [] || key(x) <= key(s[0]) then [x] + s else [s[0]] + InsertBy(x, s[1..], key)
  }

  function SortBy<T>(s: seq<T>, key: T -> int): seq<T> {
    if s == [] then [] else InsertBy(s[0], SortBy(s[1..], key), key)
  }

  ghost predicate Ascends<T>(s: seq<T>, key: T -> int) {
    forall i, j :: 0 <= i < j < |s| ==> key(s[i]) <= key(s[j])
  }

  lemma {:induction false} InsertByAdds<T>(x: T, s: seq<T>, key: T -> int)
    ensures multiset(InsertBy(x, s, key)) == multiset{x} + multiset(s)
  {
    if s != [] && key(x) > key(s[0]) {
      InsertByAdds(x, s[1..], key);
      assert s == [s[0]] + s[1..];
    }
  }

  lemma {:induction false} InsertByAscends<T>(x: T, s: seq<T>, key: T -> int)
    requires Ascends(s, key)
    ensures Ascends(InsertBy(x, s, key), key)
  {
    if s != [] && key(x) > key(s[0]) {
      InsertByAscends(x, s[1..], key);
      InsertByAdds(x, s[1..], key);
      forall y | y in InsertBy(x, s[1..], key) ensures key(s[0]) <= key(y) {
        assert y in multiset(InsertBy(x, s[1..], key));
        assert y == x || y in s[1..];
      }
    }
  }

  lemma {:induction false} SortByPermutes<T>(s: seq<T>, key: T -> int)
    ensures multiset(SortBy(s, key)) == multiset(s) && |SortBy(s, key)| == |s|
  {
    if s == [] {
      assert SortBy(s, key) == [];
    } else {
      SortByPermutes(s[1..], key);
      InsertByAdds(s[0], SortBy(s[1..], key), key);
      assert s == [s[0]] + s[1..];
    }
    assert |multiset(SortBy(s, key))| == |multiset(s)|;
  }

  lemma {:induction false} SortBySorts<T>(s: seq<T>, key: T -> int)
    ensures Ascends(SortBy(s, key), key) && multiset(SortBy(s, key)) == multiset(s) && |SortBy(s, key)| == |s|
  {
    SortByPermutes(s, key);
    if s == [] {
      assert SortBy(s, key) == [];
    } else {
      SortBySorts(s[1..], key);
      InsertByAscends(s[0], SortBy(s[1..], key), key);
    }
  }
}
