/** Which retention candidates a policy drops: oldest first, by count, by total size or by age. */
module Retention {
  import opened Prelude

  /** A history record's id. */
  datatype RecordId = RecordId(text: string)

  datatype Policy = Days(days: nat) | Count(max: nat) | DiskLimitMb(limit: nat) | Unlimited

  /** `createdAt` is the position of the timestamp's text in string order; `instant` its value in seconds, if it parses. */
  datatype Candidate = Candidate(id: RecordId, createdAt: int, instant: Option<int>, size: Option<nat>)

  const U64_MAX: nat := 0xFFFF_FFFF_FFFF_FFFF

  /** `limit_mb.saturating_mul(1024 * 1024)`. */
  function LimitBytes(limitMb: nat): nat { Min(limitMb * 1024 * 1024, U64_MAX) }

  // -------------------------------------------------------------------
  // Oldest first
  // -------------------------------------------------------------------

  function CreatedAt(c: Candidate): int { c.createdAt }

  function ByAge(s: seq<Candidate>): seq<Candidate> { SortBy(s, CreatedAt) }

  ghost predicate Aged(s: seq<Candidate>) {
    forall i, j :: 0 <= i < j < |s| ==> s[i].createdAt <= s[j].createdAt
  }

  lemma ByAgeSorts(s: seq<Candidate>)
    ensures Aged(ByAge(s)) && multiset(ByAge(s)) == multiset(s) && |ByAge(s)| == |s|
  {
    SortBySorts(s, CreatedAt);
    assert forall i :: 0 <= i < |s| ==> CreatedAt(ByAge(s)[i]) == ByAge(s)[i].createdAt;
  }

  // -------------------------------------------------------------------
  // The selectors
  // -------------------------------------------------------------------

  function Ids(s: seq<Candidate>): (r: seq<RecordId>)
    ensures |r| == |s| && forall i :: 0 <= i < |r| ==> r[i] == s[i].id
  {
    seq(|s|, i requires 0 <= i < |s| => s[i].id)
  }

  function Sized(s: seq<Candidate>): (r: seq<Candidate>)
    ensures forall c :: c in r <==> c in s && c.size.Some?
  {
    if s == [] then [] else (if s[0].size.Some? then [s[0]] else []) + Sized(s[1..])
  }

  function TotalSize(s: seq<Candidate>): nat {
    if s == [] then 0 else (if s[0].size.Some? then s[0].size.value else 0) + TotalSize(s[1..])
  }

  const SECONDS_PER_DAY: nat := 86400

  function OlderThan(s: seq<Candidate>, cutoff: int): seq<Candidate> {
    if s == [] then []
    else (if s[0].instant.Some? && s[0].instant.value < cutoff then [s[0]] else []) + OlderThan(s[1..], cutoff)
  }

  /** How many of the oldest candidates must go until what is left is within `limit`. */
  function Excess(aged: seq<Candidate>, limit: nat): (k: nat)
    ensures k <= |aged|
  {
    if TotalSize(aged) <= limit || aged == [] then 0 else 1 + Excess(aged[1..], limit)
  }

  /** The candidates a policy drops at the time `now`. */
  function Selected(s: seq<Candidate>, policy: Policy, now: int): seq<Candidate> {
    match policy
    case Unlimited => []
    case Days(days) => if days == 0 then [] else OlderThan(s, now - days * SECONDS_PER_DAY)
    case Count(max) => if |s| <= max then [] else (ByAgeSorts(s); ByAge(s)[..|s| - max])
    case DiskLimitMb(limit) => ByAge(Sized(s))[..Excess(ByAge(Sized(s)), LimitBytes(limit))]
  }

  lemma {:induction false} TotalSizeSplit(s: seq<Candidate>, k: nat)
    requires k <= |s|
    ensures TotalSize(s) == TotalSize(s[..k]) + TotalSize(s[k..])
  {
    if k > 0 {
      TotalSizeSplit(s[1..], k - 1);
      assert s[..k][1..] == s[1..][..k - 1] && s[k..] == s[1..][k - 1..];
    } else {
      assert s[..0] == [] && s[0..] == s;
    }
  }

  /** The shortest oldest-first prefix: what is left fits, and one fewer dropped would not have fitted. */
  lemma {:induction false} ExcessIsShortest(aged: seq<Candidate>, limit: nat)
    ensures var k := Excess(aged, limit);
            && TotalSize(aged[k..]) <= limit
            && (forall j :: 0 <= j < k ==> TotalSize(aged[j..]) > limit)
  {
    var k := Excess(aged, limit);
    if k == 0 {
      assert aged[0..] == aged;
    } else {
      ExcessIsShortest(aged[1..], limit);
      assert aged[k..] == aged[1..][k - 1..];
      forall j | 0 <= j < k ensures TotalSize(aged[j..]) > limit {
        if j == 0 {
          assert aged[0..] == aged;
        } else {
          assert aged[j..] == aged[1..][j - 1..];
        }
      }
    }
  }

  lemma {:induction false} OlderThanExact(s: seq<Candidate>, cutoff: int, c: Candidate)
    ensures c in OlderThan(s, cutoff) <==> c in s && c.instant.Some? && c.instant.value < cutoff
  {
    if s != [] {
      OlderThanExact(s[1..], cutoff, c);
    }
  }

  /** Age retention drops exactly the candidates whose timestamp parses and lies before the cutoff; zero days drops nothing. */
  lemma DaysExact(s: seq<Candidate>, days: nat, now: int, c: Candidate)
    ensures c in Selected(s, Days(days), now) <==>
            days > 0 && c in s && c.instant.Some? && c.instant.value < now - days * 86400
  {
    if days > 0 {
      OlderThanExact(s, now - days * SECONDS_PER_DAY, c);
    }
  }

  // -------------------------------------------------------------------
  // Selecting again selects nothing
  // -------------------------------------------------------------------

  function IdSet(s: seq<Candidate>): set<RecordId> {
    set c | c in s :: c.id
  }

  ghost predicate DistinctIds(s: seq<Candidate>) {
    forall i, j :: 0 <= i < j < |s| ==> s[i].id != s[j].id
  }

  lemma DistinctTail(s: seq<Candidate>)
    requires s != []
    ensures IdSet(s) == {s[0].id} + IdSet(s[1..])
    ensures DistinctIds(s) <==> DistinctIds(s[1..]) && s[0].id !in IdSet(s[1..])
  {
    var rest := s[1..];
    assert forall j :: 0 <= j < |rest| ==> rest[j] == s[j + 1];
    assert forall j :: 0 < j < |s| ==> s[j] == rest[j - 1] && s[j] in rest;
  }

  /** The ids of `s` are distinct exactly when there are as many of them as candidates. */
  lemma {:induction false} DistinctSize(s: seq<Candidate>)
    ensures |IdSet(s)| <= |s|
    ensures DistinctIds(s) <==> |IdSet(s)| == |s|
  {
    if s != [] {
      DistinctSize(s[1..]);
      DistinctTail(s);
      if s[0].id in IdSet(s[1..]) {
        assert IdSet(s) == IdSet(s[1..]);
      }
    }
  }

  /** A rearrangement has the same ids, as distinct as before. */
  lemma SameIds(s: seq<Candidate>, t: seq<Candidate>)
    requires multiset(s) == multiset(t)
    ensures IdSet(s) == IdSet(t)
    ensures DistinctIds(s) ==> DistinctIds(t)
  {
    assert |s| == |multiset(s)| == |multiset(t)| == |t|;
    assert forall c :: c in s <==> c in multiset(s);
    assert forall c :: c in t <==> c in multiset(t);
    assert IdSet(s) == IdSet(t);
    DistinctSize(s);
    DistinctSize(t);
  }

  lemma TotalSizeWithout(t: seq<Candidate>, i: nat)
    requires i < |t|
    ensures TotalSize(t) == TotalSize(t[..i] + t[i + 1..]) + TotalSize([t[i]])
  {
    var rest := t[..i] + t[i + 1..];
    TotalSizeSplit(rest, i);
    assert rest[..i] == t[..i] && rest[i..] == t[i + 1..];
    TotalSizeSplit(t, i);
    assert t[i..][1..] == t[i + 1..];
  }

  lemma {:induction false} TotalSizePermutes(s: seq<Candidate>, t: seq<Candidate>)
    requires multiset(s) == multiset(t)
    ensures TotalSize(s) == TotalSize(t)
    decreases |s|
  {
    assert |s| == |multiset(s)| == |multiset(t)| == |t|;
    if s != [] {
      var n := |s| - 1;
      var i := FindLast(s, t);
      TotalSizePermutes(s[..n], t[..i] + t[i + 1..]);
      TotalSizeWithout(s, n);
      assert s[..n] + s[n + 1..] == s[..n];
      TotalSizeWithout(t, i);
    }
  }

  /** Distinct candidates, in whatever order, are determined by which they are. */
  lemma SameMultiset(s: seq<Candidate>, t: seq<Candidate>)
    requires DistinctIds(s) && DistinctIds(t) && forall c :: c in s <==> c in t
    ensures multiset(s) == multiset(t)
  {
    forall c ensures multiset(s)[c] == multiset(t)[c] {
      AtMostOnce(s, c);
      AtMostOnce(t, c);
      assert c in multiset(s) <==> c in s;
      assert c in multiset(t) <==> c in t;
    }
  }

  lemma {:induction false} AtMostOnce(s: seq<Candidate>, c: Candidate)
    requires DistinctIds(s)
    ensures multiset(s)[c] <= 1
  {
    if s != [] {
      assert forall j :: 0 <= j < |s[1..]| ==> s[1..][j] == s[j + 1];
      AtMostOnce(s[1..], c);
      assert s == [s[0]] + s[1..];
      assert c == s[0] ==> c !in s[1..];
      assert c !in s[1..] ==> c !in multiset(s[1..]);
    }
  }

  lemma {:induction false} SizedKeepsDistinct(s: seq<Candidate>)
    requires DistinctIds(s)
    ensures DistinctIds(Sized(s))
  {
    if s != [] {
      assert forall j :: 0 <= j < |s[1..]| ==> s[1..][j] == s[j + 1];
      SizedKeepsDistinct(s[1..]);
      var rest := Sized(s[1..]);
      forall j | 0 <= j < |rest| ensures rest[j].id != s[0].id {
        assert rest[j] in s[1..];
      }
    }
  }

  /** What `s` still lists after the selected candidates are gone, in whatever order. */
  ghost predicate Remain(s: seq<Candidate>, t: seq<Candidate>, policy: Policy, now: int) {
    DistinctIds(t) && forall c :: c in t <==> c in s && c.id !in IdSet(Selected(s, policy, now))
  }

  lemma SelectedAreCandidates(s: seq<Candidate>, policy: Policy, now: int)
    ensures forall c :: c in Selected(s, policy, now) ==> c in s
  {
    ByAgeSorts(s);
    ByAgeSorts(Sized(s));
    forall c | c in Selected(s, policy, now) ensures c in s {
      match policy
      case Unlimited =>
      case Days(days) => DaysExact(s, days, now, c);
      case Count(max) => assert c in multiset(ByAge(s));
      case DiskLimitMb(_) => assert c in multiset(ByAge(Sized(s)));
    }
  }

  lemma CountSettles(s: seq<Candidate>, t: seq<Candidate>, max: nat, now: int)
    requires DistinctIds(s) && Remain(s, t, Count(max), now)
    ensures |t| == Min(max, |s|)
  {
    var dropped := Selected(s, Count(max), now);
    SelectedAreCandidates(s, Count(max), now);
    ByAgeSorts(s);
    SameIds(s, ByAge(s));
    assert DistinctIds(dropped);
    DistinctSize(dropped);
    DistinctSize(s);
    DistinctSize(t);
    forall id | id in IdSet(s) - IdSet(dropped) ensures id in IdSet(t) {
      var c :| c in s && c.id == id;
      assert c in t;
    }
    assert IdSet(t) == IdSet(s) - IdSet(dropped);
    assert IdSet(dropped) <= IdSet(s);
  }

  /** After a disk-limit selection, the sized candidates left are the young end of the list. */
  lemma DiskSettles(s: seq<Candidate>, t: seq<Candidate>, limit: nat, now: int)
    requires DistinctIds(s) && Remain(s, t, DiskLimitMb(limit), now)
    ensures var aged := ByAge(Sized(s)); multiset(Sized(t)) == multiset(aged[Excess(aged, LimitBytes(limit))..])
    ensures TotalSize(ByAge(Sized(t))) <= LimitBytes(limit)
  {
    var aged := ByAge(Sized(s));
    var k := Excess(aged, LimitBytes(limit));
    SizedKeepsDistinct(s);
    SizedKeepsDistinct(t);
    ByAgeSorts(Sized(s));
    ByAgeSorts(Sized(t));
    SameIds(Sized(s), aged);
    forall c ensures c in Sized(t) <==> c in aged[k..] {
      KeptAreYoung(s, limit, now, c);
      assert c in Sized(t) <==> c in s && c.size.Some? && c.id !in IdSet(aged[..k]);
    }
    SameMultiset(Sized(t), aged[k..]);
    TotalSizePermutes(Sized(t), aged[k..]);
    TotalSizePermutes(Sized(t), ByAge(Sized(t)));
    ExcessIsShortest(aged, LimitBytes(limit));
  }

  lemma KeptAreYoung(s: seq<Candidate>, limit: nat, now: int, c: Candidate)
    requires DistinctIds(s)
    ensures var aged := ByAge(Sized(s)); var k := Excess(aged, LimitBytes(limit));
            c in aged[k..] <==> c in s && c.size.Some? && c.id !in IdSet(aged[..k])
  {
    var aged := ByAge(Sized(s));
    SizedKeepsDistinct(s);
    ByAgeSorts(Sized(s));
    SameIds(Sized(s), aged);
    assert c in Sized(s) <==> c in multiset(Sized(s));
    assert c in aged <==> c in multiset(aged);
    SplitByIds(aged, Excess(aged, LimitBytes(limit)), c);
  }

  lemma SplitByIds(s: seq<Candidate>, k: nat, c: Candidate)
    requires DistinctIds(s) && k <= |s|
    ensures c in s[k..] <==> c in s && c.id !in IdSet(s[..k])
  {
    if c in s[k..] {
      var i :| k <= i < |s| && s[i] == c;
      forall x | x in s[..k] ensures x.id != c.id {
        var j :| 0 <= j < k && s[j] == x;
      }
    } else if c in s {
      assert s == s[..k] + s[k..];
      assert c in s[..k];
    }
  }

  /** Whatever the policy, selecting again from what remains selects nothing. */
  lemma SelectSettles(s: seq<Candidate>, t: seq<Candidate>, policy: Policy, now: int)
    requires DistinctIds(s) && Remain(s, t, policy, now)
    ensures Selected(t, policy, now) == []
  {
    match policy
    case Unlimited =>
    case Days(days) =>
      if Selected(t, policy, now) != [] {
        var c := Selected(t, policy, now)[0];
        DaysExact(t, days, now, c);
        DaysExact(s, days, now, c);
      }
    case Count(max) => CountSettles(s, t, max, now);
    case DiskLimitMb(limit) => DiskSettles(s, t, limit, now);
  }

  /** A disk limit never selects a candidate whose size is unknown. */
  lemma NeverUnsized(s: seq<Candidate>, limit: nat, now: int, c: Candidate)
    requires c in Selected(s, DiskLimitMb(limit), now)
    ensures c in s && c.size.Some?
  {
    ByAgeSorts(Sized(s));
    assert c in ByAge(Sized(s));
    assert c in multiset(ByAge(Sized(s)));
    assert c in multiset(Sized(s));
  }

  // -------------------------------------------------------------------
  // The size selector as written
  // -------------------------------------------------------------------

  lemma DropOneMore(aged: seq<Candidate>, limit: nat, i: nat)
    requires i < |aged| && TotalSize(aged[i..]) > limit
    ensures Excess(aged[i..], limit) == 1 + Excess(aged[i + 1..], limit)
    ensures TotalSize(aged[i..]) == TotalSize(aged[i + 1..]) + if aged[i].size.Some? then aged[i].size.value else 0
    ensures Ids(aged[..i + 1]) == Ids(aged[..i]) + [aged[i].id]
  {
    assert aged[i..][1..] == aged[i + 1..];
  }

  method SelectExcessBySize(s: seq<Candidate>, limitMb: nat) returns (toDrop: seq<RecordId>)
    ensures toDrop == Ids(Selected(s, DiskLimitMb(limitMb), 0))
  {
    var limit := LimitBytes(limitMb);
    var sized := ByAge(Sized(s));
    var remaining := TotalSize(sized);
    toDrop := [];
    if remaining <= limit {
      return;
    }
    var i := 0;
    assert sized[0..] == sized;
    while i < |sized| && remaining > limit
      invariant 0 <= i <= |sized|
      invariant remaining == TotalSize(sized[i..])
      invariant Excess(sized, limit) == i + Excess(sized[i..], limit)
      invariant toDrop == Ids(sized[..i])
    {
      DropOneMore(sized, limit, i);
      var size := if sized[i].size.Some? then sized[i].size.value else 0;
      remaining := if remaining < size then 0 else remaining - size;
      toDrop := toDrop + [sized[i].id];
      i := i + 1;
    }
  }

  method SelectExcessByCount(s: seq<Candidate>, max: nat) returns (toDrop: seq<RecordId>)
    ensures toDrop == Ids(Selected(s, Count(max), 0))
  {
    if |s| <= max {
      return [];
    }
    var sorted := ByAge(s);
    ByAgeSorts(s);
    toDrop := Ids(sorted[..|s| - max]);
  }

  method SelectToDelete(s: seq<Candidate>, policy: Policy, now: int) returns (toDrop: seq<RecordId>)
    ensures toDrop == Ids(Selected(s, policy, now))
  {
    match policy
    case Unlimited => toDrop := [];
    case Days(days) => toDrop := if days == 0 then [] else Ids(OlderThan(s, now - days * SECONDS_PER_DAY));
    case Count(max) => toDrop := SelectExcessByCount(s, max);
    case DiskLimitMb(limit) => toDrop := SelectExcessBySize(s, limit);
  }
}
