/**
 What a retention sweep without I/O failures leaves: the bound its policy promises, reached by
 dropping the oldest first and no more than needed, and nothing left for a second sweep to do.
 */
module RetentionSweeps {
  import opened Prelude
  import opened Retention
  import opened Histories

  // -------------------------------------------------------------------
  // Disk usage
  // -------------------------------------------------------------------

  /** The bytes all the files take. */
  ghost function DiskUsage(files: map<AudioFile, nat>): nat
    decreases |files.Keys|
  {
    if files == map[] then 0
    else
      var f :| f in files;
      assert (files - {f}).Keys == files.Keys - {f};
      files[f] + DiskUsage(files - {f})
  }

  lemma {:induction false} UsageWithout(files: map<AudioFile, nat>, f: AudioFile)
    requires f in files
    ensures DiskUsage(files) == files[f] + DiskUsage(files - {f})
    decreases |files.Keys|
  {
    var g :| g in files && DiskUsage(files) == files[g] + DiskUsage(files - {g});
    if g != f {
      assert (files - {g}).Keys == files.Keys - {g};
      assert (files - {f}).Keys == files.Keys - {f};
      UsageWithout(files - {g}, f);
      UsageWithout(files - {f}, g);
      assert files - {g} - {f} == files - {f} - {g};
    }
  }

  function Restrict(files: map<AudioFile, nat>, keep: set<AudioFile>): map<AudioFile, nat> {
    map f | f in files && f in keep :: files[f]
  }

  lemma RestrictMore(files: map<AudioFile, nat>, keep: set<AudioFile>, f: AudioFile)
    requires f !in keep
    ensures DiskUsage(Restrict(files, keep + {f})) == FileSize(files, f) + DiskUsage(Restrict(files, keep))
  {
    if f in files {
      UsageWithout(Restrict(files, keep + {f}), f);
      assert Restrict(files, keep + {f}) - {f} == Restrict(files, keep);
    } else {
      assert Restrict(files, keep + {f}) == Restrict(files, keep);
    }
  }

  /** Each candidate is an audio row of `d` with its file's size, no row twice. */
  ghost predicate SomeAudios(d: Disk, s: seq<Candidate>) {
    && DistinctIds(s)
    && forall c :: c in s ==> c.id in d.rows && d.rows[c.id].audio.Some? && c == AudioCandidate(d.files, c.id, d.rows[c.id])
  }

  /** The files of the candidates in `s`. */
  ghost function FilesOf(d: Disk, s: seq<Candidate>): set<AudioFile>
    requires SomeAudios(d, s)
  {
    set c | c in s :: d.rows[c.id].audio.value
  }

  lemma NextFile(d: Disk, s: seq<Candidate>)
    requires Unshared(d) && SomeAudios(d, s) && s != []
    ensures SomeAudios(d, s[1..])
    ensures d.rows[s[0].id].audio.value !in FilesOf(d, s[1..])
    ensures FilesOf(d, s) == FilesOf(d, s[1..]) + {d.rows[s[0].id].audio.value}
  {
    DistinctTail(s);
    forall c | c in s[1..] ensures c in s && d.rows[c.id].audio != d.rows[s[0].id].audio {
      assert c.id in IdSet(s[1..]);
    }
    assert s == [s[0]] + s[1..];
  }

  lemma {:induction false} ListedUsage(d: Disk, s: seq<Candidate>)
    requires Unshared(d) && SomeAudios(d, s)
    ensures TotalSize(s) == DiskUsage(Restrict(d.files, FilesOf(d, s)))
  {
    if s == [] {
      assert Restrict(d.files, FilesOf(d, s)) == map[];
    } else {
      NextFile(d, s);
      ListedUsage(d, s[1..]);
      RestrictMore(d.files, FilesOf(d, s[1..]), d.rows[s[0].id].audio.value);
      assert s[0] in s;
    }
  }

  /** The files some row claims. */
  function Claimed(d: Disk): set<AudioFile> {
    set id | id in d.rows && d.rows[id].audio.Some? :: d.rows[id].audio.value
  }

  /** The bytes of the files that rows claim: of all files, when none is orphaned. */
  ghost function ClaimedUsage(d: Disk): nat { DiskUsage(Restrict(d.files, Claimed(d))) }

  lemma NoOrphanUsage(d: Disk)
    requires NoOrphan(d)
    ensures ClaimedUsage(d) == DiskUsage(d.files)
  {
    forall f | f in d.files ensures f in Claimed(d) {
      var id :| id in d.rows && d.rows[id].audio == Some(f);
    }
    assert Restrict(d.files, Claimed(d)) == d.files;
  }

  lemma ListedFiles(d: Disk, s: seq<Candidate>)
    requires ListsAudios(d, s)
    ensures FilesOf(d, s) == Claimed(d)
  {
    forall id | id in d.rows && d.rows[id].audio.Some? ensures d.rows[id].audio.value in FilesOf(d, s) {
      assert AudioCandidate(d.files, id, d.rows[id]) in s;
    }
  }

  /** Any listing's total is the usage of the files that rows claim, when no two rows claim the same. */
  lemma ListingIsUsage(d: Disk, s: seq<Candidate>)
    requires Unshared(d) && ListsAudios(d, s)
    ensures TotalSize(s) == ClaimedUsage(d)
    ensures NoOrphan(d) ==> TotalSize(s) == DiskUsage(d.files)
  {
    ListedUsage(d, s);
    ListedFiles(d, s);
    if NoOrphan(d) {
      NoOrphanUsage(d);
    }
  }

  // -------------------------------------------------------------------
  // Record retention
  // -------------------------------------------------------------------

  lemma RecordIds(d: Disk, s: seq<Candidate>)
    requires ListsRecords(d, s)
    ensures IdSet(s) == d.rows.Keys && |s| == |d.rows|
  {
    forall id | id in d.rows ensures id in IdSet(s) {
      assert RecordCandidate(id, d.rows[id]) in s;
    }
    DistinctSize(s);
    assert IdSet(s) == d.rows.Keys;
    assert |d.rows.Keys| == |d.rows|;
  }

  /** Without faults, a delete removes exactly the rows asked for. */
  lemma FaultlessDelete(d: Disk, ids: set<RecordId>)
    ensures AfterDelete(d, ids, {}, true).rows == d.rows - ids
  {
    assert Bare(d, ids, {}) == ids * d.rows.Keys;
  }

  lemma RecordsRemain(d: Disk, s: seq<Candidate>, t: seq<Candidate>, policy: Policy, now: int)
    requires ListsRecords(d, s) && ListsRecords(AfterDelete(d, IdSet(Selected(s, policy, now)), {}, true), t)
    ensures Remain(s, t, policy, now)
  {
    FaultlessDelete(d, IdSet(Selected(s, policy, now)));
    var e := AfterDelete(d, IdSet(Selected(s, policy, now)), {}, true);
    forall c ensures c in t <==> c in s && c.id !in IdSet(Selected(s, policy, now)) {
      if c in s && c.id !in IdSet(Selected(s, policy, now)) {
        assert RecordCandidate(c.id, e.rows[c.id]) in t;
      }
      if c in t {
        assert RecordCandidate(c.id, d.rows[c.id]) in s;
      }
    }
  }

  /** In a sorted list nothing before a position is younger than anything after it. */
  lemma PrefixIsOldest(s: seq<Candidate>, k: nat, gone: Candidate, kept: Candidate)
    requires k <= |ByAge(s)| && gone in ByAge(s)[..k] && kept in s && kept.id !in IdSet(ByAge(s)[..k])
    ensures gone.createdAt <= kept.createdAt
  {
    ByAgeSorts(s);
    var aged := ByAge(s);
    assert kept in multiset(aged);
    var i :| 0 <= i < k && aged[i] == gone;
    assert forall h :: 0 <= h < k ==> aged[h] in aged[..k];
    var j :| 0 <= j < |aged| && aged[j] == kept;
  }

  lemma CountDropsExcess(s: seq<Candidate>, max: nat, now: int)
    requires DistinctIds(s)
    ensures IdSet(Selected(s, Count(max), now)) <= IdSet(s)
    ensures |IdSet(Selected(s, Count(max), now))| == |s| - Min(max, |s|)
  {
    var dropped := Selected(s, Count(max), now);
    ByAgeSorts(s);
    SameIds(s, ByAge(s));
    assert DistinctIds(dropped);
    DistinctSize(dropped);
    SelectedAreCandidates(s, Count(max), now);
  }

  lemma CountKeepsSome(d: Disk, s: seq<Candidate>, max: nat, now: int)
    requires ListsRecords(d, s)
    ensures var e := AfterDelete(d, IdSet(Selected(s, Count(max), now)), {}, true);
            |e.rows| == Min(max, |d.rows|)
  {
    var dropped := IdSet(Selected(s, Count(max), now));
    var e := AfterDelete(d, dropped, {}, true);
    FaultlessDelete(d, dropped);
    RecordIds(d, s);
    CountDropsExcess(s, max, now);
    assert e.rows.Keys == d.rows.Keys - dropped;
    assert |e.rows| == |e.rows.Keys| && |d.rows| == |d.rows.Keys|;
  }

  lemma CountDropsOldest(d: Disk, s: seq<Candidate>, max: nat, now: int, gone: RecordId, kept: RecordId)
    requires ListsRecords(d, s) && gone in IdSet(Selected(s, Count(max), now)) && kept in d.rows && kept !in IdSet(Selected(s, Count(max), now))
    ensures gone in d.rows && d.rows[gone].createdAt <= d.rows[kept].createdAt
  {
    var c :| c in Selected(s, Count(max), now) && c.id == gone;
    SelectedAreCandidates(s, Count(max), now);
    assert RecordCandidate(kept, d.rows[kept]) in s;
    ByAgeSorts(s);
    PrefixIsOldest(s, |s| - max, c, RecordCandidate(kept, d.rows[kept]));
  }

  /**
   Count retention leaves exactly the smaller of the limit and the number there were, every row left
   as it was, and none of them older than a row deleted.
   */
  lemma CountSweep(d: Disk, s: seq<Candidate>, max: nat, now: int)
    requires ListsRecords(d, s)
    ensures var e := AfterDelete(d, IdSet(Selected(s, Count(max), now)), {}, true);
            && |e.rows| == Min(max, |d.rows|)
            && e.rows.Keys <= d.rows.Keys && (forall id :: id in e.rows ==> e.rows[id] == d.rows[id])
            && (forall gone, kept :: gone in d.rows && gone !in e.rows && kept in e.rows ==> d.rows[gone].createdAt <= d.rows[kept].createdAt)
  {
    var dropped := IdSet(Selected(s, Count(max), now));
    CountKeepsSome(d, s, max, now);
    FaultlessDelete(d, dropped);
    forall gone, kept | gone in d.rows && gone in dropped && kept in d.rows && kept !in dropped
      ensures d.rows[gone].createdAt <= d.rows[kept].createdAt
    {
      CountDropsOldest(d, s, max, now, gone, kept);
    }
  }

  /** Age retention deletes exactly the rows whose timestamp parses and lies before the cutoff. */
  lemma DaysSweep(d: Disk, s: seq<Candidate>, days: nat, now: int)
    requires ListsRecords(d, s)
    ensures var e := AfterDelete(d, IdSet(Selected(s, Days(days), now)), {}, true);
            forall id :: id in d.rows ==> (id in e.rows <==>
              days == 0 || d.rows[id].instant.None? || d.rows[id].instant.value >= now - days * 86400)
  {
    var dropped := Selected(s, Days(days), now);
    FaultlessDelete(d, IdSet(dropped));
    forall id | id in d.rows
      ensures id in IdSet(dropped) <==> days > 0 && d.rows[id].instant.Some? && d.rows[id].instant.value < now - days * 86400
    {
      var c := RecordCandidate(id, d.rows[id]);
      assert c in s;
      DaysExact(s, days, now, c);
      forall x | x in dropped && x.id == id ensures x == c {
        DaysExact(s, days, now, x);
      }
    }
  }

  // -------------------------------------------------------------------
  // Audio retention
  // -------------------------------------------------------------------

  /** Without faults, a drop clears exactly the rows asked for. */
  lemma FaultlessDrop(d: Disk, ids: set<RecordId>)
    ensures var e := AfterDrop(d, ids, {}, true);
            && e.rows.Keys == d.rows.Keys
            && forall id :: id in d.rows ==> e.rows[id] == if id in ids then d.rows[id].(audio := None) else d.rows[id]
  {
  }

  /** A kept audio row still has its file, of the same size. */
  lemma KeptSize(d: Disk, ids: set<RecordId>, id: RecordId)
    requires Unshared(d) && id in d.rows && id !in ids && d.rows[id].audio.Some?
    ensures FileSize(AfterDrop(d, ids, {}, true).files, d.rows[id].audio.value) == FileSize(d.files, d.rows[id].audio.value)
  {
    assert d.rows[id].audio.value !in Unlinked(d, ids, {});
  }

  /** The audio rows after a drop are those listed before and not asked for. */
  lemma DropLists(d: Disk, s: seq<Candidate>, ids: set<RecordId>, c: Candidate)
    requires Unshared(d) && ListsAudios(d, s)
    ensures var e := AfterDrop(d, ids, {}, true);
            c.id in e.rows && e.rows[c.id].audio.Some? && c == AudioCandidate(e.files, c.id, e.rows[c.id]) <==> c in s && c.id !in ids
  {
    FaultlessDrop(d, ids);
    if c.id in d.rows && d.rows[c.id].audio.Some? && c.id !in ids {
      KeptSize(d, ids, c.id);
      assert AudioCandidate(d.files, c.id, d.rows[c.id]) in s;
    }
  }

  /** A list of the audio rows left is a listing after the drop, and only such a list is. */
  lemma ListedAfterDrop(d: Disk, s: seq<Candidate>, ids: set<RecordId>, t: seq<Candidate>)
    requires Unshared(d) && ListsAudios(d, s) && DistinctIds(t)
    ensures ListsAudios(AfterDrop(d, ids, {}, true), t) <==> forall c :: c in t <==> c in s && c.id !in ids
  {
    var e := AfterDrop(d, ids, {}, true);
    forall c: Candidate ensures c.id in e.rows && e.rows[c.id].audio.Some? && c == AudioCandidate(e.files, c.id, e.rows[c.id]) <==> c in s && c.id !in ids {
      DropLists(d, s, ids, c);
    }
    if forall c :: c in t <==> c in s && c.id !in ids {
      forall id | id in e.rows && e.rows[id].audio.Some? ensures AudioCandidate(e.files, id, e.rows[id]) in t {
        assert AudioCandidate(e.files, id, e.rows[id]).id == id;
      }
    }
  }

  lemma DropKeepsPairing(d: Disk, ids: set<RecordId>)
    requires Unshared(d)
    ensures Unshared(AfterDrop(d, ids, {}, true))
    ensures NoOrphan(d) ==> NoOrphan(AfterDrop(d, ids, {}, true))
  {
    if NoOrphan(d) {
      DeleteKeepsNoOrphan(d, ids, {}, true);
    }
  }

  lemma {:induction false} SizedIsAll(s: seq<Candidate>)
    requires forall c :: c in s ==> c.size.Some?
    ensures Sized(s) == s
  {
    if s != [] {
      SizedIsAll(s[1..]);
    }
  }

  /** Usage once the `j` oldest audio rows have been dropped. */
  lemma UsageAfterOldest(d: Disk, s: seq<Candidate>, j: nat)
    requires Unshared(d) && ListsAudios(d, s) && j <= |ByAge(s)|
    ensures ClaimedUsage(AfterDrop(d, IdSet(ByAge(s)[..j]), {}, true)) == TotalSize(ByAge(s)[j..])
  {
    var aged := ByAge(s);
    var ids := IdSet(aged[..j]);
    ByAgeSorts(s);
    SameIds(s, aged);
    forall c ensures c in aged[j..] <==> c in s && c.id !in ids {
      SplitByIds(aged, j, c);
      assert c in s <==> c in multiset(s);
      assert c in aged <==> c in multiset(aged);
    }
    assert DistinctIds(aged[j..]);
    ListedAfterDrop(d, s, ids, aged[j..]);
    DropKeepsPairing(d, ids);
    ListingIsUsage(AfterDrop(d, ids, {}, true), aged[j..]);
  }

  /** `last` is a youngest of the chosen rows, and the files that rows claim would exceed the limit with its audio spared. */
  ghost predicate LastNeeded(d: Disk, chosen: set<RecordId>, last: RecordId, limit: nat)
    requires chosen <= d.rows.Keys
  {
    && last in chosen
    && (forall gone :: gone in chosen ==> d.rows[gone].createdAt <= d.rows[last].createdAt)
    && ClaimedUsage(AfterDrop(d, chosen - {last}, {}, true)) > limit
  }

  lemma YoungestChosen(aged: seq<Candidate>, k: nat)
    requires DistinctIds(aged) && 0 < k <= |aged|
    ensures aged[k - 1].id in IdSet(aged[..k]) && IdSet(aged[..k]) - {aged[k - 1].id} == IdSet(aged[..k - 1])
  {
    assert aged[..k] == aged[..k - 1] + [aged[k - 1]];
    assert aged[k - 1] in aged[..k];
    forall c | c in aged[..k - 1] ensures c.id != aged[k - 1].id {
      var i :| 0 <= i < k - 1 && aged[i] == c;
    }
  }

  /** Of audio rows, nothing chosen by a prefix of the sorted list is younger than anything not chosen. */
  lemma ChosenAreOldest(d: Disk, s: seq<Candidate>, k: nat, gone: RecordId, kept: RecordId)
    requires ListsAudios(d, s) && k <= |ByAge(s)|
    requires gone in IdSet(ByAge(s)[..k]) && kept in d.rows && kept !in IdSet(ByAge(s)[..k]) && d.rows[kept].audio.Some?
    ensures gone in d.rows && d.rows[gone].createdAt <= d.rows[kept].createdAt
  {
    var c :| c in ByAge(s)[..k] && c.id == gone;
    ChosenAreRows(d, s, k, c);
    var x := AudioCandidate(d.files, kept, d.rows[kept]);
    assert x in s;
    PrefixIsOldest(s, k, c, x);
  }

  lemma ChosenAreRows(d: Disk, s: seq<Candidate>, k: nat, c: Candidate)
    requires ListsAudios(d, s) && k <= |ByAge(s)| && c in ByAge(s)[..k]
    ensures c in s && c.id in d.rows && d.rows[c.id].createdAt == c.createdAt
  {
    ByAgeSorts(s);
    assert c in ByAge(s);
    assert c in multiset(ByAge(s));
    assert c in multiset(s);
  }

  lemma LastIsNeeded(d: Disk, s: seq<Candidate>, limit: nat)
    requires Unshared(d) && ListsAudios(d, s)
    requires Excess(ByAge(s), limit) > 0
    requires IdSet(ByAge(s)[..Excess(ByAge(s), limit)]) <= d.rows.Keys
    ensures var k := Excess(ByAge(s), limit); LastNeeded(d, IdSet(ByAge(s)[..k]), ByAge(s)[k - 1].id, limit)
  {
    var aged := ByAge(s);
    var k := Excess(aged, limit);
    ByAgeSorts(s);
    SameIds(s, aged);
    YoungestChosen(aged, k);
    forall gone | gone in IdSet(aged[..k]) ensures d.rows[gone].createdAt <= d.rows[aged[k - 1].id].createdAt {
      LastIsYoungest(d, s, k, gone);
    }
    UsageAfterOldest(d, s, k - 1);
    ExcessIsShortest(aged, limit);
  }

  lemma LastIsYoungest(d: Disk, s: seq<Candidate>, k: nat, gone: RecordId)
    requires ListsAudios(d, s) && 0 < k <= |ByAge(s)| && gone in IdSet(ByAge(s)[..k])
    ensures gone in d.rows && ByAge(s)[k - 1].id in d.rows
    ensures d.rows[gone].createdAt <= d.rows[ByAge(s)[k - 1].id].createdAt
  {
    var aged := ByAge(s);
    ByAgeSorts(s);
    var c :| c in aged[..k] && c.id == gone;
    var i :| 0 <= i < k && aged[i] == c;
    ChosenAreRows(d, s, k, c);
    assert aged[k - 1] in aged[..k];
    ChosenAreRows(d, s, k, aged[k - 1]);
  }

  lemma SelectedByDisk(d: Disk, s: seq<Candidate>, limitMb: nat, now: int)
    requires ListsAudios(d, s)
    ensures Selected(s, DiskLimitMb(limitMb), now) == ByAge(s)[..Excess(ByAge(s), LimitBytes(limitMb))]
  {
    SizedIsAll(s);
  }

  /** Disk-limit retention leaves the files that rows claim within the limit, and with no file orphaned all files. */
  lemma DiskLimitFits(d: Disk, s: seq<Candidate>, limitMb: nat, now: int)
    requires Unshared(d) && ListsAudios(d, s)
    ensures var e := AfterDrop(d, IdSet(Selected(s, DiskLimitMb(limitMb), now)), {}, true);
            && ClaimedUsage(e) <= limitMb * 1048576 && ClaimedUsage(e) <= 18446744073709551615
            && (NoOrphan(d) ==> DiskUsage(e.files) <= limitMb * 1048576)
  {
    var chosen := IdSet(Selected(s, DiskLimitMb(limitMb), now));
    SelectedByDisk(d, s, limitMb, now);
    ExcessIsShortest(ByAge(s), LimitBytes(limitMb));
    UsageAfterOldest(d, s, Excess(ByAge(s), LimitBytes(limitMb)));
    DropKeepsPairing(d, chosen);
    if NoOrphan(d) {
      NoOrphanUsage(AfterDrop(d, chosen, {}, true));
    }
  }

  /** It takes audio from no row younger than one left with its audio. */
  lemma DiskLimitDropsOldest(d: Disk, s: seq<Candidate>, limitMb: nat, now: int, gone: RecordId, kept: RecordId)
    requires ListsAudios(d, s)
    requires var chosen := IdSet(Selected(s, DiskLimitMb(limitMb), now));
             gone in chosen && kept in d.rows && kept !in chosen && d.rows[kept].audio.Some?
    ensures gone in d.rows && d.rows[gone].createdAt <= d.rows[kept].createdAt
  {
    SelectedByDisk(d, s, limitMb, now);
    ChosenAreOldest(d, s, Excess(ByAge(s), LimitBytes(limitMb)), gone, kept);
  }

  /** It takes no more than it must: with the youngest of the rows it chose spared, the files would exceed the limit. */
  lemma DiskLimitIsShortest(d: Disk, s: seq<Candidate>, limitMb: nat, now: int)
    requires Unshared(d) && ListsAudios(d, s)
    ensures var chosen := IdSet(Selected(s, DiskLimitMb(limitMb), now));
            var bytes := if limitMb * 1048576 <= 18446744073709551615 then limitMb * 1048576 else 18446744073709551615;
            chosen <= d.rows.Keys && (chosen != {} ==> exists last :: LastNeeded(d, chosen, last, bytes))
  {
    SelectedByDisk(d, s, limitMb, now);
    var k := Excess(ByAge(s), LimitBytes(limitMb));
    ChosenIdsAreRows(d, s, k);
    if k > 0 {
      LastIsNeeded(d, s, LimitBytes(limitMb));
    }
  }

  lemma ChosenIdsAreRows(d: Disk, s: seq<Candidate>, k: nat)
    requires ListsAudios(d, s) && k <= |ByAge(s)|
    ensures IdSet(ByAge(s)[..k]) <= d.rows.Keys
    ensures k == 0 ==> IdSet(ByAge(s)[..k]) == {}
  {
    forall c | c in ByAge(s)[..k] ensures c.id in d.rows {
      ChosenAreRows(d, s, k, c);
    }
  }

  lemma AudioIds(d: Disk, s: seq<Candidate>)
    requires ListsAudios(d, s)
    ensures IdSet(s) == Audible(d) && |s| == |Audible(d)|
  {
    forall id | id in Audible(d) ensures id in IdSet(s) {
      assert AudioCandidate(d.files, id, d.rows[id]) in s;
    }
    DistinctSize(s);
    assert IdSet(s) == Audible(d);
  }

  /** Age retention takes the audio of exactly the rows whose timestamp parses and lies before the cutoff. */
  lemma AudioDaysSweep(d: Disk, s: seq<Candidate>, days: nat, now: int)
    requires ListsAudios(d, s)
    ensures var e := AfterDrop(d, IdSet(Selected(s, Days(days), now)), {}, true);
            forall id :: id in Audible(d) ==> (id in Audible(e) <==>
              days == 0 || d.rows[id].instant.None? || d.rows[id].instant.value >= now - days * 86400)
  {
    var dropped := Selected(s, Days(days), now);
    FaultlessDrop(d, IdSet(dropped));
    forall id | id in Audible(d)
      ensures id in IdSet(dropped) <==> days > 0 && d.rows[id].instant.Some? && d.rows[id].instant.value < now - days * 86400
    {
      var c := AudioCandidate(d.files, id, d.rows[id]);
      assert c in s;
      DaysExact(s, days, now, c);
      forall x | x in dropped && x.id == id ensures x == c {
        DaysExact(s, days, now, x);
      }
    }
  }

  /** Count retention leaves audio to the smaller of the limit and the number that had it, and takes it from no row younger than one left with it. */
  lemma AudioCountSweep(d: Disk, s: seq<Candidate>, max: nat, now: int)
    requires ListsAudios(d, s)
    ensures var e := AfterDrop(d, IdSet(Selected(s, Count(max), now)), {}, true);
            && Audible(e) <= Audible(d) && |Audible(e)| == Min(max, |Audible(d)|)
            && forall gone, kept :: gone in Audible(d) && gone !in Audible(e) && kept in Audible(e) ==> d.rows[gone].createdAt <= d.rows[kept].createdAt
  {
    var dropped := IdSet(Selected(s, Count(max), now));
    var e := AfterDrop(d, dropped, {}, true);
    FaultlessDrop(d, dropped);
    AudioIds(d, s);
    CountDropsExcess(s, max, now);
    assert Audible(e) == Audible(d) - dropped;
    ByAgeSorts(s);
    forall gone, kept | gone in dropped && kept in Audible(d) && kept !in dropped
      ensures d.rows[gone].createdAt <= d.rows[kept].createdAt
    {
      ChosenAreOldest(d, s, |s| - Min(max, |s|), gone, kept);
    }
  }

  // -------------------------------------------------------------------
  // Both branches
  // -------------------------------------------------------------------

  const FAULTLESS: Faulty := Faulty(false, Faults(false, {}, false))

  lemma DropKeepsCount(d: Disk, ids: set<RecordId>)
    ensures |AfterDrop(d, ids, {}, true).rows| == |d.rows|
  {
    FaultlessDrop(d, ids);
    var e := AfterDrop(d, ids, {}, true);
    assert |e.rows| == |e.rows.Keys| && |d.rows| == |d.rows.Keys|;
  }

  lemma DeleteKeepsPairing(d: Disk, ids: set<RecordId>)
    requires Unshared(d)
    ensures Unshared(AfterDelete(d, ids, {}, true))
    ensures NoOrphan(d) ==> NoOrphan(AfterDelete(d, ids, {}, true))
  {
    if NoOrphan(d) {
      DeleteKeepsNoOrphan(d, ids, {}, true);
    }
  }

  /**
   A whole sweep without faults under a count limit and a disk limit leaves the history within both,
   whatever order the tables are listed in, and reports how many rows it deleted. The disk limit bounds
   the files that rows claim, and all files when none was orphaned.
   */
  lemma SweepMeetsBothLimits(d: Disk, m: Disk, e: Disk, deleted: nat, dropped: nat, max: nat, limitMb: nat, now: int)
    requires Unshared(d)
    requires RecordsThenAudios(d, m, e, deleted, dropped, Count(max), DiskLimitMb(limitMb), now, FAULTLESS, FAULTLESS)
    ensures |e.rows| == Min(max, |d.rows|) && deleted == |d.rows| - |e.rows|
    ensures ClaimedUsage(e) <= limitMb * 1048576 && Unshared(e)
    ensures NoOrphan(d) ==> NoOrphan(e) && DiskUsage(e.files) <= limitMb * 1048576
  {
    RecordsWithinCount(d, m, deleted, max, now);
    AudiosWithinLimit(m, e, dropped, limitMb, now);
  }

  lemma RecordsWithinCount(d: Disk, m: Disk, deleted: nat, max: nat, now: int)
    requires Unshared(d) && SweptRecords(d, m, deleted, Count(max), now, FAULTLESS.faults)
    ensures |m.rows| == Min(max, |d.rows|) && deleted == |d.rows| - |m.rows| && Unshared(m)
    ensures NoOrphan(d) ==> NoOrphan(m)
  {
    var s :| SweepsRecords(d, s, m, deleted, Count(max), now, FAULTLESS.faults);
    DeleteKeepsPairing(d, IdSet(Selected(s, Count(max), now)));
    CountKeepsSome(d, s, max, now);
    DeletedCount(d, s, max, now);
  }

  lemma AudiosWithinLimit(m: Disk, e: Disk, dropped: nat, limitMb: nat, now: int)
    requires Unshared(m) && SweptAudios(m, e, dropped, DiskLimitMb(limitMb), now, FAULTLESS.faults)
    ensures |e.rows| == |m.rows| && ClaimedUsage(e) <= limitMb * 1048576 && Unshared(e)
    ensures NoOrphan(m) ==> NoOrphan(e) && DiskUsage(e.files) <= limitMb * 1048576
  {
    var t :| SweepsAudios(m, t, e, dropped, DiskLimitMb(limitMb), now, FAULTLESS.faults);
    DropKeepsPairing(m, IdSet(Selected(t, DiskLimitMb(limitMb), now)));
    DropKeepsCount(m, IdSet(Selected(t, DiskLimitMb(limitMb), now)));
    DiskLimitFits(m, t, limitMb, now);
  }

  lemma DeletedCount(d: Disk, s: seq<Candidate>, max: nat, now: int)
    requires ListsRecords(d, s)
    ensures |Bare(d, IdSet(Selected(s, Count(max), now)), {})| == |d.rows| - Min(max, |d.rows|)
  {
    RecordIds(d, s);
    CountDropsExcess(s, max, now);
    var dropped := IdSet(Selected(s, Count(max), now));
    assert Bare(d, dropped, {}) == dropped;
  }

  /** The bytes of the files that these rows claim. */
  ghost function UsageOf(d: Disk, ids: set<RecordId>): nat {
    DiskUsage(Restrict(d.files, set id | id in ids && id in d.rows && d.rows[id].audio.Some? :: d.rows[id].audio.value))
  }

  /** A delete touches no file of a row it leaves. */
  lemma SurvivorsKeepFiles(d: Disk, ids: set<RecordId>)
    requires Unshared(d)
    ensures var m := AfterDelete(d, ids, {}, true); ClaimedUsage(m) == UsageOf(d, m.rows.Keys)
  {
    var m := AfterDelete(d, ids, {}, true);
    FaultlessDelete(d, ids);
    forall f | f in Claimed(m) ensures f !in Unlinked(d, ids, {}) {
      var id :| id in m.rows && m.rows[id].audio == Some(f);
    }
    assert Claimed(m) == set id | id in m.rows.Keys && id in d.rows && d.rows[id].audio.Some? :: d.rows[id].audio.value;
    assert Restrict(m.files, Claimed(m)) == Restrict(d.files, Claimed(m));
  }

  lemma FittingIsSpared(m: Disk, t: seq<Candidate>, limitMb: nat, now: int)
    requires Unshared(m) && ListsAudios(m, t) && ClaimedUsage(m) <= LimitBytes(limitMb)
    ensures Selected(t, DiskLimitMb(limitMb), now) == []
  {
    ListingIsUsage(m, t);
    SelectedByDisk(m, t, limitMb, now);
    ByAgeSorts(t);
    TotalSizePermutes(t, ByAge(t));
  }

  lemma RecordBranchLeaves(d: Disk, m: Disk, deleted: nat, policy: Policy, now: int)
    requires Unshared(d) && SweptRecords(d, m, deleted, policy, now, FAULTLESS.faults)
    ensures Unshared(m) && ClaimedUsage(m) == UsageOf(d, m.rows.Keys)
    ensures forall id :: id in m.rows ==> id in d.rows && m.rows[id] == d.rows[id]
  {
    var s :| SweepsRecords(d, s, m, deleted, policy, now, FAULTLESS.faults);
    var chosen := IdSet(Selected(s, policy, now));
    DeleteKeepsPairing(d, chosen);
    SurvivorsKeepFiles(d, chosen);
    FaultlessDelete(d, chosen);
  }

  lemma WithinLimitBytes(usage: nat, limitMb: nat)
    requires usage <= limitMb * 1048576 && usage <= 18446744073709551615
    ensures usage <= LimitBytes(limitMb)
  {
  }

  lemma AudioBranchKeepsRows(m: Disk, e: Disk, dropped: nat, policy: Policy, now: int)
    requires SweptAudios(m, e, dropped, policy, now, FAULTLESS.faults)
    ensures e.rows.Keys == m.rows.Keys
  {
    var t :| SweepsAudios(m, t, e, dropped, policy, now, FAULTLESS.faults);
    FaultlessDrop(m, IdSet(Selected(t, policy, now)));
  }

  lemma AudioBranchSpares(m: Disk, e: Disk, dropped: nat, limitMb: nat, now: int)
    requires Unshared(m) && SweptAudios(m, e, dropped, DiskLimitMb(limitMb), now, FAULTLESS.faults)
    requires ClaimedUsage(m) <= LimitBytes(limitMb)
    ensures e == m && dropped == 0
  {
    var t :| SweepsAudios(m, t, e, dropped, DiskLimitMb(limitMb), now, FAULTLESS.faults);
    FittingIsSpared(m, t, limitMb, now);
    assert IdSet(Selected(t, DiskLimitMb(limitMb), now)) == {};
    DroppingNone(m, {}, true);
  }

  /**
   The audio branch judges what the record branch left: when the files of the rows that survive fit the
   disk limit, none of them loses its audio, however much the deleted ones took.
   */
  lemma SurvivorsThatFitAreSpared(d: Disk, m: Disk, e: Disk, deleted: nat, dropped: nat, recordPolicy: Policy, limitMb: nat, now: int)
    requires Unshared(d)
    requires RecordsThenAudios(d, m, e, deleted, dropped, recordPolicy, DiskLimitMb(limitMb), now, FAULTLESS, FAULTLESS)
    requires UsageOf(d, e.rows.Keys) <= limitMb * 1048576 && UsageOf(d, e.rows.Keys) <= 18446744073709551615
    ensures dropped == 0 && forall id :: id in e.rows ==> id in d.rows && e.rows[id] == d.rows[id]
  {
    WithinLimitBytes(UsageOf(d, e.rows.Keys), limitMb);
    AudioBranchKeepsRows(m, e, dropped, DiskLimitMb(limitMb), now);
    RecordBranchLeaves(d, m, deleted, recordPolicy, now);
    AudioBranchSpares(m, e, dropped, limitMb, now);
  }

  // -------------------------------------------------------------------
  // Policies that keep everything
  // -------------------------------------------------------------------

  /** No limit, or an age limit of zero days. */
  predicate KeepsAll(policy: Policy) { policy == Unlimited || policy == Days(0) }

  lemma DroppingNone(d: Disk, failing: set<AudioFile>, dbOk: bool)
    ensures AfterDelete(d, {}, failing, dbOk) == d && AfterDrop(d, {}, failing, dbOk) == d
    ensures Bare(d, {}, failing) == {} && Freed(d, {}, failing) == {}
  {
    assert d.files - {} == d.files && d.rows - {} == d.rows;
  }

  lemma NoRecordIsSized(d: Disk, s: seq<Candidate>, limit: nat, now: int)
    requires ListsRecords(d, s)
    ensures Selected(s, DiskLimitMb(limit), now) == []
  {
    if Selected(s, DiskLimitMb(limit), now) != [] {
      NeverUnsized(s, limit, now, Selected(s, DiskLimitMb(limit), now)[0]);
    }
  }

  /** Under such a policy, or a disk limit, which no record counts against, the record branch touches nothing, whatever fails. */
  lemma RecordsAreKept(d: Disk, e: Disk, deleted: nat, policy: Policy, now: int, faults: Faults)
    requires SweptRecords(d, e, deleted, policy, now, faults) && (KeepsAll(policy) || policy.DiskLimitMb?)
    ensures e == d && deleted == 0
  {
    var s :| SweepsRecords(d, s, e, deleted, policy, now, faults);
    if policy.DiskLimitMb? {
      NoRecordIsSized(d, s, policy.limit, now);
    }
    DroppingNone(d, faults.unlink, !faults.statement);
  }

  lemma AudiosAreKept(d: Disk, e: Disk, dropped: nat, policy: Policy, now: int, faults: Faults)
    requires SweptAudios(d, e, dropped, policy, now, faults) && KeepsAll(policy)
    ensures e == d && dropped == 0
  {
    var s :| SweepsAudios(d, s, e, dropped, policy, now, faults);
    assert Selected(s, policy, now) == [];
    DroppingNone(d, faults.unlink, !faults.statement);
  }

  /** A whole sweep under policies that keep everything leaves the history as it was and reports nothing, whatever fails. */
  lemma KeptForEver(d: Disk, m: Disk, e: Disk, deleted: nat, dropped: nat, recordPolicy: Policy, audioPolicy: Policy, now: int, records: Faulty, audios: Faulty)
    requires KeepsAll(recordPolicy) && KeepsAll(audioPolicy)
    requires RecordsThenAudios(d, m, e, deleted, dropped, recordPolicy, audioPolicy, now, records, audios)
    ensures e == d && deleted == 0 && dropped == 0
  {
    if !records.list {
      RecordsAreKept(d, m, deleted, recordPolicy, now, records.faults);
    }
    if !audios.list {
      AudiosAreKept(m, e, dropped, audioPolicy, now, audios.faults);
    }
  }

  // -------------------------------------------------------------------
  // A second sweep
  // -------------------------------------------------------------------

  lemma AudiosRemain(d: Disk, s: seq<Candidate>, t: seq<Candidate>, policy: Policy, now: int)
    requires Unshared(d) && ListsAudios(d, s) && ListsAudios(AfterDrop(d, IdSet(Selected(s, policy, now)), {}, true), t)
    ensures Remain(s, t, policy, now)
  {
    ListedAfterDrop(d, s, IdSet(Selected(s, policy, now)), t);
  }

  /**
   After a sweep without faults under any two policies, a second one at the same clock reading
   selects nothing, in whatever order the tables are listed.
   */
  lemma SecondSweepSelectsNothing(d: Disk, records: seq<Candidate>, audios: seq<Candidate>, recordPolicy: Policy, audioPolicy: Policy, now: int,
                                  records2: seq<Candidate>, audios2: seq<Candidate>)
    requires Unshared(d) && ListsRecords(d, records)
    requires var m := AfterDelete(d, IdSet(Selected(records, recordPolicy, now)), {}, true);
             var e := AfterDrop(m, IdSet(Selected(audios, audioPolicy, now)), {}, true);
             ListsAudios(m, audios) && ListsRecords(e, records2) && ListsAudios(e, audios2)
    ensures Selected(records2, recordPolicy, now) == [] && Selected(audios2, audioPolicy, now) == []
  {
    var m := AfterDelete(d, IdSet(Selected(records, recordPolicy, now)), {}, true);
    var chosen := IdSet(Selected(audios, audioPolicy, now));
    FaultlessDelete(d, IdSet(Selected(records, recordPolicy, now)));
    assert Unshared(m);
    AudiosRemain(m, audios, audios2, audioPolicy, now);
    SelectSettles(audios, audios2, audioPolicy, now);
    DropKeepsRecords(m, chosen, records2);
    RecordsRemain(d, records, records2, recordPolicy, now);
    SelectSettles(records, records2, recordPolicy, now);
  }

  lemma DropKeepsRecords(d: Disk, ids: set<RecordId>, s: seq<Candidate>)
    requires ListsRecords(AfterDrop(d, ids, {}, true), s)
    ensures ListsRecords(d, s)
  {
    FaultlessDrop(d, ids);
    var e := AfterDrop(d, ids, {}, true);
    forall id | id in d.rows ensures RecordCandidate(id, d.rows[id]) in s {
      assert RecordCandidate(id, e.rows[id]) in s;
    }
  }
}
