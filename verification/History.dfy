/**
 The transcription history: database rows paired with audio files. Every operation that deletes
 removes files first and rows after, one unlink at a time, and any unlink or the database step may
 fail.
 */
module Histories {
  import opened Prelude
  import opened Retention

  datatype AudioFile = AudioFile(name: string)

  datatype Row = Row(createdAt: int, instant: Option<int>, audio: Option<AudioFile>)

  /** The table, and the audio directory with the size of each file. */
  datatype Disk = Disk(rows: map<RecordId, Row>, files: map<AudioFile, nat>)

  /** Every file on disk is referenced by a row, so retention will find it. */
  ghost predicate NoOrphan(d: Disk) {
    forall f :: f in d.files ==> exists id :: id in d.rows && d.rows[id].audio == Some(f)
  }

  /** No row claims a file that is gone. */
  ghost predicate NoDangling(d: Disk) {
    forall id :: id in d.rows && d.rows[id].audio.Some? ==> d.rows[id].audio.value in d.files
  }

  /** No two rows share a file: a file is named after its record. */
  ghost predicate Unshared(d: Disk) {
    forall a, b :: a in d.rows && b in d.rows && a != b && d.rows[a].audio.Some? ==> d.rows[a].audio != d.rows[b].audio
  }

  // -------------------------------------------------------------------
  // What the operations leave behind
  // -------------------------------------------------------------------

  /** The files that unlinking for `ids` removes, when unlinking those in `failing` fails. */
  function Unlinked(d: Disk, ids: set<RecordId>, failing: set<AudioFile>): set<AudioFile> {
    set id | id in ids && id in d.rows && d.rows[id].audio.Some? && d.rows[id].audio.value !in failing :: d.rows[id].audio.value
  }

  /** The rows among `ids` with no file left behind them. */
  function Bare(d: Disk, ids: set<RecordId>, failing: set<AudioFile>): set<RecordId> {
    set id | id in ids && id in d.rows && (d.rows[id].audio.Some? ==> d.rows[id].audio.value !in failing)
  }

  /** The rows among `ids` whose audio was unlinked, the file having been there or not. */
  function Freed(d: Disk, ids: set<RecordId>, failing: set<AudioFile>): set<RecordId> {
    set id | id in ids && id in d.rows && d.rows[id].audio.Some? && d.rows[id].audio.value !in failing
  }

  function AfterDelete(d: Disk, ids: set<RecordId>, failing: set<AudioFile>, dbOk: bool): Disk {
    Disk(if dbOk then d.rows - Bare(d, ids, failing) else d.rows, d.files - Unlinked(d, ids, failing))
  }

  function AfterDrop(d: Disk, ids: set<RecordId>, failing: set<AudioFile>, dbOk: bool): Disk {
    Disk(map id | id in d.rows :: if dbOk && id in Bare(d, ids, failing) then d.rows[id].(audio := None) else d.rows[id],
         d.files - Unlinked(d, ids, failing))
  }

  /** Some of the files of `ids` are gone and the table has not been touched: where an operation may stop. */
  ghost predicate Partway(d: Disk, m: Disk, ids: set<RecordId>) {
    && m.rows == d.rows
    && m.files.Keys <= d.files.Keys
    && (forall f :: f in m.files ==> m.files[f] == d.files[f])
    && d.files.Keys - m.files.Keys <= Unlinked(d, ids, {})
  }

  /** Wherever a delete stops, no file is orphaned, and a fault-free retry ends where a fault-free delete would have. */
  lemma StoppedDelete(d: Disk, m: Disk, ids: set<RecordId>)
    requires NoOrphan(d) && Partway(d, m, ids)
    ensures NoOrphan(m)
    ensures AfterDelete(m, ids, {}, true) == AfterDelete(d, ids, {}, true)
    ensures AfterDrop(m, ids, {}, true) == AfterDrop(d, ids, {}, true)
  {
    assert Unlinked(m, ids, {}) == Unlinked(d, ids, {});
    assert Bare(m, ids, {}) == Bare(d, ids, {});
    assert m.files - Unlinked(d, ids, {}) == d.files - Unlinked(d, ids, {});
  }

  /** A call that took the disk from `d` to `e` passed only through states partway to a delete or drop of `ids`, and `e`. */
  ghost predicate Passes(before: seq<Disk>, after: seq<Disk>, d: Disk, e: Disk, ids: set<RecordId>) {
    && before <= after
    && forall k :: |before| <= k < |after| ==> Partway(d, after[k], ids) || after[k] == e
  }

  /** Whenever the process dies during a delete or a drop, no file is orphaned. */
  lemma EveryStopIsClean(before: seq<Disk>, after: seq<Disk>, d: Disk, e: Disk, ids: set<RecordId>, failing: set<AudioFile>, dbOk: bool)
    requires NoOrphan(d) && Passes(before, after, d, e, ids)
    requires e == d || e == AfterDelete(d, ids, failing, dbOk) || e == AfterDrop(d, ids, failing, dbOk)
    ensures forall k :: |before| <= k < |after| ==> NoOrphan(after[k])
  {
    DeleteKeepsNoOrphan(d, ids, failing, dbOk);
    forall k | |before| <= k < |after| && Partway(d, after[k], ids) ensures NoOrphan(after[k]) {
      StoppedDelete(d, after[k], ids);
    }
  }

  /** A delete orphans nothing, whichever unlinks fail and whether or not the rows went. */
  lemma DeleteKeepsNoOrphan(d: Disk, ids: set<RecordId>, failing: set<AudioFile>, dbOk: bool)
    requires NoOrphan(d)
    ensures NoOrphan(AfterDelete(d, ids, failing, dbOk)) && NoOrphan(AfterDrop(d, ids, failing, dbOk))
  {
    forall f | f in d.files && f !in Unlinked(d, ids, failing)
      ensures exists id :: id in AfterDelete(d, ids, failing, dbOk).rows && AfterDelete(d, ids, failing, dbOk).rows[id].audio == Some(f)
      ensures exists id :: id in AfterDrop(d, ids, failing, dbOk).rows && AfterDrop(d, ids, failing, dbOk).rows[id].audio == Some(f)
    {
      var id :| id in d.rows && d.rows[id].audio == Some(f);
      assert id !in Bare(d, ids, failing);
      assert AfterDelete(d, ids, failing, dbOk).rows[id].audio == Some(f);
      assert AfterDrop(d, ids, failing, dbOk).rows[id].audio == Some(f);
    }
  }

  /** Rows go on claiming only files that exist exactly when the database step succeeded or no existing file was unlinked. */
  lemma DeleteKeepsNoDangling(d: Disk, ids: set<RecordId>, failing: set<AudioFile>, dbOk: bool)
    requires NoDangling(d) && Unshared(d)
    ensures NoDangling(AfterDelete(d, ids, failing, dbOk)) <==> dbOk || Unlinked(d, ids, failing) == {}
    ensures NoDangling(AfterDrop(d, ids, failing, dbOk)) <==> dbOk || Unlinked(d, ids, failing) == {}
  {
    if !dbOk && Unlinked(d, ids, failing) != {} {
      var id :| id in ids && id in d.rows && d.rows[id].audio.Some? && d.rows[id].audio.value !in failing;
      assert d.rows[id].audio.value in Unlinked(d, ids, failing);
      assert AfterDrop(d, ids, failing, dbOk).rows[id] == d.rows[id];
    } else {
      forall id | id in d.rows && d.rows[id].audio.Some? && d.rows[id].audio.value in Unlinked(d, ids, failing)
        ensures id in Bare(d, ids, failing)
      {
      }
    }
  }

  /** A row whose unlink failed keeps its path and its file; every other row asked for is gone, or has lost its audio. */
  lemma FailedUnlinksKeepTheirRows(d: Disk, ids: set<RecordId>, failing: set<AudioFile>, id: RecordId)
    requires Unshared(d) && id in ids && id in d.rows
    ensures var deleted, dropped := AfterDelete(d, ids, failing, true), AfterDrop(d, ids, failing, true);
            if d.rows[id].audio.Some? && d.rows[id].audio.value in failing then
              && id in deleted.rows && deleted.rows[id] == d.rows[id]
              && id in dropped.rows && dropped.rows[id] == d.rows[id]
              && (d.rows[id].audio.value in d.files ==> d.rows[id].audio.value in deleted.files && d.rows[id].audio.value in dropped.files)
            else
              id !in deleted.rows && id in dropped.rows && dropped.rows[id] == d.rows[id].(audio := None)
  {
  }

  /** The rows with audio. */
  function Audible(d: Disk): set<RecordId> { set id | id in d.rows && d.rows[id].audio.Some? }

  /** A delete's count is of the rows that went, and no row or claim of another is touched. */
  lemma DeleteTellsWhatWent(d: Disk, ids: set<RecordId>, failing: set<AudioFile>)
    ensures var e := AfterDelete(d, ids, failing, true);
            && |Bare(d, ids, failing)| == |d.rows| - |e.rows|
            && e.rows.Keys <= d.rows.Keys && d.rows.Keys - ids <= e.rows.Keys
            && forall id :: id in e.rows ==> e.rows[id] == d.rows[id]
  {
    var gone := Bare(d, ids, failing);
    assert (d.rows - gone).Keys == d.rows.Keys - gone;
    assert |d.rows - gone| == |(d.rows - gone).Keys| && |d.rows| == |d.rows.Keys|;
  }

  lemma DropTouches(d: Disk, ids: set<RecordId>, failing: set<AudioFile>, id: RecordId)
    requires id in d.rows
    ensures var e := AfterDrop(d, ids, failing, true);
            id in e.rows && e.rows[id] == if id in Freed(d, ids, failing) then d.rows[id].(audio := None) else d.rows[id]
  {
  }

  /** A drop's count is of the rows that lost their audio path; nothing else of any row changes. */
  lemma DropTellsWhatWent(d: Disk, ids: set<RecordId>, failing: set<AudioFile>)
    ensures var e := AfterDrop(d, ids, failing, true);
            && |Freed(d, ids, failing)| == |Audible(d)| - |Audible(e)|
            && Audible(d) - ids <= Audible(e) <= Audible(d) && e.rows.Keys == d.rows.Keys
            && forall id :: id in d.rows ==> e.rows[id] == if id in Audible(e) then d.rows[id] else d.rows[id].(audio := None)
  {
    var e := AfterDrop(d, ids, failing, true);
    assert e.rows.Keys == d.rows.Keys;
    forall id | id in d.rows ensures id in Audible(e) <==> id in Audible(d) && id !in Freed(d, ids, failing) {
      DropTouches(d, ids, failing, id);
    }
    forall id | id in d.rows ensures e.rows[id] == if id in Audible(e) then d.rows[id] else d.rows[id].(audio := None) {
      DropTouches(d, ids, failing, id);
    }
    assert Audible(e) == Audible(d) - Freed(d, ids, failing);
  }

  /** A retry without faults finishes a delete that had any. */
  lemma RetryFinishesDelete(d: Disk, ids: set<RecordId>, failing: set<AudioFile>, dbOk: bool)
    ensures AfterDelete(AfterDelete(d, ids, failing, dbOk), ids, {}, true) == AfterDelete(d, ids, {}, true)
  {
    var m := AfterDelete(d, ids, failing, dbOk);
    assert m.rows - Bare(m, ids, {}) == d.rows - Bare(d, ids, {});
    assert Unlinked(m, ids, {}) + Unlinked(d, ids, failing) == Unlinked(d, ids, {});
    assert m.files - Unlinked(m, ids, {}) == d.files - Unlinked(d, ids, {});
  }

  /** A retry without faults finishes a drop that had any. */
  lemma RetryFinishesDrop(d: Disk, ids: set<RecordId>, failing: set<AudioFile>, dbOk: bool)
    ensures AfterDrop(AfterDrop(d, ids, failing, dbOk), ids, {}, true) == AfterDrop(d, ids, {}, true)
  {
    var m := AfterDrop(d, ids, failing, dbOk);
    assert Unlinked(m, ids, {}) + Unlinked(d, ids, failing) == Unlinked(d, ids, {});
    assert m.files - Unlinked(m, ids, {}) == d.files - Unlinked(d, ids, {});
  }

  // -------------------------------------------------------------------
  // Listings of the table
  // -------------------------------------------------------------------

  datatype Pair = Pair(id: RecordId, audio: Option<AudioFile>)

  /** The rows among `ids`, each once, in whatever order the table gives them. */
  ghost predicate Lists(rows: map<RecordId, Row>, ids: set<RecordId>, pairs: seq<Pair>) {
    && (forall p :: p in pairs ==> p.id in ids && p.id in rows && p.audio == rows[p.id].audio)
    && (forall id :: id in ids && id in rows ==> Pair(id, rows[id].audio) in pairs)
    && Distinct(pairs)
  }

  ghost predicate Distinct(pairs: seq<Pair>) {
    forall i, j :: 0 <= i < j < |pairs| ==> pairs[i].id != pairs[j].id
  }

  /** This row's file can be unlinked. */
  predicate Unlinks(p: Pair, failing: set<AudioFile>) { p.audio.Some? && p.audio.value !in failing }

  /** Progress in unlinking listed files: the disk, the rows left without a file, those that lost theirs, the states passed. */
  datatype Progress = Progress(disk: Disk, safe: set<RecordId>, freed: set<RecordId>, removed: nat, trail: seq<Disk>)

  function OneMore(q: Progress, p: Pair, failing: set<AudioFile>): Progress {
    if p.audio.None? then q.(safe := q.safe + {p.id})
    else if p.audio.value in failing then q.(trail := q.trail + [q.disk])
    else
      var disk := Disk(q.disk.rows, q.disk.files - {p.audio.value});
      Progress(disk, q.safe + {p.id}, q.freed + {p.id}, q.removed + 1, q.trail + [disk])
  }

  function Tried(d: Disk, pairs: seq<Pair>, n: nat, failing: set<AudioFile>): Progress
    requires n <= |pairs|
  {
    if n == 0 then Progress(d, {}, {}, 0, []) else OneMore(Tried(d, pairs, n - 1, failing), pairs[n - 1], failing)
  }

  /** Which files and rows the first `n` listed pairs account for. */
  lemma {:induction false} TriedMembers(d: Disk, pairs: seq<Pair>, n: nat, failing: set<AudioFile>)
    requires n <= |pairs|
    ensures var q := Tried(d, pairs, n, failing);
            && q.disk.rows == d.rows
            && q.disk.files.Keys <= d.files.Keys && (forall f :: f in q.disk.files ==> q.disk.files[f] == d.files[f])
            && (forall f :: f in d.files && f !in q.disk.files ==> exists i :: 0 <= i < n && Unlinks(pairs[i], failing) && pairs[i].audio.value == f)
            && (forall i :: 0 <= i < n && Unlinks(pairs[i], failing) ==> pairs[i].audio.value !in q.disk.files)
            && (forall id :: id in q.safe <==> exists i :: 0 <= i < n && (pairs[i].audio.None? || Unlinks(pairs[i], failing)) && pairs[i].id == id)
            && (forall id :: id in q.freed <==> exists i :: 0 <= i < n && Unlinks(pairs[i], failing) && pairs[i].id == id)
  {
    if n > 0 {
      TriedMembers(d, pairs, n - 1, failing);
    }
  }

  lemma {:induction false} FreedWereListed(d: Disk, pairs: seq<Pair>, n: nat, failing: set<AudioFile>, id: RecordId)
    requires n <= |pairs| && id in Tried(d, pairs, n, failing).freed
    ensures exists i :: 0 <= i < n && pairs[i].id == id
  {
    if id in Tried(d, pairs, n - 1, failing).freed {
      FreedWereListed(d, pairs, n - 1, failing, id);
    }
  }

  lemma {:induction false} RemovedCounts(d: Disk, pairs: seq<Pair>, n: nat, failing: set<AudioFile>)
    requires n <= |pairs| && Distinct(pairs)
    ensures Tried(d, pairs, n, failing).removed == |Tried(d, pairs, n, failing).freed|
  {
    if n > 0 {
      RemovedCounts(d, pairs, n - 1, failing);
      var q := Tried(d, pairs, n - 1, failing);
      if pairs[n - 1].id in q.freed {
        FreedWereListed(d, pairs, n - 1, failing, pairs[n - 1].id);
      }
    }
  }

  lemma ListedPairs(rows: map<RecordId, Row>, ids: set<RecordId>, pairs: seq<Pair>, id: RecordId)
    requires Lists(rows, ids, pairs)
    ensures id in ids && id in rows <==> exists i :: 0 <= i < |pairs| && pairs[i].id == id
    ensures forall i :: 0 <= i < |pairs| && pairs[i].id == id ==> id in rows && pairs[i].audio == rows[id].audio
  {
    if id in ids && id in rows {
      assert Pair(id, rows[id].audio) in pairs;
    }
    assert forall i :: 0 <= i < |pairs| ==> pairs[i] in pairs;
  }

  /** Over a whole listing, the progress is what the operations are specified with. */
  lemma TriedAllRows(d: Disk, ids: set<RecordId>, pairs: seq<Pair>, failing: set<AudioFile>)
    requires Lists(d.rows, ids, pairs)
    ensures var q := Tried(d, pairs, |pairs|, failing);
            && q.safe == Bare(d, ids, failing)
            && q.freed == Freed(d, ids, failing)
            && q.removed == |Freed(d, ids, failing)|
  {
    TriedMembers(d, pairs, |pairs|, failing);
    RemovedCounts(d, pairs, |pairs|, failing);
    var q := Tried(d, pairs, |pairs|, failing);
    forall id ensures (id in q.safe <==> id in Bare(d, ids, failing)) && (id in q.freed <==> id in Freed(d, ids, failing)) {
      ListedPairs(d.rows, ids, pairs, id);
    }
  }

  lemma TriedAllFiles(d: Disk, ids: set<RecordId>, pairs: seq<Pair>, failing: set<AudioFile>)
    requires Lists(d.rows, ids, pairs)
    ensures Tried(d, pairs, |pairs|, failing).disk == Disk(d.rows, d.files - Unlinked(d, ids, failing))
  {
    TriedMembers(d, pairs, |pairs|, failing);
    forall id | id in ids && id in d.rows ensures exists i :: 0 <= i < |pairs| && pairs[i] == Pair(id, d.rows[id].audio) {
      assert Pair(id, d.rows[id].audio) in pairs;
    }
    assert forall i :: 0 <= i < |pairs| ==> pairs[i] in pairs;
  }

  lemma {:induction false} TrailIsPartway(d: Disk, ids: set<RecordId>, pairs: seq<Pair>, n: nat, failing: set<AudioFile>)
    requires Lists(d.rows, ids, pairs) && n <= |pairs|
    ensures var trail := Tried(d, pairs, n, failing).trail;
            forall k :: 0 <= k < |trail| ==> Partway(d, trail[k], ids)
  {
    if n > 0 {
      TrailIsPartway(d, ids, pairs, n - 1, failing);
      TriedMembers(d, pairs, n, failing);
      assert forall i :: 0 <= i < |pairs| ==> pairs[i] in pairs;
      assert Partway(d, Tried(d, pairs, n, failing).disk, ids);
      OneMoreTrail(d, pairs, n, failing);
    }
  }

  lemma OneMoreTrail(d: Disk, pairs: seq<Pair>, n: nat, failing: set<AudioFile>)
    requires 0 < n <= |pairs|
    ensures var q, r := Tried(d, pairs, n - 1, failing), Tried(d, pairs, n, failing);
            r.trail == if pairs[n - 1].audio.None? then q.trail else q.trail + [r.disk]
  {
  }

  // -------------------------------------------------------------------
  // The store
  // -------------------------------------------------------------------

  /** A record to be created, with the size its recording will have on disk, if there is one to write. */
  datatype Entry = Entry(id: RecordId, row: Row, file: AudioFile, size: Option<nat>)

  /**
   How a create went: the sizes the file grew through before its write ended, whether the write succeeded,
   and whether the insert and the unlink worked. A write that fails leaves the file as it last grew.
   */
  datatype Course = Course(growth: seq<nat>, written: bool, inserted: bool, unlinked: bool)

  datatype Fault = Database | Io

  /** What goes wrong during one call: the query, the unlinking of some files, the final statement. */
  datatype Faults = Faults(lookup: bool, unlink: set<AudioFile>, statement: bool)

  /** Where a create can stop: while its file grows, once the write has ended, or when all is done. */
  datatype Stop = Writing(size: nat) | Wrote | Ended

  /** The file the write leaves behind, if any. */
  function Left(e: Entry, c: Course): Option<nat> {
    if e.size.None? || c.written then e.size
    else if c.growth == [] then None
    else Some(c.growth[|c.growth| - 1])
  }

  /** The disk a create leaves when it stops there. */
  function StoppedCreate(d: Disk, e: Entry, c: Course, stop: Stop): Disk {
    var left := Left(e, c);
    var wrote := if left.Some? then d.files[e.file := left.value] else d.files;
    match stop
    case Writing(size) => Disk(d.rows, d.files[e.file := size])
    case Wrote => Disk(d.rows, wrote)
    case Ended =>
      if e.size.Some? && c.written then
        if c.inserted then Disk(d.rows[e.id := e.row.(audio := Some(e.file))], wrote)
        else Disk(d.rows, if c.unlinked then wrote - {e.file} else wrote)
      else Disk(if c.inserted then d.rows[e.id := e.row.(audio := None)] else d.rows, wrote)
  }

  /** Every state a create passes, in order: each size of the growing file, the end of the write, the insert or the unlink. */
  function CreateTrail(d: Disk, e: Entry, c: Course): seq<Disk> {
    (if e.size.Some? then WriteTrail(d, e, c) else [])
    + (if c.inserted || (e.size.Some? && c.written) then [StoppedCreate(d, e, c, Ended)] else [])
  }

  function WriteTrail(d: Disk, e: Entry, c: Course): seq<Disk> {
    Growing(d, e, c) + [StoppedCreate(d, e, c, Wrote)]
  }

  function Growing(d: Disk, e: Entry, c: Course): seq<Disk> {
    seq(|c.growth|, i requires 0 <= i < |c.growth| => StoppedCreate(d, e, c, Writing(c.growth[i])))
  }

  /** A stop at which the recording is on disk and no row will claim it. */
  predicate Abandons(e: Entry, c: Course, stop: Stop) {
    e.size.Some? &&
    match stop
    case Writing(_) => true
    case Wrote => c.written || c.growth != []
    case Ended => if c.written then !c.inserted && !c.unlinked else c.growth != []
  }

  /** The only file a create adds is its own, and it disturbs no row. */
  lemma CreateKeepsOthers(d: Disk, e: Entry, c: Course, stop: Stop)
    requires e.id !in d.rows && e.file !in d.files && (stop.Writing? ==> e.size.Some?)
    ensures var m := StoppedCreate(d, e, c, stop);
            && m.rows.Keys - {e.id} == d.rows.Keys && (forall id :: id in d.rows ==> m.rows[id] == d.rows[id])
            && m.files.Keys - {e.file} == d.files.Keys
            && (e.id in m.rows ==> m.rows[e.id].audio == if e.size.Some? && c.written then Some(e.file) else None)
    ensures var m := StoppedCreate(d, e, c, stop);
            e.file in m.files && !(e.id in m.rows && m.rows[e.id].audio == Some(e.file)) <==> Abandons(e, c, stop)
  {
  }

  /**
   A create that runs to its end has put its row in exactly when the insert worked: the row asked for,
   with the file as its audio exactly when the recording was written, and then with that file whole on
   disk. Every other row and file is as it was.
   */
  lemma CreateInserts(d: Disk, e: Entry, c: Course)
    requires e.id !in d.rows && e.file !in d.files
    ensures var m := StoppedCreate(d, e, c, Ended);
            var heard := e.size.Some? && c.written;
            && (e.id in m.rows <==> c.inserted)
            && (c.inserted ==> m.rows[e.id] == Row(e.row.createdAt, e.row.instant, if heard then Some(e.file) else None))
            && (c.inserted && heard ==> e.file in m.files && m.files[e.file] == e.size.value)
            && (e.file in m.files ==> heard || (e.size.Some? && c.growth != []))
            && (forall id :: id != e.id ==> (id in m.rows <==> id in d.rows))
            && (forall id :: id in d.rows ==> m.rows[id] == d.rows[id])
            && (forall f :: f != e.file ==> (f in m.files <==> f in d.files))
            && (forall f :: f in d.files ==> f in m.files && m.files[f] == d.files[f])
  {
  }

  /**
   A create that stops anywhere orphans a file in exactly these cases: it stops while the file is being
   written; it stops after a write that left a file and before the row is in; the write failed and left
   part of the file; or the file was written and both the insert and the unlink that makes up for it
   failed.
   */
  lemma CreateOrphans(d: Disk, e: Entry, c: Course, stop: Stop)
    requires NoOrphan(d) && e.id !in d.rows && e.file !in d.files && (stop.Writing? ==> e.size.Some?)
    requires forall other :: other in d.rows ==> d.rows[other].audio != Some(e.file)
    ensures NoOrphan(StoppedCreate(d, e, c, stop)) <==> !Abandons(e, c, stop)
  {
    var m := StoppedCreate(d, e, c, stop);
    CreateKeepsOthers(d, e, c, stop);
    forall f | f in d.files ensures exists other :: other in m.rows && m.rows[other].audio == Some(f) {
      var other :| other in d.rows && d.rows[other].audio == Some(f);
      assert other in m.rows && m.rows[other].audio == Some(f);
    }
    forall f | f in m.files && f != e.file ensures f in d.files {
      assert f in m.files.Keys - {e.file};
    }
    forall other | other in m.rows && other != e.id ensures other in d.rows {
      assert other in m.rows.Keys - {e.id};
    }
  }

  class History {
    var rows: map<RecordId, Row>
    var files: map<AudioFile, nat>
    /** Every state the disk has passed through: the places where a process can die. */
    ghost var passed: seq<Disk>

    ghost function View(): Disk
      reads this
    {
      Disk(rows, files)
    }

    constructor ()
      ensures View() == Disk(map[], map[]) && passed == [View()]
    {
      rows, files := map[], map[];
      passed := [Disk(map[], map[])];
    }

    /** A missing file is success. */
    method TryRemoveAudio(f: AudioFile, failing: set<AudioFile>) returns (ok: bool)
      modifies this`files, this`passed
      ensures ok == (f !in failing)
      ensures files == if ok then old(files) - {f} else old(files)
      ensures passed == old(passed) + [View()]
    {
      ok := f !in failing;
      if ok {
        files := files - {f};
      }
      passed := passed + [View()];
    }

    method LookupAudioPaths(ids: set<RecordId>) returns (pairs: seq<Pair>)
      ensures Lists(rows, ids, pairs)
    {
      pairs := [];
      var rest := ids * rows.Keys;
      while rest != {}
        invariant rest <= ids * rows.Keys
        invariant Lists(rows, ids - rest, pairs)
        decreases |rest|
      {
        var id :| id in rest;
        pairs := pairs + [Pair(id, rows[id].audio)];
        rest := rest - {id};
      }
    }

    /** Unlink each listed row's file; the ids whose rows are then free of any file. */
    method RemoveFiles(pairs: seq<Pair>, failing: set<AudioFile>) returns (safe: set<RecordId>, removed: nat)
      modifies this`files, this`passed
      ensures var q := Tried(old(View()), pairs, |pairs|, failing);
              View() == q.disk && safe == q.safe && removed == q.removed && passed == old(passed) + q.trail
    {
      safe, removed := {}, 0;
      var i := 0;
      while i < |pairs|
        invariant 0 <= i <= |pairs|
        invariant var q := Tried(old(View()), pairs, i, failing);
                  View() == q.disk && safe == q.safe && removed == q.removed && passed == old(passed) + q.trail
      {
        if pairs[i].audio.None? {
          safe := safe + {pairs[i].id};
        } else {
          var ok := TryRemoveAudio(pairs[i].audio.value, failing);
          if ok {
            safe := safe + {pairs[i].id};
            removed := removed + 1;
          }
        }
        i := i + 1;
      }
    }

    /** `DELETE FROM records WHERE id IN (…)`. */
    method DeleteRows(safe: set<RecordId>, fails: bool) returns (r: Result<nat, Fault>)
      modifies this`rows, this`passed
      ensures rows == if fails then old(rows) else old(rows) - safe
      ensures r == if fails then Err(Database) else Ok(|safe * old(rows).Keys|)
      ensures passed == old(passed) + [View()]
    {
      if fails {
        r := Err(Database);
      } else {
        r := Ok(|safe * rows.Keys|);
        rows := rows - safe;
      }
      passed := passed + [View()];
    }

    method Delete(id: RecordId, faults: Faults) returns (r: Result<bool, Fault>)
      modifies this
      ensures View() == if faults.lookup then old(View()) else AfterDelete(old(View()), {id}, faults.unlink, !faults.statement)
      ensures r == if faults.lookup then Err(Database)
                   else if id !in old(rows) then Ok(false)
                   else if id !in Bare(old(View()), {id}, faults.unlink) then Err(Io)
                   else if faults.statement then Err(Database) else Ok(true)
      ensures Passes(old(passed), passed, old(View()), View(), {id})
    {
      if faults.lookup {
        return Err(Database);
      }
      if id !in rows {
        assert AfterDelete(View(), {id}, faults.unlink, !faults.statement) == View();
        return Ok(false);
      }
      DeletingOne(View(), id, faults.unlink, !faults.statement);
      if rows[id].audio.Some? {
        var ok := TryRemoveAudio(rows[id].audio.value, faults.unlink);
        if !ok {
          return Err(Io);
        }
      }
      var deleted := DeleteRows({id}, faults.statement);
      r := if deleted.Ok? then Ok(true) else Err(Database);
    }

    method DeleteMany(ids: seq<RecordId>, faults: Faults) returns (r: Result<nat, Fault>)
      modifies this
      ensures var asked := set id | id in ids;
              && Passes(old(passed), passed, old(View()), View(), asked)
              && if ids == [] then View() == old(View()) && r == Ok(0)
                 else if faults.lookup then View() == old(View()) && r == Err(Database)
                 else
                   && View() == AfterDelete(old(View()), asked, faults.unlink, !faults.statement)
                   && r == if faults.statement && Bare(old(View()), asked, faults.unlink) != {} then Err(Database)
                           else Ok(|Bare(old(View()), asked, faults.unlink)|)
    {
      if ids == [] {
        return Ok(0);
      }
      if faults.lookup {
        return Err(Database);
      }
      var asked := set id | id in ids;
      var pairs := LookupAudioPaths(asked);
      var safe, removed := RemoveFiles(pairs, faults.unlink);
      TriedAllRows(old(View()), asked, pairs, faults.unlink);
      TriedAllFiles(old(View()), asked, pairs, faults.unlink);
      TrailIsPartway(old(View()), asked, pairs, |pairs|, faults.unlink);
      if safe == {} {
        return Ok(0);
      }
      r := DeleteRows(safe, faults.statement);
      assert safe * old(rows).Keys == safe;
    }

    method DeleteAll(faults: Faults) returns (r: Result<(nat, nat), Fault>)
      modifies this
      ensures var asked := old(rows).Keys;
              && Passes(old(passed), passed, old(View()), View(), asked)
              && if faults.lookup then View() == old(View()) && r == Err(Database)
                 else
                   && View() == AfterDelete(old(View()), asked, faults.unlink, !faults.statement)
                   && r == if faults.statement && Bare(old(View()), asked, faults.unlink) != {} then Err(Database)
                           else Ok((|Bare(old(View()), asked, faults.unlink)|, |Freed(old(View()), asked, faults.unlink)|))
    {
      if faults.lookup {
        return Err(Database);
      }
      ghost var asked := rows.Keys;
      var pairs := LookupAudioPaths(rows.Keys);
      var safe, removed := RemoveFiles(pairs, faults.unlink);
      TriedAllRows(old(View()), asked, pairs, faults.unlink);
      TriedAllFiles(old(View()), asked, pairs, faults.unlink);
      TrailIsPartway(old(View()), asked, pairs, |pairs|, faults.unlink);
      if safe == {} {
        return Ok((0, removed));
      }
      var deleted := DeleteRows(safe, faults.statement);
      assert safe * old(rows).Keys == safe;
      r := if deleted.Ok? then Ok((deleted.value, removed)) else Err(Database);
    }

    /** The unlinking loop of `DropAudios`: the rows that had a file and lost it. */
    method UnlinkAudios(pairs: seq<Pair>, failing: set<AudioFile>) returns (updated: set<RecordId>)
      modifies this`files, this`passed
      ensures var q := Tried(old(View()), pairs, |pairs|, failing);
              View() == q.disk && updated == q.freed && passed == old(passed) + q.trail
    {
      updated := {};
      var i := 0;
      while i < |pairs|
        invariant 0 <= i <= |pairs|
        invariant var q := Tried(old(View()), pairs, i, failing);
                  View() == q.disk && updated == q.freed && passed == old(passed) + q.trail
      {
        if pairs[i].audio.Some? {
          var ok := TryRemoveAudio(pairs[i].audio.value, failing);
          if ok {
            updated := updated + {pairs[i].id};
          }
        }
        i := i + 1;
      }
    }

    /** `UPDATE records SET audio_path = NULL WHERE id IN (…) AND audio_path IS NOT NULL`. */
    method NullAudioPaths(updated: set<RecordId>, fails: bool) returns (r: Result<nat, Fault>)
      requires forall id :: id in updated ==> id in rows && rows[id].audio.Some?
      modifies this`rows, this`passed
      ensures rows == if fails then old(rows) else Cleared(old(rows), updated)
      ensures r == if fails then Err(Database) else Ok(|updated|)
      ensures passed == old(passed) + [View()]
    {
      if fails {
        r := Err(Database);
      } else {
        rows := Cleared(rows, updated);
        r := Ok(|updated|);
      }
      passed := passed + [View()];
    }

    /** Unlink each file asked for and clear the paths of the rows that had one unlinked. */
    method DropAudios(ids: seq<RecordId>, faults: Faults) returns (r: Result<nat, Fault>)
      modifies this
      ensures var asked := set id | id in ids;
              && Passes(old(passed), passed, old(View()), View(), asked)
              && if ids == [] then View() == old(View()) && r == Ok(0)
                 else if faults.lookup then View() == old(View()) && r == Err(Database)
                 else
                   && View() == AfterDrop(old(View()), asked, faults.unlink, !faults.statement)
                   && r == if faults.statement && Freed(old(View()), asked, faults.unlink) != {} then Err(Database)
                           else Ok(|Freed(old(View()), asked, faults.unlink)|)
    {
      if ids == [] {
        return Ok(0);
      }
      if faults.lookup {
        return Err(Database);
      }
      var asked := set id | id in ids;
      var pairs := LookupAudioPaths(asked);
      var updated := UnlinkAudios(pairs, faults.unlink);
      TriedAllRows(old(View()), asked, pairs, faults.unlink);
      TriedAllFiles(old(View()), asked, pairs, faults.unlink);
      TrailIsPartway(old(View()), asked, pairs, |pairs|, faults.unlink);
      ClearingFreed(old(View()), asked, faults.unlink);
      if updated == {} {
        return Ok(0);
      }
      r := NullAudioPaths(updated, faults.statement);
    }

    /** Write the recording, whatever comes of it; the file's name if the write succeeded. */
    method WriteRecording(e: Entry, c: Course) returns (audio: Option<AudioFile>)
      requires e.size.Some?
      modifies this`files, this`passed
      ensures View() == StoppedCreate(old(View()), e, c, Wrote)
      ensures audio == if c.written then Some(e.file) else None
      ensures passed == old(passed) + WriteTrail(old(View()), e, c)
    {
      passed := passed + Growing(View(), e, c);
      if c.written {
        files := files[e.file := e.size.value];
        audio := Some(e.file);
      } else {
        if c.growth != [] {
          files := files[e.file := c.growth[|c.growth| - 1]];
        }
        audio := None;
      }
      passed := passed + [View()];
    }

    /** Write the recording, then insert the row; if the insert fails, unlink what was written. */
    method Create(e: Entry, c: Course) returns (r: Result<RecordId, Fault>)
      requires e.id !in rows && e.file !in files
      modifies this
      ensures View() == StoppedCreate(old(View()), e, c, Ended)
      ensures r == if c.inserted then Ok(e.id) else Err(Database)
      ensures r.Ok? ==> rows == old(rows)[e.id := e.row.(audio := if e.size.Some? && c.written then Some(e.file) else None)]
      ensures r.Err? ==> rows == old(rows)
      ensures passed == old(passed) + CreateTrail(old(View()), e, c)
    {
      var audio := None;
      if e.size.Some? {
        audio := WriteRecording(e, c);
      }
      if !c.inserted {
        if audio.Some? {
          var _ := TryRemoveAudio(audio.value, if c.unlinked then {} else {audio.value});
        }
        return Err(Database);
      }
      rows := rows[e.id := e.row.(audio := audio)];
      passed := passed + [View()];
      r := Ok(e.id);
    }

    // -----------------------------------------------------------------
    // The retention sweep
    // -----------------------------------------------------------------

    method ListRecordCandidates() returns (s: seq<Candidate>)
      ensures ListsRecords(View(), s)
    {
      s := [];
      var rest := rows.Keys;
      while rest != {}
        invariant rest <= rows.Keys
        invariant DistinctIds(s)
        invariant forall c :: c in s ==> c.id in rows && c.id !in rest && c == RecordCandidate(c.id, rows[c.id])
        invariant forall id :: id in rows && id !in rest ==> RecordCandidate(id, rows[id]) in s
        decreases |rest|
      {
        var id :| id in rest;
        s := s + [RecordCandidate(id, rows[id])];
        rest := rest - {id};
      }
    }

    method ListAudioCandidates() returns (s: seq<Candidate>)
      ensures ListsAudios(View(), s)
    {
      s := [];
      var rest := set id | id in rows && rows[id].audio.Some?;
      while rest != {}
        invariant forall id :: id in rest ==> id in rows && rows[id].audio.Some?
        invariant DistinctIds(s)
        invariant forall c :: c in s ==>
                    c.id in rows && c.id !in rest && rows[c.id].audio.Some? && c == AudioCandidate(files, c.id, rows[c.id])
        invariant forall id :: id in rows && rows[id].audio.Some? && id !in rest ==> AudioCandidate(files, id, rows[id]) in s
        decreases |rest|
      {
        var id :| id in rest;
        s := s + [AudioCandidate(files, id, rows[id])];
        rest := rest - {id};
      }
    }

    /** Gather, select, delete; an error counts as nothing deleted. */
    method SweepRecords(policy: Policy, now: int, listFails: bool, faults: Faults) returns (deleted: nat)
      modifies this
      ensures if listFails then View() == old(View()) && deleted == 0
              else SweptRecords(old(View()), View(), deleted, policy, now, faults)
    {
      if listFails {
        return 0;
      }
      var s := ListRecordCandidates();
      var ids := SelectToDelete(s, policy, now);
      ghost var dropped := Selected(s, policy, now);
      IdsAreIdSet(dropped);
      var r := DeleteMany(ids, faults);
      deleted := if r.Ok? then r.value else 0;
      assert SweepsRecords(old(View()), s, View(), deleted, policy, now, faults);
    }

    /** Gather, select, drop audio; an error counts as nothing dropped. */
    method SweepAudios(policy: Policy, now: int, listFails: bool, faults: Faults) returns (dropped: nat)
      modifies this
      ensures if listFails then View() == old(View()) && dropped == 0
              else SweptAudios(old(View()), View(), dropped, policy, now, faults)
    {
      if listFails {
        return 0;
      }
      var s := ListAudioCandidates();
      var ids := SelectToDelete(s, policy, now);
      IdsAreIdSet(Selected(s, policy, now));
      var r := DropAudios(ids, faults);
      dropped := if r.Ok? then r.value else 0;
      assert SweepsAudios(old(View()), s, View(), dropped, policy, now, faults);
    }

    /** Both branches run, whether or not the first one fails. */
    method RunRetentionSweep(recordPolicy: Policy, audioPolicy: Policy, now: int, records: Faulty, audios: Faulty)
      returns (deleted: nat, dropped: nat)
      modifies this
      ensures exists m :: RecordsThenAudios(old(View()), m, View(), deleted, dropped, recordPolicy, audioPolicy, now, records, audios)
    {
      deleted := SweepRecords(recordPolicy, now, records.list, records.faults);
      ghost var m := View();
      dropped := SweepAudios(audioPolicy, now, audios.list, audios.faults);
      assert RecordsThenAudios(old(View()), m, View(), deleted, dropped, recordPolicy, audioPolicy, now, records, audios);
    }
  }

  function Cleared(rows: map<RecordId, Row>, ids: set<RecordId>): map<RecordId, Row> {
    map id | id in rows :: if id in ids then rows[id].(audio := None) else rows[id]
  }

  /** Clearing only the rows that lost a file is all a drop has to do. */
  lemma ClearingFreed(d: Disk, ids: set<RecordId>, failing: set<AudioFile>)
    ensures AfterDrop(d, ids, failing, true).rows == Cleared(d.rows, Freed(d, ids, failing))
    ensures Freed(d, ids, failing) == {} ==> AfterDrop(d, ids, failing, true).rows == d.rows
    ensures AfterDrop(d, ids, failing, false).rows == d.rows
  {
  }

  /** Deleting one row: what the general delete comes to. */
  lemma DeletingOne(d: Disk, id: RecordId, failing: set<AudioFile>, dbOk: bool)
    requires id in d.rows
    ensures var audio := d.rows[id].audio;
            var fails := audio.Some? && audio.value in failing;
            && Bare(d, {id}, failing) == (if fails then {} else {id})
            && (AfterDelete(d, {id}, failing, dbOk) ==
                if fails then d
                else Disk(if dbOk then d.rows - {id} else d.rows, if audio.Some? then d.files - {audio.value} else d.files))
            && (audio.Some? ==> Partway(d, d, {id}) && Partway(d, Disk(d.rows, d.files - {audio.value}), {id}))
  {
    var audio := d.rows[id].audio;
    if audio.Some? {
      assert audio.value in Unlinked(d, {id}, {});
      if audio.value !in failing {
        assert Unlinked(d, {id}, failing) == {audio.value};
      }
    }
    assert d.files - {} == d.files && d.rows - {} == d.rows;
  }

  // -------------------------------------------------------------------
  // Gathering candidates
  // -------------------------------------------------------------------

  function RecordCandidate(id: RecordId, row: Row): Candidate {
    Candidate(id, row.createdAt, row.instant, None)
  }

  /** A file that is gone counts as empty, so that its row still comes up. */
  function FileSize(files: map<AudioFile, nat>, f: AudioFile): nat {
    if f in files then files[f] else 0
  }

  function AudioCandidate(files: map<AudioFile, nat>, id: RecordId, row: Row): Candidate
    requires row.audio.Some?
  {
    Candidate(id, row.createdAt, row.instant, Some(FileSize(files, row.audio.value)))
  }

  ghost predicate ListsRecords(d: Disk, s: seq<Candidate>) {
    && DistinctIds(s)
    && (forall c :: c in s ==> c.id in d.rows && c == RecordCandidate(c.id, d.rows[c.id]))
    && (forall id :: id in d.rows ==> RecordCandidate(id, d.rows[id]) in s)
  }

  ghost predicate ListsAudios(d: Disk, s: seq<Candidate>) {
    && DistinctIds(s)
    && (forall c :: c in s ==> c.id in d.rows && d.rows[c.id].audio.Some? && c == AudioCandidate(d.files, c.id, d.rows[c.id]))
    && (forall id :: id in d.rows && d.rows[id].audio.Some? ==> AudioCandidate(d.files, id, d.rows[id]) in s)
  }

  lemma IdsAreIdSet(s: seq<Candidate>)
    ensures (set id | id in Ids(s)) == IdSet(s)
  {
    forall c | c in s ensures c.id in Ids(s) {
      var i :| 0 <= i < |s| && s[i] == c;
      assert Ids(s)[i] == c.id;
    }
    forall id | id in Ids(s) ensures id in IdSet(s) {
      var i :| 0 <= i < |s| && Ids(s)[i] == id;
      assert s[i] in s;
    }
  }

  /** `e` is what a record sweep over the listing `s` leaves, and `deleted` what it reports. */
  ghost predicate SweepsRecords(d: Disk, s: seq<Candidate>, e: Disk, deleted: nat, policy: Policy, now: int, faults: Faults) {
    var dropped := IdSet(Selected(s, policy, now));
    && ListsRecords(d, s)
    && if faults.lookup then e == d && deleted == 0
       else
         && e == AfterDelete(d, dropped, faults.unlink, !faults.statement)
         && deleted == if faults.statement then 0 else |Bare(d, dropped, faults.unlink)|
  }

  ghost predicate SweptRecords(d: Disk, e: Disk, deleted: nat, policy: Policy, now: int, faults: Faults) {
    exists s :: SweepsRecords(d, s, e, deleted, policy, now, faults)
  }

  ghost predicate SweepsAudios(d: Disk, s: seq<Candidate>, e: Disk, dropped: nat, policy: Policy, now: int, faults: Faults) {
    var chosen := IdSet(Selected(s, policy, now));
    && ListsAudios(d, s)
    && if faults.lookup then e == d && dropped == 0
       else
         && e == AfterDrop(d, chosen, faults.unlink, !faults.statement)
         && dropped == if faults.statement then 0 else |Freed(d, chosen, faults.unlink)|
  }

  ghost predicate SweptAudios(d: Disk, e: Disk, dropped: nat, policy: Policy, now: int, faults: Faults) {
    exists s :: SweepsAudios(d, s, e, dropped, policy, now, faults)
  }

  /** One branch of a sweep goes wrong in its enumeration or in the delete or drop it ends in. */
  datatype Faulty = Faulty(list: bool, faults: Faults)

  /** The record branch takes the disk from `d` to `m`, and the audio branch from `m` to `e`. */
  ghost predicate RecordsThenAudios(d: Disk, m: Disk, e: Disk, deleted: nat, dropped: nat, recordPolicy: Policy, audioPolicy: Policy, now: int,
                                    records: Faulty, audios: Faulty) {
    && (if records.list then m == d && deleted == 0 else SweptRecords(d, m, deleted, recordPolicy, now, records.faults))
    && (if audios.list then e == m && dropped == 0 else SweptAudios(m, e, dropped, audioPolicy, now, audios.faults))
  }
}
