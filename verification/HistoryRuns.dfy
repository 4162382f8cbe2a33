/**
 The transcription history over whole runs of creates, deletes and audio drops, any of which may hit
 I/O failures or stop halfway: which runs leave a file that no row claims, and that such a file is
 never reclaimed.
 */
module HistoryRuns {
  import opened Prelude
  import opened Retention
  import opened Histories

  datatype Operation =
    | Creating(entry: Entry, course: Course, stop: Stop)
    | Deleting(ids: set<RecordId>, failing: set<AudioFile>, dbOk: bool)
    | Dropping(ids: set<RecordId>, failing: set<AudioFile>, dbOk: bool)
    | Dying(ids: set<RecordId>, gone: set<AudioFile>)     // a delete or drop that stopped among its unlinks

  /** No row claims the file. */
  ghost predicate Unclaimed(d: Disk, f: AudioFile) {
    forall id :: id in d.rows ==> d.rows[id].audio != Some(f)
  }

  /** A record's id is new, and its file is named after it. */
  ghost predicate Possible(d: Disk, op: Operation) {
    match op
    case Creating(e, _, stop) => e.id !in d.rows && e.file !in d.files && Unclaimed(d, e.file) && (stop.Writing? ==> e.size.Some?)
    case Dying(ids, gone) => gone <= Unlinked(d, ids, {})
    case _ => true
  }

  function Next(d: Disk, op: Operation): Disk {
    match op
    case Creating(e, c, stop) => StoppedCreate(d, e, c, stop)
    case Deleting(ids, failing, dbOk) => AfterDelete(d, ids, failing, dbOk)
    case Dropping(ids, failing, dbOk) => AfterDrop(d, ids, failing, dbOk)
    case Dying(_, gone) => Disk(d.rows, d.files - gone)
  }

  /** A create that leaves its recording behind without a row. */
  predicate Orphans(op: Operation) {
    op.Creating? && Abandons(op.entry, op.course, op.stop)
  }

  ghost predicate ValidRun(d: Disk, run: seq<Operation>)
    decreases |run|
  {
    run == [] || (Possible(d, run[0]) && ValidRun(Next(d, run[0]), run[1..]))
  }

  ghost function After(d: Disk, run: seq<Operation>): Disk
    requires ValidRun(d, run)
    decreases |run|
  {
    if run == [] then d else After(Next(d, run[0]), run[1..])
  }

  // -------------------------------------------------------------------
  // Files belong to one row each
  // -------------------------------------------------------------------

  /** Every row kept its audio, or lost it. */
  ghost predicate RowsFrom(d: Disk, e: Disk) {
    forall id :: id in e.rows && e.rows[id].audio.Some? ==> id in d.rows && e.rows[id].audio == d.rows[id].audio
  }

  lemma RemovalsKeepRows(d: Disk, op: Operation)
    requires !op.Creating?
    ensures RowsFrom(d, Next(d, op))
  {
  }

  lemma StepKeepsUnshared(d: Disk, op: Operation)
    requires Unshared(d) && Possible(d, op)
    ensures Unshared(Next(d, op))
  {
    if op.Creating? {
      CreateKeepsOthers(d, op.entry, op.course, op.stop);
      var m := Next(d, op);
      forall id | id in m.rows && id != op.entry.id ensures id in d.rows {
        assert id in m.rows.Keys - {op.entry.id};
      }
    } else {
      RemovalsKeepRows(d, op);
    }
  }

  // -------------------------------------------------------------------
  // Orphans
  // -------------------------------------------------------------------

  ghost predicate Orphan(d: Disk, f: AudioFile) { f in d.files && Unclaimed(d, f) }

  /** No operation on the history reclaims an orphan. */
  lemma OrphanStays(d: Disk, op: Operation, f: AudioFile)
    requires Orphan(d, f) && Possible(d, op)
    ensures Orphan(Next(d, op), f)
  {
    if op.Creating? {
      CreateKeepsOthers(d, op.entry, op.course, op.stop);
      var m := Next(d, op);
      assert f in m.files.Keys - {op.entry.file};
      forall id | id in m.rows && id != op.entry.id ensures id in d.rows {
        assert id in m.rows.Keys - {op.entry.id};
      }
    } else {
      RemovalsKeepRows(d, op);
    }
  }

  lemma {:induction false} OrphanIsForever(d: Disk, run: seq<Operation>, f: AudioFile)
    requires Orphan(d, f) && ValidRun(d, run)
    ensures Orphan(After(d, run), f)
    decreases |run|
  {
    if run == [] {
      assert After(d, run) == d;
    } else {
      OrphanStays(d, run[0], f);
      OrphanIsForever(Next(d, run[0]), run[1..], f);
    }
  }

  /** From a disk without orphans a step leaves one exactly when it is a create that abandons its file. */
  lemma OrphanStep(d: Disk, op: Operation)
    requires NoOrphan(d) && Possible(d, op)
    ensures NoOrphan(Next(d, op)) <==> !Orphans(op)
  {
    match op
    case Creating(e, c, stop) => CreateOrphans(d, e, c, stop);
    case Deleting(ids, failing, dbOk) => DeleteKeepsNoOrphan(d, ids, failing, dbOk);
    case Dropping(ids, failing, dbOk) => DeleteKeepsNoOrphan(d, ids, failing, dbOk);
    case Dying(ids, gone) => StoppedDelete(d, Next(d, op), ids);
  }

  ghost predicate SomeOrphans(run: seq<Operation>) {
    exists i :: 0 <= i < |run| && Orphans(run[i])
  }

  lemma {:induction false} RunOrphans(d: Disk, run: seq<Operation>)
    requires NoOrphan(d) && ValidRun(d, run)
    ensures NoOrphan(After(d, run)) <==> !SomeOrphans(run)
    decreases |run|
  {
    if run == [] {
      assert After(d, run) == d;
    } else {
      var m := Next(d, run[0]);
      OrphanStep(d, run[0]);
      if Orphans(run[0]) {
        var f :| f in m.files && !exists id :: id in m.rows && m.rows[id].audio == Some(f);
        OrphanIsForever(m, run[1..], f);
      } else {
        RunOrphans(m, run[1..]);
        RestOrphans(run);
      }
    }
  }

  lemma RestOrphans(run: seq<Operation>)
    requires run != [] && !Orphans(run[0])
    ensures SomeOrphans(run) <==> SomeOrphans(run[1..])
  {
    forall i | 0 <= i < |run| && Orphans(run[i]) ensures SomeOrphans(run[1..]) {
      assert run[1..][i - 1] == run[i];
    }
    forall i | 0 <= i < |run[1..]| && Orphans(run[1..][i]) ensures SomeOrphans(run) {
      assert run[i + 1] == run[1..][i];
    }
  }

  lemma {:induction false} RunKeepsUnshared(d: Disk, run: seq<Operation>)
    requires Unshared(d) && ValidRun(d, run)
    ensures Unshared(After(d, run))
    decreases |run|
  {
    if run == [] {
      assert After(d, run) == d;
    } else {
      StepKeepsUnshared(d, run[0]);
      RunKeepsUnshared(Next(d, run[0]), run[1..]);
    }
  }

  /**
   Over every run from an empty history, however its operations fail or stop: no two rows share a
   file, and every file on disk has a row to reclaim it by exactly when no create abandoned one.
   */
  lemma PairingOverEveryRun(run: seq<Operation>)
    requires ValidRun(Disk(map[], map[]), run)
    ensures var d := After(Disk(map[], map[]), run); Unshared(d) && (NoOrphan(d) <==> !SomeOrphans(run))
  {
    RunKeepsUnshared(Disk(map[], map[]), run);
    RunOrphans(Disk(map[], map[]), run);
  }
}
