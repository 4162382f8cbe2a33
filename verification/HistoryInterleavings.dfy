/**
 Creates, deletes and audio drops on the history, interleaved one file operation or statement at a
 time, as no lock is held across them. Which files can be left without a row, and that nothing a
 delete, a drop or a sweep does is ever to blame.
 */
module HistoryInterleavings {
  import opened Prelude
  import opened Retention
  import opened Histories
  import opened HistoryRuns

  /** A create with a recording, named by its file: while it writes, once it has written, and after its insert failed. */
  datatype Making =
    | Recording(id: RecordId, row: Row)
    | Recorded(id: RecordId, row: Row)
    | Undoing(id: RecordId, row: Row)

  /** A delete or a drop after its lookup: what it listed, which of that it has tried to unlink, and which rows it may now touch. */
  datatype Removing = Removing(drops: bool, listed: map<RecordId, Option<AudioFile>>, tried: set<RecordId>, safe: set<RecordId>)

  datatype State = State(
    disk: Disk,
    making: map<AudioFile, Making>,
    plain: map<RecordId, Row>,       // creates about to insert a row without audio
    removing: map<nat, Removing>,
    // What has happened so far.
    ids: set<RecordId>,              // every record id ever given out
    names: set<AudioFile>,           // every file name ever given out
    lost: set<AudioFile>)            // files whose create gave them up

  const EMPTY: State := State(Disk(map[], map[]), map[], map[], map[], {}, {}, {})

  datatype Event =
    | BeginCreate(id: RecordId, row: Row, file: AudioFile)
    | BeginPlain(id: RecordId, row: Row)
    | Grow(file: AudioFile, size: nat)
    | EndWrite(file: AudioFile, ok: bool, size: nat)
    | InsertRow(file: AudioFile, ok: bool)
    | InsertPlain(id: RecordId, ok: bool)
    | Undo(file: AudioFile, ok: bool)
    | AbandonCreate(file: AudioFile)
    | Look(op: nat, drops: bool, ids: set<RecordId>)
    | Unlink(op: nat, id: RecordId, ok: bool)
    | Statement(op: nat, ok: bool)
    | AbandonRemoval(op: nat)

  /** Ids and file names are new, an id is the table's primary key, and the statement follows the last unlink. */
  ghost predicate Enabled(s: State, e: Event) {
    match e
    case BeginCreate(id, _, file) => id !in s.ids && file !in s.names
    case BeginPlain(id, _) => id !in s.ids
    case Grow(file, _) => (file in s.making && s.making[file].Recording?) || file in s.lost
    case EndWrite(file, _, _) => file in s.making && s.making[file].Recording?
    case InsertRow(file, ok) => file in s.making && s.making[file].Recorded? && (ok ==> s.making[file].id !in s.disk.rows)
    case InsertPlain(id, ok) => id in s.plain && (ok ==> id !in s.disk.rows)
    case Undo(file, _) => file in s.making && s.making[file].Undoing?
    case AbandonCreate(file) => file in s.making
    case Look(op, _, _) => op !in s.removing
    case Unlink(op, id, _) => op in s.removing && id in s.removing[op].listed && id !in s.removing[op].tried
    case Statement(op, _) => op in s.removing && s.removing[op].tried == s.removing[op].listed.Keys
    case AbandonRemoval(op) => op in s.removing
  }

  function WithFile(d: Disk, f: AudioFile, size: nat): Disk { d.(files := d.files[f := size]) }

  function WithoutFile(d: Disk, f: AudioFile): Disk { d.(files := d.files - {f}) }

  function WithRow(d: Disk, id: RecordId, row: Row, audio: Option<AudioFile>): Disk { d.(rows := d.rows[id := row.(audio := audio)]) }

  /** What a lookup of the audio paths of `ids` returns. */
  function Listing(d: Disk, ids: set<RecordId>): map<RecordId, Option<AudioFile>> {
    map id | id in d.rows && id in ids :: d.rows[id].audio
  }

  /** What a delete or drop has found out about one listed row. */
  function Tried(r: Removing, id: RecordId, ok: bool): Removing
    requires id in r.listed
  {
    r.(tried := r.tried + {id}, safe := if ok && (r.listed[id].Some? || !r.drops) then r.safe + {id} else r.safe)
  }

  function AfterStatement(d: Disk, r: Removing): Disk {
    d.(rows := if r.drops then Cleared(d.rows, r.safe) else d.rows - r.safe)
  }

  function Apply(s: State, e: Event): State
    requires Enabled(s, e)
  {
    match e
    case BeginCreate(id, row, file) => s.(making := s.making[file := Recording(id, row)], ids := s.ids + {id}, names := s.names + {file})
    case BeginPlain(id, row) => s.(plain := s.plain[id := row], ids := s.ids + {id})
    case Grow(file, size) => s.(disk := WithFile(s.disk, file, size))
    case EndWrite(file, ok, size) =>
      var m := s.making[file];
      if ok then s.(disk := WithFile(s.disk, file, size), making := s.making[file := Recorded(m.id, m.row)])
      else s.(making := s.making - {file}, plain := s.plain[m.id := m.row], lost := s.lost + {file})
    case InsertRow(file, ok) =>
      var m := s.making[file];
      if ok then s.(disk := WithRow(s.disk, m.id, m.row, Some(file)), making := s.making - {file})
      else s.(making := s.making[file := Undoing(m.id, m.row)])
    case InsertPlain(id, ok) =>
      s.(disk := if ok then WithRow(s.disk, id, s.plain[id], None) else s.disk, plain := s.plain - {id})
    case Undo(file, ok) =>
      if ok then s.(disk := WithoutFile(s.disk, file), making := s.making - {file})
      else s.(making := s.making - {file}, lost := s.lost + {file})
    case AbandonCreate(file) => s.(making := s.making - {file}, lost := s.lost + {file})
    case Look(op, drops, ids) =>
      s.(removing := s.removing[op := Removing(drops, Listing(s.disk, ids), {}, {})])
    case Unlink(op, id, ok) =>
      var r := s.removing[op];
      s.(disk := if ok && r.listed[id].Some? then WithoutFile(s.disk, r.listed[id].value) else s.disk,
         removing := s.removing[op := Tried(r, id, ok || r.listed[id].None?)])
    case Statement(op, ok) =>
      s.(disk := if ok then AfterStatement(s.disk, s.removing[op]) else s.disk, removing := s.removing - {op})
    case AbandonRemoval(op) => s.(removing := s.removing - {op})
  }

  ghost predicate ValidRun(s: State, run: seq<Event>)
    decreases |run|
  {
    run == [] || (Enabled(s, run[0]) && ValidRun(Apply(s, run[0]), run[1..]))
  }

  ghost function After(s: State, run: seq<Event>): State
    requires ValidRun(s, run)
    decreases |run|
  {
    if run == [] then s else After(Apply(s, run[0]), run[1..])
  }

  // -------------------------------------------------------------------
  // What holds in every reachable state
  // -------------------------------------------------------------------

  /** A file on disk has a row, or its create is still going, or its create gave it up. */
  ghost predicate Accounted(s: State) {
    forall f :: f in s.disk.files && Unclaimed(s.disk, f) ==> f in s.making || f in s.lost
  }

  /** A file some row claims is in nobody else's hands. */
  ghost predicate RowsApart(s: State) {
    forall id :: id in s.disk.rows && s.disk.rows[id].audio.Some? ==>
      var f := s.disk.rows[id].audio.value;
      f in s.names && f !in s.making && f !in s.lost
  }

  ghost predicate CreatesApart(s: State) {
    && s.making.Keys !! s.lost && s.making.Keys <= s.names && s.lost <= s.names
    && s.disk.rows.Keys <= s.ids
    && s.plain.Keys <= s.ids
    && (forall f :: f in s.making ==> s.making[f].id in s.ids && s.making[f].id !in s.disk.rows && s.making[f].id !in s.plain)
    && (forall f, g :: f in s.making && g in s.making && f != g ==> s.making[f].id != s.making[g].id)
  }

  /** What a delete or drop knows stays true: a listed row keeps its file or loses it, and a file it unlinked is gone for good. */
  ghost predicate Knows(s: State, r: Removing) {
    && r.safe <= r.tried <= r.listed.Keys
    && (forall id :: id in r.listed && id in s.disk.rows && s.disk.rows[id].audio.Some? ==> s.disk.rows[id].audio == r.listed[id])
    && (forall id :: id in r.listed ==> id in s.ids && forall f :: f in s.making ==> s.making[f].id != id)
    && (forall id :: id in r.listed && r.listed[id].Some? ==>
          r.listed[id].value in s.names && r.listed[id].value !in s.making && r.listed[id].value !in s.lost)
    && (forall id :: id in r.safe && r.listed[id].Some? ==> r.listed[id].value !in s.disk.files)
  }

  ghost predicate RemovalsKnow(s: State) {
    forall op :: op in s.removing ==> Knows(s, s.removing[op])
  }

  ghost predicate Inv(s: State) {
    Accounted(s) && Unshared(s.disk) && RowsApart(s) && CreatesApart(s) && RemovalsKnow(s)
  }

  predicate IsRemovals(e: Event) { e.Look? || e.Unlink? || e.Statement? || e.AbandonRemoval? }

  /** A create's step takes no row's claim away. */
  lemma ClaimStays(s: State, e: Event, f: AudioFile)
    requires Inv(s) && Enabled(s, e) && !IsRemovals(e) && !Unclaimed(s.disk, f)
    ensures !Unclaimed(Apply(s, e).disk, f)
  {
    var id :| id in s.disk.rows && s.disk.rows[id].audio == Some(f);
    assert id in Apply(s, e).disk.rows && Apply(s, e).disk.rows[id].audio == Some(f);
  }

  lemma CreateKeepsAccounted(s: State, e: Event)
    requires Inv(s) && Enabled(s, e) && !IsRemovals(e)
    ensures Accounted(Apply(s, e))
  {
    var t := Apply(s, e);
    forall f | f in t.disk.files ensures Unclaimed(t.disk, f) ==> f in t.making || f in t.lost {
      if !Unclaimed(s.disk, f) {
        ClaimStays(s, e, f);
      } else if e.InsertRow? && e.ok && f == e.file {
        assert t.disk.rows[s.making[f].id].audio == Some(f);
      }
    }
  }

  /** A create's step adds no row but its own, with the file it wrote or none. */
  lemma CreateRows(s: State, e: Event)
    requires Inv(s) && Enabled(s, e) && !IsRemovals(e)
    ensures var rows, t := s.disk.rows, Apply(s, e).disk.rows;
            || t == rows
            || (e.InsertRow? && e.file in s.making && t == rows[s.making[e.file].id := s.making[e.file].row.(audio := Some(e.file))]
                && Apply(s, e).making == s.making - {e.file} && Apply(s, e).lost == s.lost && Apply(s, e).plain == s.plain && Apply(s, e).names == s.names)
            || (e.InsertPlain? && e.id in s.plain && t == rows[e.id := s.plain[e.id].(audio := None)]
                && Apply(s, e).making == s.making && Apply(s, e).lost == s.lost && Apply(s, e).names == s.names)
  {
  }

  lemma CreateKeepsUnshared(s: State, e: Event)
    requires Inv(s) && Enabled(s, e) && !IsRemovals(e)
    ensures Unshared(Apply(s, e).disk)
  {
    CreateRows(s, e);
  }

  lemma CreateKeepsRows(s: State, e: Event)
    requires Inv(s) && Enabled(s, e) && !IsRemovals(e)
    ensures RowsApart(Apply(s, e))
  {
    CreateRows(s, e);
  }

  lemma CreateKeepsApart(s: State, e: Event)
    requires Inv(s) && Enabled(s, e) && !IsRemovals(e)
    ensures CreatesApart(Apply(s, e))
  {
  }

  lemma CreateKeepsKnowing(s: State, e: Event, r: Removing)
    requires Inv(s) && Enabled(s, e) && !IsRemovals(e) && Knows(s, r)
    ensures Knows(Apply(s, e), r)
  {
  }

  lemma CreateKeepsInv(s: State, e: Event)
    requires Inv(s) && Enabled(s, e) && !IsRemovals(e)
    ensures Inv(Apply(s, e))
  {
    CreateKeepsAccounted(s, e);
    CreateKeepsUnshared(s, e);
    CreateKeepsRows(s, e);
    CreateKeepsApart(s, e);
    assert Apply(s, e).removing == s.removing;
    forall op | op in s.removing ensures Knows(Apply(s, e), s.removing[op]) {
      CreateKeepsKnowing(s, e, s.removing[op]);
    }
  }

  /** What a delete or drop changes for the others: rows lose their audio or go, files go, and no claimed file but through its rows. */
  ghost predicate Takes(s: State, t: State) {
    && t.making == s.making && t.plain == s.plain && t.ids == s.ids && t.names == s.names && t.lost == s.lost
    && t.disk.files.Keys <= s.disk.files.Keys && RowsFrom(s.disk, t.disk) && t.disk.rows.Keys <= s.disk.rows.Keys
  }

  lemma TakingKeepsKnowing(s: State, t: State, r: Removing)
    requires Takes(s, t) && Knows(s, r)
    ensures Knows(t, r)
  {
  }

  lemma TakingKeepsApart(s: State, t: State)
    requires Takes(s, t) && Inv(s)
    ensures Unshared(t.disk) && RowsApart(t) && CreatesApart(t)
  {
  }

  lemma LookKnows(s: State, drops: bool, ids: set<RecordId>)
    requires Inv(s)
    ensures Knows(s, Removing(drops, Listing(s.disk, ids), {}, {}))
  {
  }

  lemma LookKeepsInv(s: State, op: nat, drops: bool, ids: set<RecordId>)
    requires Inv(s) && Enabled(s, Look(op, drops, ids))
    ensures Inv(Apply(s, Look(op, drops, ids)))
  {
    var t := Apply(s, Look(op, drops, ids));
    LookKnows(s, drops, ids);
    forall o | o in t.removing ensures Knows(t, t.removing[o]) {
      TakingKeepsKnowing(s, t, t.removing[o]);
    }
  }

  lemma UnlinkKnows(s: State, op: nat, id: RecordId, ok: bool)
    requires Inv(s) && Enabled(s, Unlink(op, id, ok))
    ensures var t := Apply(s, Unlink(op, id, ok)); Takes(s, t) && Knows(t, t.removing[op])
  {
    assert Knows(s, s.removing[op]);
  }

  lemma UnlinkKeepsInv(s: State, op: nat, id: RecordId, ok: bool)
    requires Inv(s) && Enabled(s, Unlink(op, id, ok))
    ensures Inv(Apply(s, Unlink(op, id, ok)))
  {
    var t := Apply(s, Unlink(op, id, ok));
    UnlinkKnows(s, op, id, ok);
    TakingKeepsApart(s, t);
    forall o | o in t.removing ensures Knows(t, t.removing[o]) {
      if o != op {
        TakingKeepsKnowing(s, t, s.removing[o]);
      }
    }
    assert t.disk.rows == s.disk.rows;
  }

  /** A statement touches no row that still claims a file on disk. */
  lemma StatementSparesClaims(s: State, r: Removing, f: AudioFile)
    requires Knows(s, r) && f in s.disk.files && !Unclaimed(s.disk, f)
    ensures !Unclaimed(AfterStatement(s.disk, r), f)
  {
    var id :| id in s.disk.rows && s.disk.rows[id].audio == Some(f);
    assert id !in r.safe;
    assert id in AfterStatement(s.disk, r).rows && AfterStatement(s.disk, r).rows[id].audio == Some(f);
  }

  lemma StatementKeepsInv(s: State, op: nat, ok: bool)
    requires Inv(s) && Enabled(s, Statement(op, ok))
    ensures Inv(Apply(s, Statement(op, ok)))
  {
    var t := Apply(s, Statement(op, ok));
    assert Takes(s, t);
    TakingKeepsApart(s, t);
    forall o | o in t.removing ensures Knows(t, t.removing[o]) {
      TakingKeepsKnowing(s, t, s.removing[o]);
    }
    forall f | f in t.disk.files ensures Unclaimed(t.disk, f) ==> f in t.making || f in t.lost {
      if ok && !Unclaimed(s.disk, f) {
        StatementSparesClaims(s, s.removing[op], f);
      }
    }
  }

  lemma StepKeepsInv(s: State, e: Event)
    requires Inv(s) && Enabled(s, e)
    ensures Inv(Apply(s, e))
  {
    match e
    case Look(op, drops, ids) => LookKeepsInv(s, op, drops, ids);
    case Unlink(op, id, ok) => UnlinkKeepsInv(s, op, id, ok);
    case Statement(op, ok) => StatementKeepsInv(s, op, ok);
    case AbandonRemoval(op) =>
      forall o | o in s.removing ensures Knows(Apply(s, e), s.removing[o]) {
        TakingKeepsKnowing(s, Apply(s, e), s.removing[o]);
      }
    case _ => CreateKeepsInv(s, e);
  }

  lemma {:induction false} RunKeepsInv(s: State, run: seq<Event>)
    requires Inv(s) && ValidRun(s, run)
    ensures Inv(After(s, run))
    decreases |run|
  {
    if run == [] {
      assert After(s, run) == s;
    } else {
      StepKeepsInv(s, run[0]);
      RunKeepsInv(Apply(s, run[0]), run[1..]);
    }
  }

  // -------------------------------------------------------------------
  // Orphans
  // -------------------------------------------------------------------

  /** A file on disk that its create gave up. */
  ghost predicate Stray(s: State, f: AudioFile) { f in s.lost && f in s.disk.files }

  lemma StrayStays(s: State, e: Event, f: AudioFile)
    requires Inv(s) && Enabled(s, e) && Stray(s, f)
    ensures Stray(Apply(s, e), f)
  {
    if e.Unlink? {
      assert Knows(s, s.removing[e.op]);
    }
  }

  lemma {:induction false} StrayIsForever(s: State, run: seq<Event>, f: AudioFile)
    requires Inv(s) && ValidRun(s, run) && Stray(s, f)
    ensures Stray(After(s, run), f) && Unclaimed(After(s, run).disk, f)
    decreases |run|
  {
    if run == [] {
      assert After(s, run) == s;
    } else {
      StepKeepsInv(s, run[0]);
      StrayStays(s, run[0], f);
      StrayIsForever(Apply(s, run[0]), run[1..], f);
    }
  }

  /**
   Over every interleaving of creates, deletes, drops and sweeps, with any failures and calls abandoned
   anywhere: no two rows share a file, and a file is without a row exactly when its create is still going
   or gave it up.
   */
  lemma OrphansOverEveryInterleaving(run: seq<Event>, f: AudioFile)
    requires ValidRun(EMPTY, run)
    ensures var s := After(EMPTY, run);
            Unshared(s.disk) && (f in s.disk.files ==> (Unclaimed(s.disk, f) <==> f in s.making || f in s.lost))
  {
    RunKeepsInv(EMPTY, run);
  }

  /** With no create in progress, every file has a row to reclaim it by exactly when no create left one behind. */
  lemma QuietHistoryHasNoOrphan(run: seq<Event>)
    requires ValidRun(EMPTY, run) && After(EMPTY, run).making == map[]
    ensures var s := After(EMPTY, run); NoOrphan(s.disk) <==> forall f :: f in s.lost ==> f !in s.disk.files
  {
    RunKeepsInv(EMPTY, run);
    var s := After(EMPTY, run);
    forall f | f in s.disk.files ensures Unclaimed(s.disk, f) <==> f in s.lost {
      OrphansOverEveryInterleaving(run, f);
    }
    assert NoOrphan(s.disk) <==> forall f :: f in s.disk.files ==> !Unclaimed(s.disk, f);
  }

  /** What a create gave up is never reclaimed. */
  lemma StrayIsNeverReclaimed(before: seq<Event>, after: seq<Event>, f: AudioFile)
    requires ValidRun(EMPTY, before) && Stray(After(EMPTY, before), f) && ValidRun(After(EMPTY, before), after)
    ensures var s := After(After(EMPTY, before), after); f in s.disk.files && Unclaimed(s.disk, f)
  {
    RunKeepsInv(EMPTY, before);
    StrayIsForever(After(EMPTY, before), after, f);
  }

  // -------------------------------------------------------------------
  // A call that runs alone
  // -------------------------------------------------------------------

  /** Call `op` has tried some of the rows it listed on `d`, with the unlinks in `failing` failing, and nobody else did anything. */
  ghost predicate Underway(d: Disk, s: State, op: nat, drops: bool, ids: set<RecordId>, failing: set<AudioFile>) {
    && op in s.removing && s.removing[op].drops == drops && s.removing[op].listed == Listing(d, ids)
    && s.removing[op].tried <= Listing(d, ids).Keys
    && s.removing[op].safe == (if drops then Freed(d, s.removing[op].tried, failing) else Bare(d, s.removing[op].tried, failing))
    && s.disk == Disk(d.rows, d.files - Unlinked(d, s.removing[op].tried, failing))
  }

  /** The step unlinks for one of the rows `op` listed, or fails to as `failing` says. */
  predicate UnlinksFor(d: Disk, e: Event, op: nat, failing: set<AudioFile>) {
    e.Unlink? && e.op == op && e.id in d.rows && (e.ok <==> d.rows[e.id].audio.None? || d.rows[e.id].audio.value !in failing)
  }

  lemma OneMoreTried(d: Disk, tried: set<RecordId>, id: RecordId, failing: set<AudioFile>)
    requires id in d.rows
    ensures var audio := d.rows[id].audio;
            var ok := audio.None? || audio.value !in failing;
            && Unlinked(d, tried + {id}, failing) == Unlinked(d, tried, failing) + (if ok && audio.Some? then {audio.value} else {})
            && Bare(d, tried + {id}, failing) == Bare(d, tried, failing) + (if ok then {id} else {})
            && Freed(d, tried + {id}, failing) == Freed(d, tried, failing) + (if ok && audio.Some? then {id} else {})
  {
  }

  lemma UnlinkGoesOn(d: Disk, s: State, e: Event, op: nat, drops: bool, ids: set<RecordId>, failing: set<AudioFile>)
    requires Underway(d, s, op, drops, ids, failing) && UnlinksFor(d, e, op, failing) && Enabled(s, e)
    ensures Underway(d, Apply(s, e), op, drops, ids, failing)
  {
    var r := s.removing[op];
    OneMoreTried(d, r.tried, e.id, failing);
    assert r.listed[e.id] == d.rows[e.id].audio;
    if e.ok && d.rows[e.id].audio.Some? {
      var f := d.rows[e.id].audio.value;
      assert (d.files - Unlinked(d, r.tried, failing)) - {f} == d.files - (Unlinked(d, r.tried, failing) + {f});
    }
  }

  lemma {:induction false} UnlinksGoOn(d: Disk, s: State, run: seq<Event>, op: nat, drops: bool, ids: set<RecordId>, failing: set<AudioFile>)
    requires Underway(d, s, op, drops, ids, failing) && ValidRun(s, run)
    requires forall i :: 0 <= i < |run| ==> UnlinksFor(d, run[i], op, failing)
    ensures Underway(d, After(s, run), op, drops, ids, failing)
    decreases |run|
  {
    if run == [] {
      assert After(s, run) == s;
    } else {
      UnlinkGoesOn(d, s, run[0], op, drops, ids, failing);
      assert forall i :: 0 <= i < |run[1..]| ==> run[1..][i] == run[i + 1];
      UnlinksGoOn(d, Apply(s, run[0]), run[1..], op, drops, ids, failing);
    }
  }

  lemma OnlyListedCount(d: Disk, ids: set<RecordId>, failing: set<AudioFile>)
    ensures var listed := Listing(d, ids).Keys;
            && Unlinked(d, listed, failing) == Unlinked(d, ids, failing)
            && Bare(d, listed, failing) == Bare(d, ids, failing) && Freed(d, listed, failing) == Freed(d, ids, failing)
  {
  }

  /**
   A delete or drop that runs alone, trying the rows it listed in any order, does what the calls of
   History.dfy are specified with.
   */
  lemma AloneIsSpecified(s: State, op: nat, drops: bool, ids: set<RecordId>, unlinks: seq<Event>, failing: set<AudioFile>, ok: bool)
    requires Enabled(s, Look(op, drops, ids)) && ValidRun(Apply(s, Look(op, drops, ids)), unlinks)
    requires forall i :: 0 <= i < |unlinks| ==> UnlinksFor(s.disk, unlinks[i], op, failing)
    requires Enabled(After(Apply(s, Look(op, drops, ids)), unlinks), Statement(op, ok))
    ensures Apply(After(Apply(s, Look(op, drops, ids)), unlinks), Statement(op, ok)).disk ==
            if drops then AfterDrop(s.disk, ids, failing, ok) else AfterDelete(s.disk, ids, failing, ok)
  {
    var d, t := s.disk, Apply(s, Look(op, drops, ids));
    assert d.files - Unlinked(d, {}, failing) == d.files;
    UnlinksGoOn(d, t, unlinks, op, drops, ids, failing);
    OnlyListedCount(d, ids, failing);
    ClearingFreed(d, ids, failing);
  }

  /** A file the create does not know yet grows to each size in turn. */
  function Grows(file: AudioFile, growth: seq<nat>): seq<Event> {
    seq(|growth|, i requires 0 <= i < |growth| => Grow(file, growth[i]))
  }

  function Grown(d: Disk, file: AudioFile, growth: seq<nat>): Disk {
    if growth == [] then d else WithFile(d, file, growth[|growth| - 1])
  }

  lemma FirstStep(s: State, e: Event, rest: seq<Event>)
    requires Enabled(s, e) && ValidRun(Apply(s, e), rest)
    ensures ValidRun(s, [e] + rest) && After(s, [e] + rest) == After(Apply(s, e), rest)
  {
    assert ([e] + rest)[1..] == rest;
  }

  lemma {:induction false} Chain(s: State, one: seq<Event>, two: seq<Event>)
    requires ValidRun(s, one) && ValidRun(After(s, one), two)
    ensures ValidRun(s, one + two) && After(s, one + two) == After(After(s, one), two)
    decreases |one|
  {
    if one == [] {
      assert one + two == two;
    } else {
      Chain(Apply(s, one[0]), one[1..], two);
      FirstStep(s, one[0], one[1..] + two);
      Regroup([one[0]], one[1..], two);
      assert [one[0]] + one[1..] == one;
    }
  }

  lemma {:induction false} GrowsTo(s: State, file: AudioFile, growth: seq<nat>)
    requires file in s.making && s.making[file].Recording?
    ensures ValidRun(s, Grows(file, growth)) && After(s, Grows(file, growth)) == s.(disk := Grown(s.disk, file, growth))
    decreases |growth|
  {
    if growth == [] {
      assert After(s, Grows(file, growth)) == s;
    } else {
      var e, t := Grow(file, growth[0]), Apply(s, Grow(file, growth[0]));
      GrowsTo(t, file, growth[1..]);
      FirstStep(s, e, Grows(file, growth[1..]));
      assert Grows(file, growth) == [e] + Grows(file, growth[1..]);
      assert growth[1..] != [] ==> growth[1..][|growth| - 2] == growth[|growth| - 1];
      if growth[1..] != [] {
        assert t.disk.files[file := growth[|growth| - 1]] == s.disk.files[file := growth[|growth| - 1]];
      }
    }
  }

  /** The steps of a create once its file has grown. */
  function Ending(e: Entry, c: Course): seq<Event>
    requires e.size.Some?
  {
    if !c.written then [EndWrite(e.file, false, 0), InsertPlain(e.id, c.inserted)]
    else if c.inserted then [EndWrite(e.file, true, e.size.value), InsertRow(e.file, true)]
    else [EndWrite(e.file, true, e.size.value), InsertRow(e.file, false), Undo(e.file, c.unlinked)]
  }

  function CreateSteps(e: Entry, c: Course): seq<Event> {
    if e.size.None? then [BeginPlain(e.id, e.row), InsertPlain(e.id, c.inserted)]
    else [BeginCreate(e.id, e.row, e.file)] + (Grows(e.file, c.growth) + Ending(e, c))
  }

  lemma OneStep(s: State, e: Event)
    requires Enabled(s, e)
    ensures ValidRun(s, [e]) && After(s, [e]) == Apply(s, e)
  {
    assert [e][1..] == [];
  }

  lemma TwoSteps(s: State, e: Event, f: Event)
    requires Enabled(s, e) && Enabled(Apply(s, e), f)
    ensures ValidRun(s, [e, f]) && After(s, [e, f]) == Apply(Apply(s, e), f)
  {
    OneStep(Apply(s, e), f);
    FirstStep(s, e, [f]);
    assert [e, f] == [e] + [f];
  }

  lemma PlainRunsAlone(s: State, e: Entry, c: Course)
    requires e.size.None? && e.id !in s.ids && e.id !in s.disk.rows
    ensures ValidRun(s, CreateSteps(e, c)) && After(s, CreateSteps(e, c)).disk == StoppedCreate(s.disk, e, c, Ended)
  {
    TwoSteps(s, BeginPlain(e.id, e.row), InsertPlain(e.id, c.inserted));
  }

  /** The create has begun, and its file is as `growth` left it. */
  ghost predicate Underwritten(d: Disk, s: State, e: Entry, c: Course) {
    && e.file in s.making && s.making[e.file] == Recording(e.id, e.row)
    && s.disk == Grown(d, e.file, c.growth) && e.id !in d.rows && e.file !in d.files
  }

  lemma FailedWriteEnds(d: Disk, s: State, e: Entry, c: Course)
    requires Underwritten(d, s, e, c) && e.size.Some? && !c.written
    ensures ValidRun(s, Ending(e, c)) && After(s, Ending(e, c)).disk == StoppedCreate(d, e, c, Ended)
  {
    TwoSteps(s, EndWrite(e.file, false, 0), InsertPlain(e.id, c.inserted));
  }

  lemma WriteOverwrites(d: Disk, e: Entry, c: Course, size: nat)
    requires e.file !in d.files
    ensures WithFile(Grown(d, e.file, c.growth), e.file, size) == WithFile(d, e.file, size)
    ensures WithoutFile(WithFile(d, e.file, size), e.file) == d
  {
    assert d.files[e.file := size] - {e.file} == d.files;
    if c.growth != [] {
      assert d.files[e.file := c.growth[|c.growth| - 1]][e.file := size] == d.files[e.file := size];
    }
  }

  lemma InsertedRowEnds(d: Disk, s: State, e: Entry, c: Course)
    requires Underwritten(d, s, e, c) && e.size.Some? && c.written && c.inserted
    ensures ValidRun(s, Ending(e, c)) && After(s, Ending(e, c)).disk == StoppedCreate(d, e, c, Ended)
  {
    WriteOverwrites(d, e, c, e.size.value);
    TwoSteps(s, EndWrite(e.file, true, e.size.value), InsertRow(e.file, true));
  }

  lemma UndoneEnds(d: Disk, s: State, e: Entry, c: Course)
    requires Underwritten(d, s, e, c) && e.size.Some? && c.written && !c.inserted
    ensures ValidRun(s, Ending(e, c)) && After(s, Ending(e, c)).disk == StoppedCreate(d, e, c, Ended)
  {
    WriteOverwrites(d, e, c, e.size.value);
    var first := EndWrite(e.file, true, e.size.value);
    TwoSteps(Apply(s, first), InsertRow(e.file, false), Undo(e.file, c.unlinked));
    FirstStep(s, first, [InsertRow(e.file, false), Undo(e.file, c.unlinked)]);
    assert Ending(e, c) == [first] + [InsertRow(e.file, false), Undo(e.file, c.unlinked)];
  }

  lemma RecordingRunsAlone(s: State, e: Entry, c: Course)
    requires e.size.Some? && e.id !in s.ids && e.id !in s.disk.rows && e.file !in s.names && e.file !in s.disk.files
    ensures ValidRun(s, CreateSteps(e, c)) && After(s, CreateSteps(e, c)).disk == StoppedCreate(s.disk, e, c, Ended)
  {
    var begin := BeginCreate(e.id, e.row, e.file);
    var t := Apply(s, begin);
    GrowsTo(t, e.file, c.growth);
    var u := After(t, Grows(e.file, c.growth));
    if !c.written {
      FailedWriteEnds(s.disk, u, e, c);
    } else if c.inserted {
      InsertedRowEnds(s.disk, u, e, c);
    } else {
      UndoneEnds(s.disk, u, e, c);
    }
    Chain(t, Grows(e.file, c.growth), Ending(e, c));
    FirstStep(s, begin, Grows(e.file, c.growth) + Ending(e, c));
  }

  /** From every reachable state, a create under a new id and name whose steps run alone ends as `History.Create` is specified to. */
  lemma CreateAloneIsSpecified(before: seq<Event>, e: Entry, c: Course)
    requires ValidRun(EMPTY, before)
    requires e.id !in After(EMPTY, before).ids && e.file !in After(EMPTY, before).names
    ensures var s := After(EMPTY, before);
            ValidRun(s, CreateSteps(e, c)) && After(s, CreateSteps(e, c)).disk == StoppedCreate(s.disk, e, c, Ended)
  {
    RunKeepsInv(EMPTY, before);
    var s := After(EMPTY, before);
    NewNameIsFree(s, e.file);
    if e.size.None? {
      PlainRunsAlone(s, e, c);
    } else {
      RecordingRunsAlone(s, e, c);
    }
  }

  lemma NewNameIsFree(s: State, f: AudioFile)
    requires Inv(s) && f !in s.names
    ensures f !in s.disk.files
  {
    assert Unclaimed(s.disk, f);
  }
}
