/**
 What the download protocol guarantees over whole runs: the queue and token properties hold on
 every run; "this entry belongs to this download" holds exactly while no key enters the active set
 with a releaser of that key still outstanding.
 */
module DownloadOwnership {
  import opened Prelude
  import opened VariantKeys
  import opened DownloadQueues
  import opened DownloadProtocol

  // -------------------------------------------------------------------
  // Every run
  // -------------------------------------------------------------------

  lemma QueueOverEveryRun(run: seq<Event>)
    requires ValidRun(INITIAL, run)
    ensures var s := After(INITIAL, run);
            && |s.queue.active| <= 3
            && (s.queue.pending != [] ==> |s.queue.active| == 3)
            && (forall i :: 0 <= i < |s.queue.pending| ==> AsKey(s.queue.pending[i].variant) !in s.queue.active)
            && (forall i, j :: 0 <= i < j < |s.queue.pending| ==> s.queue.pending[i].variant != s.queue.pending[j].variant)
            && s.claims - s.removals == |s.queue.active|
            && Without(s.arrivals, s.unqueued) == s.promotions + Tokens(s.queue.pending)
  {
    InitialInv();
    RunKeepsInv(INITIAL, run);
  }

  /** A file is renamed only after a won commit, a released renamed file had exactly one Install, and a cancelled download had neither. */
  lemma FilesOverEveryRun(run: seq<Event>, id: nat)
    requires ValidRun(INITIAL, run) && id in After(INITIAL, run).downloads
    ensures var d := After(INITIAL, run).downloads[id];
            && (d.token.Cancelled? ==> d.renames == 0 && d.installs == 0)
            && (d.renames > 0 ==> d.token.Committed? && d.renames == 1)
            && d.installs <= d.renames
            && (d.phase.Released? ==> d.installs == d.renames)
  {
    InitialInv();
    RunKeepsInv(INITIAL, run);
    assert Consistent(After(INITIAL, run).downloads[id]);
  }

  lemma FreedKeepsOthers(s: State, key: string, id: nat)
    requires PendingInv(s) && id in s.downloads && !s.downloads[id].phase.Waiting?
    ensures id in Freed(s, key).downloads && Freed(s, key).downloads[id] == s.downloads[id]
  {
  }

  lemma SignalKeepsOthers(s: State, c: nat, v: VariantKey, id: nat)
    requires PendingInv(s) && Enabled(s, SignalCancel(c, v))
    requires id in s.downloads && !s.downloads[id].phase.Waiting? && !s.downloads[id].token.Running?
    ensures var t := Apply(s, SignalCancel(c, v)); id in t.downloads && t.downloads[id] == s.downloads[id]
  {
  }

  lemma StepKeepsToken(s: State, e: Event, id: nat)
    requires PendingInv(s) && RecordsInv(s) && Enabled(s, e) && id in s.downloads && !s.downloads[id].token.Running?
    ensures id in Apply(s, e).downloads && Apply(s, e).downloads[id].token == s.downloads[id].token
    ensures s.downloads[id].phase.InPlace? && e != Install(id) ==> Apply(s, e).downloads[id] == s.downloads[id]
  {
    assert Consistent(s.downloads[id]);
    match e
    case SignalCancel(c, v) => SignalKeepsOthers(s, c, v, id);
    case FinishCancel(c) => FreedKeepsOthers(s.(cancellers := s.cancellers - {c}), s.cancellers[c].key, id);
    case Finish(d) => FreedKeepsOthers(Moved(s, d, Released), AsKey(s.downloads[d].variant), id);
    case _ =>
  }

  /** Whoever wins a download's token keeps it: no later cancel, commit or failure changes the winner. */
  lemma {:induction false} TokenIsFinal(s: State, run: seq<Event>, id: nat)
    requires Inv(s) && ValidRun(s, run) && id in s.downloads && !s.downloads[id].token.Running?
    ensures id in After(s, run).downloads && After(s, run).downloads[id].token == s.downloads[id].token
    decreases |run|
  {
    if run != [] {
      StepKeepsToken(s, run[0], id);
      StepKeepsInv(s, run[0]);
      TokenIsFinal(Apply(s, run[0]), run[1..], id);
    }
  }

  /** A renamed file stays ready for its Install, whatever else runs, until the Install happens. */
  lemma {:induction false} RenamedFileAwaitsInstall(s: State, run: seq<Event>, id: nat)
    requires Inv(s) && ValidRun(s, run) && id in s.downloads && s.downloads[id].phase.InPlace?
    requires Install(id) !in run
    ensures Enabled(After(s, run), Install(id)) && After(s, run).downloads[id].installs == 0
    decreases |run|
  {
    assert Consistent(s.downloads[id]);
    if run != [] {
      StepKeepsToken(s, run[0], id);
      StepKeepsInv(s, run[0]);
      RenamedFileAwaitsInstall(Apply(s, run[0]), run[1..], id);
    }
  }

  // -------------------------------------------------------------------
  // Whose entry is it?
  // -------------------------------------------------------------------

  /** The download has neither ended nor been cancelled, so it is entitled to a slot. */
  predicate Entitled(d: Download) {
    !Parked(d) && !d.phase.Stopped? && !d.phase.Released? && !d.token.Cancelled?
  }

  /** The download's task may still remove the entry under its key. */
  predicate MayRelease(d: Download) {
    match d.phase
    case Ready | StartFailed | FailTail | Committing | InPlace | Announced => true
    case Working => !d.token.Cancelled?
    case _ => false
  }

  ghost predicate Contended(s: State, key: string) {
    || (exists c :: c in s.cancellers && s.cancellers[c].key == key)
    || (exists id :: id in s.downloads && AsKey(s.downloads[id].variant) == key && MayRelease(s.downloads[id]))
  }

  /** While the download is entitled, the entry under its key is its own. */
  ghost predicate HoldsEntry(s: State, id: nat) {
    id in s.downloads && Entitled(s.downloads[id]) ==>
      var key := AsKey(s.downloads[id].variant);
      key in s.queue.active && s.queue.active[key] == id
  }

  /** While the entry under its key is its own, no other download's task and no canceller of another may remove it. */
  ghost predicate EntryIsSafe(s: State, id: nat) {
    id in s.downloads && AsKey(s.downloads[id].variant) in s.queue.active && s.queue.active[AsKey(s.downloads[id].variant)] == id ==>
      && (forall c :: c in s.cancellers && s.cancellers[c].key == AsKey(s.downloads[id].variant) ==> s.cancellers[c].target == id)
      && (forall d :: d in s.downloads && d != id && AsKey(s.downloads[d].variant) == AsKey(s.downloads[id].variant) ==> !MayRelease(s.downloads[d]))
  }

  ghost predicate OwnsEntry(s: State, id: nat) { HoldsEntry(s, id) && EntryIsSafe(s, id) }

  /** Every entitled download holds its entry, and nobody is about to remove another download's. */
  ghost predicate Owned(s: State) {
    forall id: nat :: OwnsEntry(s, id)
  }

  /** The key promoted when the entry under `key` is released, if any. */
  function Promoted(s: State, key: string): Option<string> {
    if key in s.queue.active && s.queue.pending != [] then Some(AsKey(s.queue.pending[0].variant)) else None
  }

  /** The key that a step adds to the active set, if any. */
  function Entered(s: State, e: Event): Option<string>
    requires Enabled(s, e)
  {
    match e
    case Submit(id, v) => if Claim(s.queue, Request(v, id)).1.Claimed? then Some(AsKey(v)) else None
    case Finish(id) => Promoted(s, AsKey(s.downloads[id].variant))
    case FinishCancel(c) => Promoted(s, s.cancellers[c].key)
    case _ => None
  }

  /** The step adds an entry for the download. */
  ghost predicate Enters(s: State, e: Event, id: nat)
    requires Enabled(s, e)
  {
    Entered(s, e).Some? && Entered(s, e).value in Apply(s, e).queue.active && Apply(s, e).queue.active[Entered(s, e).value] == id
  }

  /** If the step adds an entry for the download, nobody else may still remove that key. */
  ghost predicate EntersFreely(s: State, e: Event, id: nat)
    requires Enabled(s, e)
  {
    Enters(s, e, id) ==> !Contended(s, Entered(s, e).value)
  }

  lemma UpdateKeepsOwnership(s: State, d: nat, r: Download, id: nat)
    requires OwnsEntry(s, id) && d in s.downloads && s.downloads[d].variant == r.variant
    requires Entitled(r) ==> Entitled(s.downloads[d])
    requires MayRelease(r) ==> MayRelease(s.downloads[d])
    ensures OwnsEntry(With(s, d, r), id)
  {
  }

  lemma SignallingKeepsOwnership(s: State, c: nat, key: string, id: nat)
    requires ActiveInv(s) && OwnsEntry(s, id) && c !in s.cancellers && key in s.queue.active
    ensures OwnsEntry(Signalling(s, c, key), id)
  {
    var d := s.queue.active[key];
    UpdateKeepsOwnership(s, d, s.downloads[d].(token := Cancelled), id);
  }

  lemma DroppingKeepsOwnership(s: State, i: nat, id: nat)
    requires PendingInv(s) && OwnsEntry(s, id) && i < |s.queue.pending|
    ensures OwnsEntry(Dropping(s, i), id)
  {
  }

  /** Releasing `key` touches no record but that of the promoted head, which becomes Ready. */
  lemma FreedRecords(s: State, key: string)
    requires PendingInv(s)
    ensures var t := Freed(s, key);
            && t.downloads.Keys == s.downloads.Keys && t.cancellers == s.cancellers
            && (Promoted(s, key).None? ==> t.downloads == s.downloads && t.queue.active == s.queue.active - {key})
            && (Promoted(s, key).Some? ==>
                  var head := s.queue.pending[0].token;
                  && t.queue.active == (s.queue.active - {key})[Promoted(s, key).value := head]
                  && AsKey(s.downloads[head].variant) == Promoted(s, key).value
                  && t.downloads == s.downloads[head := s.downloads[head].(phase := Ready)])
  {
  }

  /** A key that is waiting is not active, so the promoted head is no rival of any holder. */
  lemma HeadIsNew(s: State, key: string)
    requires Inv(s) && Promoted(s, key).Some?
    ensures Promoted(s, key).value !in s.queue.active && s.queue.pending[0].token in s.downloads
    ensures s.downloads[s.queue.pending[0].token].phase.Waiting?
  {
    assert Consistent(s.downloads[s.queue.pending[0].token]);
  }

  /** Releasing a key leaves a download's claim alone unless it is the one promoted. */
  lemma FreedKeepsHolding(s: State, key: string, id: nat)
    requires Inv(s) && HoldsEntry(s, id)
    requires key in s.queue.active && s.queue.active[key] == id ==> !Entitled(s.downloads[id])
    ensures HoldsEntry(Freed(s, key), id)
  {
    FreedRecords(s, key);
    if Promoted(s, key).Some? {
      HeadIsNew(s, key);
    }
  }

  lemma FreedKeepsSafe(s: State, key: string, id: nat)
    requires Inv(s) && EntryIsSafe(s, id)
    requires Promoted(s, key).Some? && s.queue.pending[0].token == id ==> !Contended(s, Promoted(s, key).value)
    ensures EntryIsSafe(Freed(s, key), id)
  {
    FreedRecords(s, key);
    if Promoted(s, key).Some? {
      HeadIsNew(s, key);
    }
  }

  /** A download new to the records leaves the others alone, and cannot be a rival of a holder. */
  lemma NewcomerKeepsOwnership(s: State, t: State, d: nat, id: nat)
    requires OwnsEntry(s, id) && d !in s.downloads && d != id && t.cancellers == s.cancellers
    requires d in t.downloads && t.downloads == s.downloads[d := t.downloads[d]]
    requires t.queue.active == s.queue.active || (AsKey(t.downloads[d].variant) !in s.queue.active
                                                  && t.queue.active == s.queue.active[AsKey(t.downloads[d].variant) := d])
    requires MayRelease(t.downloads[d]) ==> t.queue.active != s.queue.active
    ensures OwnsEntry(t, id)
  {
  }

  lemma ClaimingKeepsOthers(s: State, d: nat, v: VariantKey, id: nat)
    requires Inv(s) && OwnsEntry(s, id) && Enabled(s, Submit(d, v)) && d != id
    ensures OwnsEntry(Apply(s, Submit(d, v)), id)
  {
    var t := Apply(s, Submit(d, v));
    if t != s {
      NewcomerKeepsOwnership(s, t, d, id);
    }
  }

  lemma ClaimingKeepsOwnership(s: State, d: nat, v: VariantKey, id: nat)
    requires Inv(s) && OwnsEntry(s, id) && Enabled(s, Submit(d, v)) && EntersFreely(s, Submit(d, v), id)
    ensures OwnsEntry(Apply(s, Submit(d, v)), id)
  {
    if d != id {
      ClaimingKeepsOthers(s, d, v, id);
    }
  }

  /** The removal of an entitled download's entry is nobody's to make. */
  lemma FinishSparesEntitled(s: State, d: nat, id: nat)
    requires Inv(s) && OwnsEntry(s, id) && Enabled(s, Finish(d))
    ensures var t, key := Moved(s, d, Released), AsKey(s.downloads[d].variant);
            key in t.queue.active && t.queue.active[key] == id ==> !Entitled(t.downloads[id])
  {
    assert MayRelease(s.downloads[d]);
  }

  lemma ReleasedContendsNoMore(s: State, id: nat, key: string)
    requires id in s.downloads && Contended(Moved(s, id, Released), key)
    ensures Contended(s, key)
  {
  }

  lemma FinishEnters(s: State, d: nat, id: nat)
    requires Inv(s) && Enabled(s, Finish(d)) && EntersFreely(s, Finish(d), id)
    ensures var t, key := Moved(s, d, Released), AsKey(s.downloads[d].variant);
            Promoted(t, key).Some? && t.queue.pending[0].token == id ==> !Contended(t, Promoted(t, key).value)
  {
    var t, key := Moved(s, d, Released), AsKey(s.downloads[d].variant);
    if Promoted(t, key).Some? && t.queue.pending[0].token == id && Contended(t, Promoted(t, key).value) {
      UpdateKeepsInv(s, d, s.downloads[d].(phase := Released));
      FreedRecords(t, key);
      assert Enters(s, Finish(d), id);
      ReleasedContendsNoMore(s, d, Promoted(t, key).value);
    }
  }

  lemma FinishKeepsOwnership(s: State, d: nat, id: nat)
    requires Inv(s) && OwnsEntry(s, id) && Enabled(s, Finish(d)) && EntersFreely(s, Finish(d), id)
    ensures OwnsEntry(Apply(s, Finish(d)), id)
  {
    var t, key := Moved(s, d, Released), AsKey(s.downloads[d].variant);
    UpdateKeepsInv(s, d, s.downloads[d].(phase := Released));
    UpdateKeepsOwnership(s, d, s.downloads[d].(phase := Released), id);
    FinishSparesEntitled(s, d, id);
    FinishEnters(s, d, id);
    FreedKeepsHolding(t, key, id);
    FreedKeepsSafe(t, key, id);
  }

  lemma FewerCancellers(s: State, c: nat, id: nat)
    requires Inv(s) && OwnsEntry(s, id)
    ensures var t := s.(cancellers := s.cancellers - {c}); Inv(t) && OwnsEntry(t, id)
  {
  }

  lemma CancelSparesEntitled(s: State, c: nat, id: nat)
    requires Inv(s) && OwnsEntry(s, id) && c in s.cancellers
    requires s.cancellers[c].key in s.queue.active && s.queue.active[s.cancellers[c].key] == id
    ensures !Entitled(s.downloads[id])
  {
    assert AsKey(s.downloads[id].variant) == s.cancellers[c].key;
  }

  lemma CancelEnters(s: State, c: nat, id: nat)
    requires Inv(s) && c in s.cancellers && EntersFreely(s, FinishCancel(c), id)
    ensures var t, key := s.(cancellers := s.cancellers - {c}), s.cancellers[c].key;
            Promoted(t, key).Some? && t.queue.pending[0].token == id ==> !Contended(t, Promoted(t, key).value)
  {
    var t, key := s.(cancellers := s.cancellers - {c}), s.cancellers[c].key;
    if Promoted(t, key).Some? && t.queue.pending[0].token == id {
      FreedRecords(t, key);
      assert Enters(s, FinishCancel(c), id);
    }
  }

  lemma FinishCancelKeepsOwnership(s: State, c: nat, id: nat)
    requires Inv(s) && OwnsEntry(s, id) && c in s.cancellers && EntersFreely(s, FinishCancel(c), id)
    ensures OwnsEntry(Apply(s, FinishCancel(c)), id)
  {
    var t, key := s.(cancellers := s.cancellers - {c}), s.cancellers[c].key;
    FewerCancellers(s, c, id);
    if key in s.queue.active && s.queue.active[key] == id {
      CancelSparesEntitled(s, c, id);
    }
    CancelEnters(s, c, id);
    FreedKeepsHolding(t, key, id);
    FreedKeepsSafe(t, key, id);
  }

  lemma SignalKeepsOwnership(s: State, c: nat, v: VariantKey, id: nat)
    requires Inv(s) && OwnsEntry(s, id) && Enabled(s, SignalCancel(c, v))
    ensures OwnsEntry(Apply(s, SignalCancel(c, v)), id)
  {
    var i, key := PendingIndex(s.queue.pending, v), AsKey(v);
    if i < |s.queue.pending| {
      DroppingKeepsOwnership(s, i, id);
    } else if key in s.queue.active {
      SignallingKeepsOwnership(s, c, key, id);
    }
  }

  /** A download's own step forwards leaves it no more entitled and no more of a releaser than it was. */
  lemma TaskKeepsOwnership(s: State, e: Event, d: nat, id: nat)
    requires Inv(s) && OwnsEntry(s, id) && Enabled(s, e)
    requires e == Stop(d) || e == Fail(d) || e == Commit(d) || e == Install(d) || (e.Start? && e.id == d) || (e.Rename? && e.id == d)
    ensures OwnsEntry(Apply(s, e), id)
  {
    UpdateKeepsOwnership(s, d, Apply(s, e).downloads[d], id);
  }

  /** A step keeps a download's ownership of its entry, unless it adds that entry while somebody may still remove it. */
  lemma StepKeepsOwnership(s: State, e: Event, id: nat)
    requires Inv(s) && OwnsEntry(s, id) && Enabled(s, e) && EntersFreely(s, e, id)
    ensures OwnsEntry(Apply(s, e), id)
  {
    match e
    case Submit(d, v) => ClaimingKeepsOwnership(s, d, v, id);
    case SignalCancel(c, v) => SignalKeepsOwnership(s, c, v, id);
    case Finish(d) => FinishKeepsOwnership(s, d, id);
    case FinishCancel(c) => FinishCancelKeepsOwnership(s, c, id);
    case _ => TaskKeepsOwnership(s, e, e.id, id);
  }

  /** The download a step gives a slot to is Ready and uncancelled, and its key was not active before. */
  lemma EnteredIsReady(s: State, e: Event)
    requires Inv(s) && Enabled(s, e) && Entered(s, e).Some?
    ensures var t, key := Apply(s, e), Entered(s, e).value;
            && key !in s.queue.active && key in t.queue.active
            && t.queue.active[key] in t.downloads
            && t.downloads[t.queue.active[key]].phase.Ready? && t.downloads[t.queue.active[key]].token.Running?
            && AsKey(t.downloads[t.queue.active[key]].variant) == key
            && (t.queue.active[key] in s.downloads ==> s.downloads[t.queue.active[key]].phase.Waiting?)
  {
    if s.queue.pending != [] {
      assert s.downloads[s.queue.pending[0].token].phase.Waiting?;
      assert Consistent(s.downloads[s.queue.pending[0].token]);
    }
  }

  /** Releasing one key leaves a task that may release another key as it was. */
  lemma FreedKeepsReleaser(s: State, key: string, id: nat)
    requires PendingInv(s) && id in s.downloads && MayRelease(s.downloads[id])
    ensures id in Freed(s, key).downloads && Freed(s, key).downloads[id] == s.downloads[id]
    ensures Promoted(s, key).Some? ==> s.queue.pending[0].token != id
  {
    if s.queue.pending != [] {
      assert s.downloads[s.queue.pending[0].token].phase.Waiting?;
    }
  }

  /** When a tail's removal lets a key enter, the tail's own download holds another key. */
  lemma FinisherEntersAnother(s: State, d: nat, id: nat)
    requires Inv(s) && Enabled(s, Finish(d)) && Entered(s, Finish(d)).Some?
    requires id in s.downloads && AsKey(s.downloads[id].variant) == Entered(s, Finish(d)).value
    ensures id != d
  {
    EnteredIsReady(s, Finish(d));
  }

  lemma TaskRemainsAtFinish(s: State, d: nat, id: nat)
    requires Inv(s) && Enabled(s, Finish(d)) && Entered(s, Finish(d)).Some?
    requires id in s.downloads && AsKey(s.downloads[id].variant) == Entered(s, Finish(d)).value && MayRelease(s.downloads[id])
    ensures var t := Apply(s, Finish(d)); id in t.downloads && t.downloads[id] == s.downloads[id]
  {
    FinisherEntersAnother(s, d, id);
    FreedKeepsReleaser(Moved(s, d, Released), AsKey(s.downloads[d].variant), id);
  }

  /** When a key enters, a task that may release it is left as it was, and is not the download that entered. */
  lemma TaskRemains(s: State, e: Event, id: nat)
    requires Inv(s) && Enabled(s, e) && Entered(s, e).Some?
    requires id in s.downloads && AsKey(s.downloads[id].variant) == Entered(s, e).value && MayRelease(s.downloads[id])
    ensures var t := Apply(s, e); id in t.downloads && t.downloads[id] == s.downloads[id]
  {
    match e
    case Submit(_, _) =>
    case Finish(d) => TaskRemainsAtFinish(s, d, id);
    case FinishCancel(c) => FreedKeepsReleaser(s.(cancellers := s.cancellers - {c}), s.cancellers[c].key, id);
  }

  lemma CancellerRemains(s: State, e: Event, c: nat)
    requires Inv(s) && Enabled(s, e) && Entered(s, e).Some?
    requires c in s.cancellers && s.cancellers[c].key == Entered(s, e).value
    ensures c in Apply(s, e).cancellers && Apply(s, e).cancellers[c] == s.cancellers[c]
  {
    EnteredIsReady(s, e);
  }

  lemma ContendedEntryIsUnsafe(s: State, e: Event)
    requires Inv(s) && Enabled(s, e) && Entered(s, e).Some? && Contended(s, Entered(s, e).value)
    ensures Entered(s, e).value in Apply(s, e).queue.active
    ensures !EntryIsSafe(Apply(s, e), Apply(s, e).queue.active[Entered(s, e).value])
  {
    var t, key := Apply(s, e), Entered(s, e).value;
    EnteredIsReady(s, e);
    var id := t.queue.active[key];
    if c :| c in s.cancellers && s.cancellers[c].key == key {
      CancellerRemains(s, e, c);
      StepKeepsInv(s, e);
      assert t.cancellers[c].target != id;
    } else {
      var d :| d in s.downloads && AsKey(s.downloads[d].variant) == key && MayRelease(s.downloads[d]);
      TaskRemains(s, e, d);
      assert d != id && MayRelease(t.downloads[d]);
    }
  }

  /** A step keeps every entry its owner's exactly when it lets no contended key enter. */
  lemma OwnershipStep(s: State, e: Event)
    requires Inv(s) && Owned(s) && Enabled(s, e)
    ensures Owned(Apply(s, e)) <==> (Entered(s, e).Some? ==> !Contended(s, Entered(s, e).value))
  {
    if Entered(s, e).Some? && Contended(s, Entered(s, e).value) {
      ContendedEntryIsUnsafe(s, e);
      assert !OwnsEntry(Apply(s, e), Apply(s, e).queue.active[Entered(s, e).value]);
    } else {
      forall id: nat ensures OwnsEntry(Apply(s, e), id) {
        StepKeepsOwnership(s, e, id);
      }
    }
  }

  ghost predicate Uncontended(s: State, run: seq<Event>)
    requires ValidRun(s, run)
    decreases |run|
  {
    run == [] ||
    ((Entered(s, run[0]).Some? ==> !Contended(s, Entered(s, run[0]).value)) && Uncontended(Apply(s, run[0]), run[1..]))
  }

  lemma {:induction false} RunKeepsOwned(s: State, run: seq<Event>)
    requires Inv(s) && Owned(s) && ValidRun(s, run) && Uncontended(s, run)
    ensures Inv(After(s, run)) && Owned(After(s, run))
    decreases |run|
  {
    if run != [] {
      StepKeepsInv(s, run[0]);
      OwnershipStep(s, run[0]);
      RunKeepsOwned(Apply(s, run[0]), run[1..]);
    }
  }

  lemma {:induction false} InjectionBounds(ids: set<nat>, key: map<nat, string>, keys: set<string>)
    requires forall id :: id in ids ==> id in key && key[id] in keys
    requires forall a, b :: a in ids && b in ids && key[a] == key[b] ==> a == b
    ensures |ids| <= |keys|
    decreases |ids|
  {
    if ids != {} {
      var id :| id in ids;
      InjectionBounds(ids - {id}, key, keys - {key[id]});
    }
  }

  ghost function EntitledIds(s: State): set<nat> {
    set id | id in s.downloads && Entitled(s.downloads[id])
  }

  lemma EntitledFitInActive(s: State)
    requires Owned(s)
    ensures |EntitledIds(s)| <= |s.queue.active|
  {
    var ids := EntitledIds(s);
    var key := map id | id in ids :: AsKey(s.downloads[id].variant);
    assert forall id :: id in ids ==> OwnsEntry(s, id);
    InjectionBounds(ids, key, s.queue.active.Keys);
    assert |s.queue.active.Keys| == |s.queue.active|;
  }

  /** At most three downloads are un-cancelled and unfinished outside the queue. */
  lemma EntitledDownloadsAreBounded(run: seq<Event>)
    requires ValidRun(INITIAL, run) && Uncontended(INITIAL, run)
    ensures |EntitledIds(After(INITIAL, run))| <= MAX_CONCURRENT_DOWNLOADS
  {
    InitialInv();
    RunKeepsOwned(INITIAL, run);
    EntitledFitInActive(After(INITIAL, run));
  }

  // -------------------------------------------------------------------
  // One download's entry
  // -------------------------------------------------------------------

  /** The step of the run that added the download's entry, if one did, found its key uncontended. */
  ghost predicate EnteredFreely(s: State, run: seq<Event>, id: nat)
    requires ValidRun(s, run)
    decreases |run|
  {
    run == [] || (EntersFreely(s, run[0], id) && EnteredFreely(Apply(s, run[0]), run[1..], id))
  }

  /** Whatever happens to other keys, and to this one before and after the download had it. */
  lemma {:induction false} RunKeepsOwnership(s: State, run: seq<Event>, id: nat)
    requires Inv(s) && OwnsEntry(s, id) && ValidRun(s, run) && EnteredFreely(s, run, id)
    ensures Inv(After(s, run)) && OwnsEntry(After(s, run), id)
    decreases |run|
  {
    if run == [] {
      assert After(s, run) == s;
    } else {
      StepKeepsInv(s, run[0]);
      StepKeepsOwnership(s, run[0], id);
      RunKeepsOwnership(Apply(s, run[0]), run[1..], id);
    }
  }

  /** A download is given a slot no more than once. */
  lemma {:induction false} EntersOnce(s: State, run: seq<Event>, id: nat)
    requires Inv(s) && ValidRun(s, run) && id in s.downloads && !Parked(s.downloads[id])
    ensures EnteredFreely(s, run, id)
    decreases |run|
  {
    if run != [] {
      var e, t := run[0], Apply(s, run[0]);
      StepKeepsInv(s, e);
      if Entered(s, e).Some? {
        EnteredIsReady(s, e);
      }
      StaysUnparked(s, e, id);
      EntersOnce(t, run[1..], id);
    }
  }

  lemma FreedKeepsUnparked(s: State, key: string, id: nat)
    requires PendingInv(s) && id in s.downloads && !Parked(s.downloads[id])
    ensures id in Freed(s, key).downloads && !Parked(Freed(s, key).downloads[id])
  {
    FreedRecords(s, key);
  }

  lemma SignalKeepsUnparked(s: State, c: nat, v: VariantKey, id: nat)
    requires PendingInv(s) && Enabled(s, SignalCancel(c, v)) && id in s.downloads && !Parked(s.downloads[id])
    ensures var t := Apply(s, SignalCancel(c, v)); id in t.downloads && !Parked(t.downloads[id])
  {
  }

  lemma StaysUnparked(s: State, e: Event, id: nat)
    requires PendingInv(s) && Enabled(s, e) && id in s.downloads && !Parked(s.downloads[id])
    ensures id in Apply(s, e).downloads && !Parked(Apply(s, e).downloads[id])
  {
    match e
    case SignalCancel(c, v) => SignalKeepsUnparked(s, c, v, id);
    case FinishCancel(c) => FreedKeepsUnparked(s.(cancellers := s.cancellers - {c}), s.cancellers[c].key, id);
    case Finish(d) =>
      assert PendingInv(Moved(s, d, Released));
      FreedKeepsUnparked(Moved(s, d, Released), AsKey(s.downloads[d].variant), id);
    case _ =>
  }

  lemma OwnedEntryIsABarrier(s: State, id: nat, again: nat)
    requires RecordsInv(s) && OwnsEntry(s, id) && Enabled(s, Install(id)) && again !in s.downloads
    ensures var v := s.downloads[id].variant;
            && AsKey(v) in s.queue.active && s.queue.active[AsKey(v)] == id
            && Enabled(s, Submit(again, v)) && Apply(s, Submit(again, v)) == s
  {
    assert Consistent(s.downloads[id]) && Entitled(s.downloads[id]);
  }

  /**
   While an Install runs for a download that was given its slot uncontended, the active entry is its own
   and rejects a second submission of its Variant.
   */
  lemma InstallHoldsTheBarrier(run: seq<Event>, id: nat, again: nat)
    requires ValidRun(INITIAL, run) && EnteredFreely(INITIAL, run, id)
    requires Enabled(After(INITIAL, run), Install(id)) && again !in After(INITIAL, run).downloads
    ensures var s, v := After(INITIAL, run), After(INITIAL, run).downloads[id].variant;
            && AsKey(v) in s.queue.active && s.queue.active[AsKey(v)] == id
            && Enabled(s, Submit(again, v)) && Apply(s, Submit(again, v)) == s
  {
    InitialInv();
    RunKeepsOwnership(INITIAL, run, id);
    OwnedEntryIsABarrier(After(INITIAL, run), id, again);
  }

  lemma OwnersRelease(s: State, key: string, party: nat)
    requires ActiveInv(s) && key in s.queue.active && OwnsEntry(s, s.queue.active[key])
    ensures Enabled(s, Finish(party)) && AsKey(s.downloads[party].variant) == key ==> s.queue.active[key] == party
    ensures party in s.cancellers && s.cancellers[party].key == key ==> s.queue.active[key] == s.cancellers[party].target
  {
    assert Enabled(s, Finish(party)) ==> MayRelease(s.downloads[party]);
  }

  /** Whatever a tail or a cancel is about to remove under the key of a download given its slot uncontended is that download's own entry. */
  lemma ReleasesFreeTheirOwn(run: seq<Event>, key: string, party: nat)
    requires ValidRun(INITIAL, run) && key in After(INITIAL, run).queue.active
    requires EnteredFreely(INITIAL, run, After(INITIAL, run).queue.active[key])
    ensures var s := After(INITIAL, run);
            && (Enabled(s, Finish(party)) && AsKey(s.downloads[party].variant) == key ==> s.queue.active[key] == party)
            && (party in s.cancellers && s.cancellers[party].key == key ==> s.queue.active[key] == s.cancellers[party].target)
  {
    InitialInv();
    RunKeepsOwnership(INITIAL, run, After(INITIAL, run).queue.active[key]);
    OwnersRelease(After(INITIAL, run), key, party);
  }

  // -------------------------------------------------------------------
  // What a contended entry costs
  // -------------------------------------------------------------------

  /** A download that nobody cancelled and that has not started holds no slot. */
  predicate Evicted(s: State, id: nat) {
    && id in s.downloads && s.downloads[id].phase.Ready? && s.downloads[id].token.Running?
    && (AsKey(s.downloads[id].variant) !in s.queue.active || s.queue.active[AsKey(s.downloads[id].variant)] != id)
  }

  lemma ReleaseEvicts(s: State, key: string)
    requires Inv(s) && key in s.queue.active
    requires s.downloads[s.queue.active[key]].phase.Ready? && s.downloads[s.queue.active[key]].token.Running?
    ensures Evicted(Freed(s, key), s.queue.active[key])
  {
    var id := s.queue.active[key];
    FreedKeepsOthers(s, key, id);
    if s.queue.pending != [] {
      assert s.downloads[s.queue.pending[0].token].phase.Waiting?;
    }
  }

  lemma FinishEvicts(s: State, d: nat, key: string)
    requires Inv(s) && key in s.queue.active && s.queue.active[key] != d && Enabled(s, Finish(d)) && AsKey(s.downloads[d].variant) == key
    requires s.downloads[s.queue.active[key]].phase.Ready? && s.downloads[s.queue.active[key]].token.Running?
    ensures Evicted(Apply(s, Finish(d)), s.queue.active[key])
  {
    UpdateKeepsInv(s, d, s.downloads[d].(phase := Released));
    ReleaseEvicts(Moved(s, d, Released), key);
  }

  lemma OneStep(s: State, e: Event)
    requires Enabled(s, e)
    ensures ValidRun(s, [e]) && After(s, [e]) == Apply(s, e)
  {
    assert [e][1..] == [];
  }

  /** A task that may still remove the entry under its key can be about to in one step. */
  function TowardsFinish(d: Download, id: nat): Event {
    match d.phase
    case Working => Fail(id)
    case Committing => Rename(id, false)
    case InPlace => Install(id)
    case _ => Start(id, false)
  }

  lemma ReleaserComesToFinish(s: State, d: nat)
    requires Inv(s) && d in s.downloads && MayRelease(s.downloads[d]) && !Enabled(s, Finish(d))
    ensures var e := TowardsFinish(s.downloads[d], d);
            && Enabled(s, e) && Enabled(Apply(s, e), Finish(d))
            && Apply(s, e).queue == s.queue && Apply(s, e).downloads.Keys == s.downloads.Keys
            && Apply(s, e).downloads[d].variant == s.downloads[d].variant
            && forall id :: id in s.downloads && id != d ==> Apply(s, e).downloads[id] == s.downloads[id]
  {
    assert Consistent(s.downloads[d]);
  }

  lemma ReleaserEvicts(s: State, d: nat, key: string) returns (run: seq<Event>)
    requires Inv(s) && key in s.queue.active && s.queue.active[key] != d
    requires d in s.downloads && MayRelease(s.downloads[d]) && AsKey(s.downloads[d].variant) == key
    requires s.downloads[s.queue.active[key]].phase.Ready? && s.downloads[s.queue.active[key]].token.Running?
    ensures |run| <= 2 && ValidRun(s, run) && Evicted(After(s, run), s.queue.active[key])
  {
    if Enabled(s, Finish(d)) {
      run := [Finish(d)];
      OneStep(s, Finish(d));
      FinishEvicts(s, d, key);
    } else {
      var e := TowardsFinish(s.downloads[d], d);
      ReleaserComesToFinish(s, d);
      StepKeepsInv(s, e);
      FinishEvicts(Apply(s, e), d, key);
      OneStep(Apply(s, e), Finish(d));
      FirstStep(s, e, [Finish(d)]);
      run := [e] + [Finish(d)];
    }
  }

  lemma FirstStep(s: State, e: Event, rest: seq<Event>)
    requires Enabled(s, e) && ValidRun(Apply(s, e), rest)
    ensures ValidRun(s, [e] + rest) && After(s, [e] + rest) == After(Apply(s, e), rest)
  {
    assert ([e] + rest)[1..] == rest;
  }

  /** Whenever a contended key enters, at most two further steps take the new download's slot away from it. */
  lemma ContentionEvicts(s: State, e: Event) returns (run: seq<Event>)
    requires Inv(s) && Enabled(s, e)
    requires Entered(s, e).Some? && Contended(s, Entered(s, e).value)
    ensures |run| <= 2 && ValidRun(Apply(s, e), run) && Entered(s, e).value in Apply(s, e).queue.active
    ensures Evicted(After(Apply(s, e), run), Apply(s, e).queue.active[Entered(s, e).value])
  {
    var t, key := Apply(s, e), Entered(s, e).value;
    StepKeepsInv(s, e);
    EnteredIsReady(s, e);
    if c :| c in s.cancellers && s.cancellers[c].key == key {
      run := [FinishCancel(c)];
      CancellerRemains(s, e, c);
      OneStep(t, FinishCancel(c));
      ReleaseEvicts(t.(cancellers := t.cancellers - {c}), key);
    } else {
      var d :| d in s.downloads && AsKey(s.downloads[d].variant) == key && MayRelease(s.downloads[d]);
      TaskRemains(s, e, d);
      run := ReleaserEvicts(t, d, key);
    }
  }

  // -------------------------------------------------------------------
  // Exactly which downloads keep their entry
  // -------------------------------------------------------------------

  lemma FreeEntryIsOwned(s: State, e: Event)
    requires Inv(s) && Enabled(s, e) && Entered(s, e).Some? && !Contended(s, Entered(s, e).value)
    ensures Entered(s, e).value in Apply(s, e).queue.active
    ensures OwnsEntry(Apply(s, e), Apply(s, e).queue.active[Entered(s, e).value])
  {
    EnteredIsReady(s, e);
    var id := Apply(s, e).queue.active[Entered(s, e).value];
    assert OwnsEntry(s, id) by {
      if id in s.downloads {
        assert Parked(s.downloads[id]);
      }
    }
    StepKeepsOwnership(s, e, id);
  }

  lemma ContendedEntryIsLost(s: State, e: Event) returns (after: seq<Event>)
    requires Inv(s) && Enabled(s, e) && Entered(s, e).Some? && Contended(s, Entered(s, e).value)
    ensures ValidRun(Apply(s, e), after) && Entered(s, e).value in Apply(s, e).queue.active
    ensures !HoldsEntry(After(Apply(s, e), after), Apply(s, e).queue.active[Entered(s, e).value])
  {
    after := ContentionEvicts(s, e);
  }

  lemma OwnedEntryIsKept(s: State, run: seq<Event>, id: nat)
    requires Inv(s) && ValidRun(s, run) && OwnsEntry(s, id) && id in s.downloads && !Parked(s.downloads[id])
    ensures HoldsEntry(After(s, run), id)
  {
    EntersOnce(s, run, id);
    RunKeepsOwnership(s, run, id);
  }

  /**
   From every reachable state, a download that a step gives a slot holds its entry over every continuation
   until it ends or is cancelled, exactly when its key was uncontended at that step.
   */
  lemma EntryIsKeptExactly(before: seq<Event>, e: Event)
    requires ValidRun(INITIAL, before) && Enabled(After(INITIAL, before), e) && Entered(After(INITIAL, before), e).Some?
    ensures var s := After(INITIAL, before);
            var t, key := Apply(s, e), Entered(s, e).value;
            && key in t.queue.active
            && ((forall after :: ValidRun(t, after) ==> HoldsEntry(After(t, after), t.queue.active[key])) <==> !Contended(s, key))
  {
    var s := After(INITIAL, before);
    InitialInv();
    RunKeepsInv(INITIAL, before);
    EnteredIsReady(s, e);
    StepKeepsInv(s, e);
    var t, key := Apply(s, e), Entered(s, e).value;
    var id := t.queue.active[key];
    if Contended(s, key) {
      var after := ContendedEntryIsLost(s, e);
    } else {
      FreeEntryIsOwned(s, e);
      forall after | ValidRun(t, after) ensures HoldsEntry(After(t, after), id) {
        OwnedEntryIsKept(t, after, id);
      }
    }
  }

  const EXAMPLE_VARIANT: VariantKey := VariantKey("whisper-tiny", Some("Q8_0"))

  /** The first download's tail is about to run, its entry already removed by a cancel that has returned. */
  const FAILED_AND_CANCELLED: State :=
    State(Queue([], map[]), map[1 := Download(EXAMPLE_VARIANT, Cancelled, FailTail, 0, 0)], map[], [], [], {}, 1, 1)

  lemma FailedAndCancelledIsReachable() returns (run: seq<Event>)
    ensures ValidRun(INITIAL, run) && After(INITIAL, run) == FAILED_AND_CANCELLED
  {
    var v, key := EXAMPLE_VARIANT, AsKey(EXAMPLE_VARIANT);
    var s1 := Apply(INITIAL, Submit(1, v));
    var s2 := Apply(s1, Start(1, true));
    var s3 := Apply(s2, Fail(1));
    var s4 := Apply(s3, SignalCancel(0, v));
    assert s4 == State(Queue([], map[key := 1]), map[1 := Download(v, Cancelled, FailTail, 0, 0)], map[0 := Canceller(key, 1)], [], [], {}, 1, 0);
    assert Apply(s4, FinishCancel(0)) == FAILED_AND_CANCELLED;
    OneStep(s4, FinishCancel(0));
    FirstStep(s3, SignalCancel(0, v), [FinishCancel(0)]);
    run := [SignalCancel(0, v)] + [FinishCancel(0)];
    FirstStep(s2, Fail(1), run);
    run := [Fail(1)] + run;
    FirstStep(s1, Start(1, true), run);
    run := [Start(1, true)] + run;
    FirstStep(INITIAL, Submit(1, v), run);
    run := [Submit(1, v)] + run;
  }

  /**
   The failing family is reachable with no canceller in flight: a download fails, a cancel that
   arrives after the failure was seen removes its entry and returns, the same Variant is claimed
   again, and the first download's tail then removes the second one's entry.
   */
  lemma FailedTailEvictsTheRetry() returns (before: seq<Event>)
    ensures ValidRun(INITIAL, before) && After(INITIAL, before).cancellers == map[]
    ensures var s := After(INITIAL, before);
            && Enabled(s, Submit(2, EXAMPLE_VARIANT)) && Enabled(Apply(s, Submit(2, EXAMPLE_VARIANT)), Finish(1))
            && Evicted(Apply(Apply(s, Submit(2, EXAMPLE_VARIANT)), Finish(1)), 2)
  {
    before := FailedAndCancelledIsReachable();
    assert Apply(FAILED_AND_CANCELLED, Submit(2, EXAMPLE_VARIANT)).queue.active == map[AsKey(EXAMPLE_VARIANT) := 2];
  }
}
