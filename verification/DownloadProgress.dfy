/**
 What becomes of a submitted download: it is recorded unless its Variant was already there, a parked
 one can always come to hold a slot, and one cancelled in time is never Installed.
 */
module DownloadProgress {
  import opened Prelude
  import opened VariantKeys
  import opened DownloadQueues
  import opened DownloadProtocol
  import opened DownloadOwnership

  /** The Variant holds a slot or waits for one. */
  ghost predicate Listed(s: State, v: VariantKey) {
    AsKey(v) in s.queue.active || exists i :: 0 <= i < |s.queue.pending| && s.queue.pending[i].variant == v
  }

  /** The download holds the entry under its key, about to start. */
  ghost predicate HoldsSlot(s: State, id: nat, v: VariantKey) {
    && AsKey(v) in s.queue.active && s.queue.active[AsKey(v)] == id
    && id in s.downloads && s.downloads[id] == Download(v, Running, Ready, 0, 0)
  }

  /** The download is the last in the queue. */
  ghost predicate WaitsLast(s: State, id: nat, v: VariantKey) {
    && s.queue.pending != [] && s.queue.pending[|s.queue.pending| - 1] == Request(v, id)
    && id in s.downloads && s.downloads[id] == Download(v, Running, Waiting, 0, 0)
  }

  /**
   A submission of a Variant that is neither active nor waiting takes a slot if fewer than three are
   taken and otherwise joins the end of the queue; any other submission changes nothing.
   */
  lemma SubmissionIsRecorded(s: State, id: nat, v: VariantKey)
    requires Enabled(s, Submit(id, v))
    ensures var t := Apply(s, Submit(id, v));
            if Listed(s, v) then t == s
            else if |s.queue.active| < 3 then
              && HoldsSlot(t, id, v) && t.queue.pending == s.queue.pending && t.arrivals == s.arrivals
              && t.queue.active.Keys == s.queue.active.Keys + {AsKey(v)}
            else
              && WaitsLast(t, id, v) && t.queue.pending == s.queue.pending + [Request(v, id)] && t.arrivals == s.arrivals + [id]
              && t.queue.active == s.queue.active
    ensures forall other :: other in s.downloads ==> other in Apply(s, Submit(id, v)).downloads && Apply(s, Submit(id, v)).downloads[other] == s.downloads[other]
    ensures forall k :: k in s.queue.active ==> k in Apply(s, Submit(id, v)).queue.active
    ensures !Listed(s, v) ==> Listed(Apply(s, Submit(id, v)), v)
  {
    var t := Apply(s, Submit(id, v));
    if !Listed(s, v) && |s.queue.active| >= 3 {
      assert t.queue.pending[|s.queue.pending|] == Request(v, id);
    }
  }

  // -------------------------------------------------------------------
  // What a cancel does
  // -------------------------------------------------------------------

  /** A cancel that meets a waiting request withdraws it, and nothing else changes. */
  lemma CancelWithdraws(s: State, c: nat, v: VariantKey, i: nat)
    requires Inv(s) && Enabled(s, SignalCancel(c, v)) && i < |s.queue.pending| && s.queue.pending[i].variant == v
    ensures var t := Apply(s, SignalCancel(c, v));
            var id := s.queue.pending[i].token;
            && t.queue.pending == s.queue.pending[..i] + s.queue.pending[i + 1..] && t.queue.active == s.queue.active
            && t.cancellers == s.cancellers
            && id in s.downloads && t.downloads == s.downloads[id := s.downloads[id].(phase := Unqueued)]
  {
    assert PendingIndex(s.queue.pending, v) == i;
  }

  lemma FreedKeepsWithdrawn(s: State, key: string, id: nat)
    requires PendingInv(s) && id in s.downloads && s.downloads[id].phase.Unqueued?
    ensures id in Freed(s, key).downloads && Freed(s, key).downloads[id] == s.downloads[id]
  {
    FreedKeepsOthers(s, key, id);
  }

  lemma StepKeepsWithdrawn(s: State, e: Event, id: nat)
    requires Inv(s) && Enabled(s, e) && id in s.downloads && s.downloads[id].phase.Unqueued?
    ensures id in Apply(s, e).downloads && Apply(s, e).downloads[id] == s.downloads[id]
  {
    match e
    case SignalCancel(c, v) => SignalKeepsWithdrawn(s, c, v, id);
    case FinishCancel(c) => FreedKeepsWithdrawn(s.(cancellers := s.cancellers - {c}), s.cancellers[c].key, id);
    case Finish(d) =>
      assert PendingInv(Moved(s, d, Released));
      FreedKeepsWithdrawn(Moved(s, d, Released), AsKey(s.downloads[d].variant), id);
    case _ =>
  }

  lemma SignalKeepsWithdrawn(s: State, c: nat, v: VariantKey, id: nat)
    requires Inv(s) && Enabled(s, SignalCancel(c, v)) && id in s.downloads && s.downloads[id].phase.Unqueued?
    ensures var t := Apply(s, SignalCancel(c, v)); id in t.downloads && t.downloads[id] == s.downloads[id]
  {
  }

  lemma {:induction false} WithdrawnForGood(s: State, run: seq<Event>, id: nat)
    requires Inv(s) && ValidRun(s, run) && id in s.downloads && s.downloads[id].phase.Unqueued?
    ensures id in After(s, run).downloads && After(s, run).downloads[id] == s.downloads[id]
    decreases |run|
  {
    if run == [] {
      assert After(s, run) == s;
    } else {
      StepKeepsWithdrawn(s, run[0], id);
      StepKeepsInv(s, run[0]);
      WithdrawnForGood(Apply(s, run[0]), run[1..], id);
    }
  }

  /** In every reachable state: a request cancelled while it waits never starts, whatever follows. */
  lemma CancelledWhileWaiting(before: seq<Event>, c: nat, v: VariantKey, i: nat, after: seq<Event>)
    requires ValidRun(INITIAL, before)
    requires var s := After(INITIAL, before);
             && Enabled(s, SignalCancel(c, v)) && i < |s.queue.pending| && s.queue.pending[i].variant == v
             && ValidRun(Apply(s, SignalCancel(c, v)), after)
    ensures var s := After(INITIAL, before);
            var id := s.queue.pending[i].token;
            var e := After(Apply(s, SignalCancel(c, v)), after);
            id in e.downloads && e.downloads[id] == Download(v, Running, Unqueued, 0, 0)
  {
    InitialInv();
    RunKeepsInv(INITIAL, before);
    WithdrawsForGood(After(INITIAL, before), c, v, i, after);
  }

  lemma WithdrawsForGood(s: State, c: nat, v: VariantKey, i: nat, after: seq<Event>)
    requires Inv(s) && Enabled(s, SignalCancel(c, v)) && i < |s.queue.pending| && s.queue.pending[i].variant == v
    requires ValidRun(Apply(s, SignalCancel(c, v)), after)
    ensures var id := s.queue.pending[i].token;
            var e := After(Apply(s, SignalCancel(c, v)), after);
            id in e.downloads && e.downloads[id] == Download(v, Running, Unqueued, 0, 0)
  {
    CancelWithdraws(s, c, v, i);
    assert Consistent(s.downloads[s.queue.pending[i].token]);
    StepKeepsInv(s, SignalCancel(c, v));
    WithdrawnForGood(Apply(s, SignalCancel(c, v)), after, s.queue.pending[i].token);
  }

  /** A cancel that meets a holder with an undecided token stops it: over every continuation it is neither renamed nor Installed. */
  lemma CancelStopsTheHolder(s: State, c: nat, v: VariantKey, after: seq<Event>)
    requires Inv(s) && Enabled(s, SignalCancel(c, v)) && AsKey(v) in s.queue.active && ValidRun(Apply(s, SignalCancel(c, v)), after)
    requires Plain(v) && s.downloads[s.queue.active[AsKey(v)]].token.Running?
    ensures var id := s.queue.active[AsKey(v)];
            var t := Apply(s, SignalCancel(c, v));
            && t.queue == s.queue && t.cancellers == s.cancellers[c := Canceller(AsKey(v), id)]
            && id in After(t, after).downloads
            && var d := After(t, after).downloads[id]; d.token.Cancelled? && d.renames == 0 && d.installs == 0
  {
    var id := s.queue.active[AsKey(v)];
    AsKeyInjective(v, s.downloads[id].variant);
    NotWaiting(s, AsKey(v));
    var t := Apply(s, SignalCancel(c, v));
    assert t == Signalling(s, c, AsKey(v));
    StepKeepsInv(s, SignalCancel(c, v));
    TokenIsFinal(t, after, id);
    RunKeepsInv(t, after);
    assert Consistent(After(t, after).downloads[id]);
  }

  // -------------------------------------------------------------------
  // A parked download can start
  // -------------------------------------------------------------------

  /** Nobody holds a slot after their download released it. */
  ghost predicate HoldersLive(s: State) {
    forall k :: k in s.queue.active && s.queue.active[k] in s.downloads ==> !s.downloads[s.queue.active[k]].phase.Released?
  }

  lemma FreedKeepsLive(s: State, key: string)
    requires PendingInv(s) && forall k :: k in s.queue.active && k != key && s.queue.active[k] in s.downloads ==> !s.downloads[s.queue.active[k]].phase.Released?
    ensures HoldersLive(Freed(s, key))
  {
    FreedRecords(s, key);
  }

  lemma FinishKeepsLive(s: State, id: nat)
    requires Inv(s) && HoldersLive(s) && Enabled(s, Finish(id))
    ensures HoldersLive(Apply(s, Finish(id)))
  {
    assert PendingInv(Moved(s, id, Released));
    FreedKeepsLive(Moved(s, id, Released), AsKey(s.downloads[id].variant));
  }

  lemma SignalKeepsLive(s: State, c: nat, v: VariantKey)
    requires Inv(s) && HoldersLive(s) && Enabled(s, SignalCancel(c, v))
    ensures HoldersLive(Apply(s, SignalCancel(c, v)))
  {
  }

  lemma StepKeepsLive(s: State, e: Event)
    requires Inv(s) && HoldersLive(s) && Enabled(s, e)
    ensures HoldersLive(Apply(s, e))
  {
    match e
    case Finish(id) => FinishKeepsLive(s, id);
    case FinishCancel(c) => FreedKeepsLive(s.(cancellers := s.cancellers - {c}), s.cancellers[c].key);
    case SignalCancel(c, v) => SignalKeepsLive(s, c, v);
    case _ =>
  }

  lemma {:induction false} RunKeepsLive(s: State, run: seq<Event>)
    requires Inv(s) && HoldersLive(s) && ValidRun(s, run)
    ensures Inv(After(s, run)) && HoldersLive(After(s, run))
    decreases |run|
  {
    if run == [] {
      assert After(s, run) == s;
    } else {
      StepKeepsInv(s, run[0]);
      StepKeepsLive(s, run[0]);
      RunKeepsLive(Apply(s, run[0]), run[1..]);
    }
  }

  /** The head of the queue has got a slot, and the others have moved up. */
  ghost predicate MovedUp(s: State, t: State) {
    && s.queue.pending != [] && t.queue.pending == s.queue.pending[1..]
    && HoldsSlot(t, s.queue.pending[0].token, s.queue.pending[0].variant)
  }

  lemma ReleaseMovesUp(s: State, key: string)
    requires Inv(s) && key in s.queue.active && s.queue.pending != []
    ensures MovedUp(s, Freed(s, key))
  {
    FreedRecords(s, key);
    assert Consistent(s.downloads[s.queue.pending[0].token]);
  }

  lemma FinishMovesUp(s: State, id: nat)
    requires Inv(s) && Enabled(s, Finish(id)) && AsKey(s.downloads[id].variant) in s.queue.active && s.queue.pending != []
    ensures MovedUp(s, Apply(s, Finish(id)))
  {
    UpdateKeepsInv(s, id, s.downloads[id].(phase := Released));
    ReleaseMovesUp(Moved(s, id, Released), AsKey(s.downloads[id].variant));
  }

  /** A slot whose holder has not committed is freed by cancelling it. */
  lemma CancelMovesUp(s: State, key: string) returns (run: seq<Event>)
    requires Inv(s) && key in s.queue.active && s.queue.pending != [] && !s.downloads[s.queue.active[key]].token.Committed?
    ensures ValidRun(s, run) && MovedUp(s, After(s, run))
  {
    var id := s.queue.active[key];
    var v := s.downloads[id].variant;
    assert Consistent(s.downloads[id]);
    var c := NotIn(s.cancellers.Keys, 0);
    var t := Apply(s, SignalCancel(c, v));
    NotWaiting(s, key);
    assert t == Signalling(s, c, key);
    StepKeepsInv(s, SignalCancel(c, v));
    ReleaseMovesUp(t.(cancellers := t.cancellers - {c}), key);
    OneStep(t, FinishCancel(c));
    FirstStep(s, SignalCancel(c, v), [FinishCancel(c)]);
    run := [SignalCancel(c, v)] + [FinishCancel(c)];
  }

  lemma NotWaiting(s: State, key: string)
    requires Inv(s) && key in s.queue.active
    ensures PendingIndex(s.queue.pending, s.downloads[s.queue.active[key]].variant) == |s.queue.pending|
  {
  }

  /** How far a committed download is from its release. */
  function StepsLeft(d: Download): nat {
    match d.phase
    case Committing => 2
    case InPlace => 1
    case _ => 0
  }

  function Onward(d: Download, id: nat): Event {
    if d.phase.Committing? then Rename(id, true) else Install(id)
  }

  lemma CommittedGoesOn(s: State, id: nat)
    requires Inv(s) && id in s.downloads && (s.downloads[id].phase.Committing? || s.downloads[id].phase.InPlace?)
    ensures var e := Onward(s.downloads[id], id);
            && Enabled(s, e) && Apply(s, e).queue == s.queue
            && id in Apply(s, e).downloads && StepsLeft(Apply(s, e).downloads[id]) < StepsLeft(s.downloads[id])
            && Apply(s, e).downloads[id].token == s.downloads[id].token
  {
    assert Consistent(s.downloads[id]);
  }

  /** A slot whose holder has committed is freed by letting it finish. */
  lemma {:induction false} CommittedMovesUp(s: State, key: string) returns (run: seq<Event>)
    requires Inv(s) && HoldersLive(s) && key in s.queue.active && s.queue.pending != []
    requires s.downloads[s.queue.active[key]].token.Committed?
    ensures ValidRun(s, run) && MovedUp(s, After(s, run))
    decreases StepsLeft(s.downloads[s.queue.active[key]])
  {
    var id := s.queue.active[key];
    assert Consistent(s.downloads[id]);
    if s.downloads[id].phase.Committing? || s.downloads[id].phase.InPlace? {
      var e := Onward(s.downloads[id], id);
      CommittedGoesOn(s, id);
      StepKeepsInv(s, e);
      StepKeepsLive(s, e);
      var rest := CommittedMovesUp(Apply(s, e), key);
      FirstStep(s, e, rest);
      run := [e] + rest;
    } else {
      FinishMovesUp(s, id);
      OneStep(s, Finish(id));
      run := [Finish(id)];
    }
  }

  lemma SlotComesFree(s: State) returns (run: seq<Event>)
    requires Inv(s) && HoldersLive(s) && s.queue.pending != []
    ensures ValidRun(s, run) && MovedUp(s, After(s, run))
  {
    assert |s.queue.active| == MAX_CONCURRENT_DOWNLOADS;
    assert s.queue.active.Keys != {} by {
      assert |s.queue.active.Keys| == |s.queue.active|;
    }
    var key :| key in s.queue.active;
    if s.downloads[s.queue.active[key]].token.Committed? {
      run := CommittedMovesUp(s, key);
    } else {
      run := CancelMovesUp(s, key);
    }
  }

  lemma {:induction false} Chain(s: State, one: seq<Event>, two: seq<Event>)
    requires ValidRun(s, one) && ValidRun(After(s, one), two)
    ensures ValidRun(s, one + two) && After(s, one + two) == After(After(s, one), two)
    decreases |one|
  {
    if one == [] {
      assert After(s, one) == s && one + two == two;
    } else {
      var e, rest := one[0], one[1..];
      Chain(Apply(s, e), rest, two);
      FirstStep(s, e, rest + two);
      Regroup([e], rest, two);
      assert [e] + rest == one;
    }
  }

  /** One turn of the queue brings a waiting request one place forward. */
  lemma QueueMovesUp(s: State, i: nat, r: Request<nat>) returns (run: seq<Event>, t: State)
    requires Inv(s) && HoldersLive(s) && 0 < i < |s.queue.pending| && s.queue.pending[i] == r
    ensures ValidRun(s, run) && After(s, run) == t
    ensures Inv(t) && HoldersLive(t) && i - 1 < |t.queue.pending| && t.queue.pending[i - 1] == r
  {
    run := SlotComesFree(s);
    RunKeepsLive(s, run);
    t := After(s, run);
  }

  lemma HoldsLater(s: State, one: seq<Event>, t: State, two: seq<Event>, r: Request<nat>) returns (run: seq<Event>)
    requires ValidRun(s, one) && After(s, one) == t && ValidRun(t, two) && HoldsSlot(After(t, two), r.token, r.variant)
    ensures ValidRun(s, run) && HoldsSlot(After(s, run), r.token, r.variant)
  {
    Chain(s, one, two);
    run := one + two;
  }

  lemma HeadComesToHold(s: State, r: Request<nat>) returns (run: seq<Event>)
    requires Inv(s) && HoldersLive(s) && s.queue.pending != [] && s.queue.pending[0] == r
    ensures ValidRun(s, run) && HoldsSlot(After(s, run), r.token, r.variant)
  {
    run := SlotComesFree(s);
  }

  lemma {:induction false} WaitingComesToHold(s: State, i: nat, r: Request<nat>) returns (run: seq<Event>)
    requires Inv(s) && HoldersLive(s) && i < |s.queue.pending| && s.queue.pending[i] == r
    ensures ValidRun(s, run) && HoldsSlot(After(s, run), r.token, r.variant)
    decreases i
  {
    if i == 0 {
      run := HeadComesToHold(s, r);
    } else {
      var one, t := QueueMovesUp(s, i, r);
      var rest := WaitingComesToHold(t, i - 1, r);
      run := HoldsLater(s, one, t, rest, r);
    }
  }

  /** From every reachable state, every parked request can come to hold a slot. */
  lemma ParkedCanStart(before: seq<Event>, i: nat) returns (run: seq<Event>)
    requires ValidRun(INITIAL, before) && i < |After(INITIAL, before).queue.pending|
    ensures var s := After(INITIAL, before);
            ValidRun(s, run) && HoldsSlot(After(s, run), s.queue.pending[i].token, s.queue.pending[i].variant)
  {
    InitialInv();
    RunKeepsLive(INITIAL, before);
    run := WaitingComesToHold(After(INITIAL, before), i, After(INITIAL, before).queue.pending[i]);
  }
}
