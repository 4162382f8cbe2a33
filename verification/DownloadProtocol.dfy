/**
 Download tasks, cancellers and completion tails, interleaved one lock region or atomic access at
 a time over the queue of DownloadQueue.dfy.

 A download is named by a number, which also names its token. The queue stores that number where
 the program stores the shared token, so "this entry belongs to this download" can be said, although
 the program itself removes entries by Variant key alone.
 */
module DownloadProtocol {
  import opened Prelude
  import opened VariantKeys
  import opened DownloadQueues

  /** Where a download's task has got to. */
  datatype Phase =
    | Waiting       // parked in the queue
    | Unqueued      // dropped from the queue by a cancel
    | Ready         // holds its entry, task not yet spawned
    | Working       // streaming, verifying
    | Committing    // won its commit, not yet renamed
    | InPlace       // renamed; the completion tail is about to Install
    | Announced     // Installed; about to release
    | FailTail      // failed and saw no cancel; about to release
    | StartFailed   // the task never started; about to release
    | Stopped       // saw the cancel; touches nothing more
    | Released

  datatype Download = Download(variant: VariantKey, token: TokenState, phase: Phase, renames: nat, installs: nat)

  /** A canceller between its first and third phase: the key it will release, and whose token it signalled. */
  datatype Canceller = Canceller(key: string, target: nat)

  datatype State = State(
    queue: Queue<nat>,
    downloads: map<nat, Download>,
    cancellers: map<nat, Canceller>,
    // What has happened so far.
    arrivals: seq<nat>,    // parked, in order of arrival
    promotions: seq<nat>,  // promoted, in order
    unqueued: set<nat>,    // dropped from the queue by a cancel
    claims: nat,           // entries added
    removals: nat)         // entries removed

  const INITIAL: State := State(Queue([], map[]), map[], map[], [], [], {}, 0, 0)

  datatype Event =
    | Submit(id: nat, variant: VariantKey)
    | Start(id: nat, urlAccepted: bool)
    | Stop(id: nat)
    | Fail(id: nat)
    | Commit(id: nat)
    | Rename(id: nat, ok: bool)
    | Install(id: nat)
    | Finish(id: nat)
    | SignalCancel(canceller: nat, variant: VariantKey)
    | FinishCancel(canceller: nat)

  predicate Enabled(s: State, e: Event) {
    match e
    case Submit(id, v) => id !in s.downloads && Plain(v)
    case Start(id, _) => id in s.downloads && s.downloads[id].phase.Ready?
    case Stop(id) => id in s.downloads && s.downloads[id].phase.Working? && s.downloads[id].token.Cancelled?
    case Fail(id) => id in s.downloads && s.downloads[id].phase.Working?
    case Commit(id) => id in s.downloads && s.downloads[id].phase.Working?
    case Rename(id, _) => id in s.downloads && s.downloads[id].phase.Committing?
    case Install(id) => id in s.downloads && s.downloads[id].phase.InPlace?
    case Finish(id) => id in s.downloads && (s.downloads[id].phase.Announced? || s.downloads[id].phase.FailTail? || s.downloads[id].phase.StartFailed?)
    case SignalCancel(c, _) => c !in s.cancellers
    case FinishCancel(c) => c in s.cancellers
  }

  function With(s: State, id: nat, d: Download): State {
    s.(downloads := s.downloads[id := d])
  }

  function Moved(s: State, id: nat, phase: Phase): State
    requires id in s.downloads
  {
    With(s, id, s.downloads[id].(phase := phase))
  }

  /** Release the entry under `key`; a promoted request becomes Ready. */
  function Freed(s: State, key: string): State {
    var (q, next) := Release(s.queue, key);
    var t := s.(queue := q, removals := s.removals + if key in s.queue.active then 1 else 0);
    match next
    case None => t
    case Some(r) =>
      var p := t.(promotions := s.promotions + [r.token], claims := s.claims + 1);
      if r.token in s.downloads then Moved(p, r.token, Ready) else p
  }

  function Apply(s: State, e: Event): State
    requires Enabled(s, e)
  {
    match e
    case Submit(id, v) =>
      var (q, outcome) := Claim(s.queue, Request(v, id));
      (match outcome
       case AlreadyActive => s
       case Claimed => With(s, id, Download(v, Running, Ready, 0, 0)).(queue := q, claims := s.claims + 1)
       case Queued => With(s, id, Download(v, Running, Waiting, 0, 0)).(queue := q, arrivals := s.arrivals + [id]))
    case Start(id, urlAccepted) => Moved(s, id, if urlAccepted then Working else StartFailed)
    case Stop(id) => Moved(s, id, Stopped)
    case Fail(id) => Moved(s, id, if s.downloads[id].token.Cancelled? then Stopped else FailTail)
    case Commit(id) =>
      var (token, won) := TokenAfter(s.downloads[id].token, AskCommit);
      With(s, id, s.downloads[id].(token := token, phase := if won then Committing else Stopped))
    case Rename(id, ok) =>
      var d := s.downloads[id];
      if ok then With(s, id, d.(phase := InPlace, renames := d.renames + 1))
      else Moved(s, id, if d.token.Cancelled? then Stopped else FailTail)
    case Install(id) =>
      var d := s.downloads[id];
      With(s, id, d.(phase := Announced, installs := d.installs + 1))
    case Finish(id) =>
      Freed(Moved(s, id, Released), AsKey(s.downloads[id].variant))
    case SignalCancel(c, v) =>
      var i := PendingIndex(s.queue.pending, v);
      if i < |s.queue.pending| then
        var id := s.queue.pending[i].token;
        var t := s.(queue := s.queue.(pending := DropAt(s.queue.pending, i)), unqueued := s.unqueued + {id});
        if id in s.downloads then Moved(t, id, Unqueued) else t
      else if AsKey(v) in s.queue.active && s.queue.active[AsKey(v)] in s.downloads then
        var id := s.queue.active[AsKey(v)];
        var (token, won) := TokenAfter(s.downloads[id].token, AskCancel);
        if won then
          With(s, id, s.downloads[id].(token := token)).(cancellers := s.cancellers[c := Canceller(AsKey(v), id)])
        else s
      else s
    case FinishCancel(c) =>
      Freed(s.(cancellers := s.cancellers - {c}), s.cancellers[c].key)
  }

  predicate ValidRun(s: State, run: seq<Event>)
    decreases |run|
  {
    run == [] || (Enabled(s, run[0]) && ValidRun(Apply(s, run[0]), run[1..]))
  }

  function After(s: State, run: seq<Event>): State
    requires ValidRun(s, run)
    decreases |run|
  {
    if run == [] then s else After(Apply(s, run[0]), run[1..])
  }

  // -------------------------------------------------------------------
  // What holds in every reachable state, whatever the interleaving
  // -------------------------------------------------------------------

  function Tokens(pending: seq<Request<nat>>): (r: seq<nat>)
    ensures |r| == |pending|
    ensures forall i :: 0 <= i < |r| ==> r[i] == pending[i].token
  {
    seq(|pending|, i requires 0 <= i < |pending| => pending[i].token)
  }

  predicate Parked(d: Download) { d.phase.Waiting? || d.phase.Unqueued? }

  /** One download's record: who won its token, and what was done to its file. */
  predicate Consistent(d: Download) {
    && Plain(d.variant)
    && d.installs <= d.renames <= 1
    && (d.renames == 1 ==> d.token.Committed?)
    && match d.phase
       case Waiting | Unqueued => d.token.Running? && d.renames == 0
       case Ready | Working | StartFailed => !d.token.Committed? && d.renames == 0
       case Committing => d.token.Committed? && d.renames == 0
       case InPlace => d.renames == 1 && d.installs == 0
       case Announced => d.installs == 1
       case FailTail => d.renames == 0
       case Stopped => d.token.Cancelled?
       case Released => d.installs == d.renames
  }

  ghost predicate RecordsInv(s: State) {
    forall id :: id in s.downloads ==> Consistent(s.downloads[id])
  }

  ghost predicate PendingInv(s: State) {
    && (forall i :: 0 <= i < |s.queue.pending| ==>
          s.queue.pending[i].token in s.downloads && s.downloads[s.queue.pending[i].token].variant == s.queue.pending[i].variant
          && s.downloads[s.queue.pending[i].token].phase.Waiting?)
    && (forall i, j :: 0 <= i < j < |s.queue.pending| ==> s.queue.pending[i].token != s.queue.pending[j].token)
  }

  ghost predicate ActiveInv(s: State) {
    forall k :: k in s.queue.active ==>
      s.queue.active[k] in s.downloads && AsKey(s.downloads[s.queue.active[k]].variant) == k && !Parked(s.downloads[s.queue.active[k]])
  }

  ghost predicate CancellerInv(s: State) {
    forall c :: c in s.cancellers ==>
      var id := s.cancellers[c].target;
      id in s.downloads && AsKey(s.downloads[id].variant) == s.cancellers[c].key && s.downloads[id].token.Cancelled?
  }

  /** Every parked request is promoted in order of arrival unless a cancel dropped it first. */
  ghost predicate Fifo(s: State) {
    Without(s.arrivals, s.unqueued) == s.promotions + Tokens(s.queue.pending)
  }

  ghost predicate LogInv(s: State) {
    && (forall id :: id in s.unqueued ==> id in s.downloads && s.downloads[id].phase.Unqueued?)
    && (forall i :: 0 <= i < |s.promotions| ==> s.promotions[i] in s.downloads && !Parked(s.downloads[s.promotions[i]]))
  }

  ghost predicate Inv(s: State) {
    && WellFormed(s.queue)
    && RecordsInv(s)
    && PendingInv(s)
    && ActiveInv(s)
    && CancellerInv(s)
    && Fifo(s)
    && LogInv(s)
    && s.claims == s.removals + |s.queue.active|
  }

  lemma InitialInv()
    ensures Inv(INITIAL)
  {
  }

  lemma UpdateKeepsQueue(s: State, id: nat, d: Download)
    requires PendingInv(s) && ActiveInv(s) && id in s.downloads
    requires s.downloads[id].variant == d.variant && !Parked(s.downloads[id]) && !Parked(d)
    ensures PendingInv(With(s, id, d)) && ActiveInv(With(s, id, d))
  {
  }

  lemma UpdateKeepsLog(s: State, id: nat, d: Download)
    requires LogInv(s) && id in s.downloads && !Parked(s.downloads[id]) && !Parked(d)
    ensures LogInv(With(s, id, d))
  {
  }

  /** Changing one running download's own record, but not its Variant, disturbs nothing else. */
  lemma UpdateKeepsInv(s: State, id: nat, d: Download)
    requires Inv(s) && id in s.downloads && Consistent(d)
    requires s.downloads[id].variant == d.variant && (s.downloads[id].token.Cancelled? ==> d.token.Cancelled?)
    requires !Parked(s.downloads[id]) && !Parked(d)
    ensures Inv(With(s, id, d))
  {
    UpdateKeepsQueue(s, id, d);
    UpdateKeepsLog(s, id, d);
  }

  lemma TokensSplit(pending: seq<Request<nat>>, i: nat)
    requires i < |pending|
    ensures Tokens(pending) == Tokens(pending[..i]) + ([pending[i].token] + Tokens(pending[i + 1..]))
    ensures Tokens(DropAt(pending, i)) == Tokens(pending[..i]) + Tokens(pending[i + 1..])
  {
  }

  lemma TokensHead(pending: seq<Request<nat>>, promotions: seq<nat>)
    requires pending != []
    ensures promotions + Tokens(pending) == (promotions + [pending[0].token]) + Tokens(pending[1..])
  {
  }

  lemma FreedKeepsFifo(s: State, key: string)
    requires Fifo(s)
    ensures Fifo(Freed(s, key))
  {
    if key in s.queue.active && s.queue.pending != [] {
      TokensHead(s.queue.pending, s.promotions);
      assert Freed(s, key).queue.pending == s.queue.pending[1..];
    }
  }

  lemma FreedKeepsLog(s: State, key: string)
    requires PendingInv(s) && LogInv(s)
    ensures LogInv(Freed(s, key))
  {
  }

  lemma FreedKeepsPending(s: State, key: string)
    requires PendingInv(s)
    ensures PendingInv(Freed(s, key))
  {
    var t := Freed(s, key);
    if key in s.queue.active && s.queue.pending != [] {
      assert forall i :: 0 <= i < |t.queue.pending| ==> t.queue.pending[i] == s.queue.pending[i + 1];
    }
  }

  lemma FreedKeepsActive(s: State, key: string)
    requires PendingInv(s) && ActiveInv(s)
    ensures ActiveInv(Freed(s, key))
  {
  }

  lemma FreedKeepsRecords(s: State, key: string)
    requires PendingInv(s) && RecordsInv(s) && CancellerInv(s)
    ensures RecordsInv(Freed(s, key)) && CancellerInv(Freed(s, key))
  {
  }

  lemma FreedKeepsInv(s: State, key: string)
    requires Inv(s)
    ensures Inv(Freed(s, key))
  {
    FreedKeepsFifo(s, key);
    FreedKeepsLog(s, key);
    FreedKeepsPending(s, key);
    FreedKeepsActive(s, key);
    FreedKeepsRecords(s, key);
    ReleaseKeepsWellFormed(s.queue, key);
  }

  lemma SubmitKeepsPending(s: State, id: nat, v: VariantKey)
    requires PendingInv(s) && Enabled(s, Submit(id, v))
    ensures PendingInv(Apply(s, Submit(id, v)))
  {
  }

  lemma SubmitKeepsActive(s: State, id: nat, v: VariantKey)
    requires ActiveInv(s) && Enabled(s, Submit(id, v))
    ensures ActiveInv(Apply(s, Submit(id, v)))
  {
  }

  lemma SubmitKeepsRecords(s: State, id: nat, v: VariantKey)
    requires RecordsInv(s) && CancellerInv(s) && Enabled(s, Submit(id, v))
    ensures RecordsInv(Apply(s, Submit(id, v))) && CancellerInv(Apply(s, Submit(id, v)))
  {
  }

  lemma SubmitKeepsFifo(s: State, id: nat, v: VariantKey)
    requires Inv(s) && Enabled(s, Submit(id, v))
    ensures Fifo(Apply(s, Submit(id, v))) && LogInv(Apply(s, Submit(id, v)))
  {
    if Claim(s.queue, Request(v, id)).1.Queued? {
      var t := Apply(s, Submit(id, v));
      assert Tokens(t.queue.pending) == Tokens(s.queue.pending) + [id];
      WithoutAppend(s.arrivals, [id], s.unqueued);
      WithoutAbsent([id], s.unqueued);
    }
  }

  lemma SubmitKeepsQueue(s: State, id: nat, v: VariantKey)
    requires WellFormed(s.queue) && s.claims == s.removals + |s.queue.active| && Enabled(s, Submit(id, v))
    ensures var t := Apply(s, Submit(id, v)); WellFormed(t.queue) && t.claims == t.removals + |t.queue.active|
  {
    ClaimKeepsWellFormed(s.queue, Request(v, id));
    if Claim(s.queue, Request(v, id)).1.Claimed? {
      MapGrows(s.queue.active, AsKey(v), id);
    }
  }

  lemma SubmitKeepsInv(s: State, id: nat, v: VariantKey)
    requires Inv(s) && Enabled(s, Submit(id, v))
    ensures Inv(Apply(s, Submit(id, v)))
  {
    SubmitKeepsPending(s, id, v);
    SubmitKeepsActive(s, id, v);
    SubmitKeepsRecords(s, id, v);
    SubmitKeepsFifo(s, id, v);
    SubmitKeepsQueue(s, id, v);
  }

  /** The state after a cancel drops the i-th queued request. */
  function Dropping(s: State, i: nat): State
    requires PendingInv(s) && i < |s.queue.pending|
  {
    var id := s.queue.pending[i].token;
    Moved(s.(queue := s.queue.(pending := DropAt(s.queue.pending, i)), unqueued := s.unqueued + {id}), id, Unqueued)
  }

  lemma DroppingKeepsPending(s: State, i: nat)
    requires PendingInv(s) && i < |s.queue.pending|
    ensures PendingInv(Dropping(s, i))
  {
    var t := Dropping(s, i);
    assert forall j :: 0 <= j < |t.queue.pending| ==> t.queue.pending[j] == s.queue.pending[if j < i then j else j + 1];
  }

  lemma DroppingKeepsRecords(s: State, i: nat)
    requires PendingInv(s) && ActiveInv(s) && RecordsInv(s) && CancellerInv(s) && i < |s.queue.pending|
    ensures var t := Dropping(s, i); ActiveInv(t) && RecordsInv(t) && CancellerInv(t)
  {
  }

  lemma {:induction false} WithoutMiddle(before: seq<nat>, id: nat, after: seq<nat>)
    requires id !in before && id !in after
    ensures Without(before + ([id] + after), {id}) == before + after
  {
    var all := before + ([id] + after);
    if before == [] {
      assert all[1..] == after;
      WithoutAbsent(after, {id});
    } else {
      assert all[1..] == before[1..] + ([id] + after);
      WithoutMiddle(before[1..], id, after);
    }
  }

  lemma DropFromOrder(arrivals: seq<nat>, unqueued: set<nat>, promotions: seq<nat>, ahead: seq<nat>, id: nat, behind: seq<nat>)
    requires Without(arrivals, unqueued) == promotions + (ahead + ([id] + behind))
    requires id !in promotions && id !in ahead && id !in behind
    ensures Without(arrivals, unqueued + {id}) == promotions + (ahead + behind)
  {
    assert promotions + (ahead + ([id] + behind)) == (promotions + ahead) + ([id] + behind);
    assert promotions + (ahead + behind) == (promotions + ahead) + behind;
    WithoutMore(arrivals, unqueued, id);
    WithoutMiddle(promotions + ahead, id, behind);
  }

  lemma DroppingKeepsFifo(s: State, i: nat)
    requires PendingInv(s) && LogInv(s) && Fifo(s) && i < |s.queue.pending|
    ensures Fifo(Dropping(s, i))
  {
    var id := s.queue.pending[i].token;
    TokensSplit(s.queue.pending, i);
    DropFromOrder(s.arrivals, s.unqueued, s.promotions, Tokens(s.queue.pending[..i]), id, Tokens(s.queue.pending[i + 1..]));
  }

  lemma DroppingKeepsLog(s: State, i: nat)
    requires PendingInv(s) && LogInv(s) && i < |s.queue.pending|
    ensures LogInv(Dropping(s, i))
  {
  }

  lemma DroppingKeepsInv(s: State, i: nat)
    requires Inv(s) && i < |s.queue.pending|
    ensures Inv(Dropping(s, i))
  {
    DroppingKeepsPending(s, i);
    DroppingKeepsRecords(s, i);
    DroppingKeepsFifo(s, i);
    DroppingKeepsLog(s, i);
    DropKeepsWellFormed(s.queue, i);
  }

  /** The state after canceller `c` wins the token of the download holding `key`. */
  function Signalling(s: State, c: nat, key: string): State
    requires ActiveInv(s) && key in s.queue.active
  {
    var id := s.queue.active[key];
    With(s, id, s.downloads[id].(token := Cancelled)).(cancellers := s.cancellers[c := Canceller(key, id)])
  }

  lemma CancellerJoins(s: State, c: nat, who: Canceller)
    requires Inv(s) && who.target in s.downloads && AsKey(s.downloads[who.target].variant) == who.key && s.downloads[who.target].token.Cancelled?
    ensures Inv(s.(cancellers := s.cancellers[c := who]))
  {
  }

  lemma SignallingKeepsInv(s: State, c: nat, key: string)
    requires Inv(s) && key in s.queue.active && !s.downloads[s.queue.active[key]].token.Committed?
    ensures Inv(Signalling(s, c, key))
  {
    var id := s.queue.active[key];
    UpdateKeepsInv(s, id, s.downloads[id].(token := Cancelled));
    CancellerJoins(With(s, id, s.downloads[id].(token := Cancelled)), c, Canceller(key, id));
  }

  lemma SignalKeepsInv(s: State, c: nat, v: VariantKey)
    requires Inv(s) && Enabled(s, SignalCancel(c, v))
    ensures Inv(Apply(s, SignalCancel(c, v)))
  {
    var i, key := PendingIndex(s.queue.pending, v), AsKey(v);
    if i < |s.queue.pending| {
      DroppingKeepsInv(s, i);
    } else if key in s.queue.active && !s.downloads[s.queue.active[key]].token.Committed? {
      SignallingKeepsInv(s, c, key);
    }
  }

  /** The download a task's own event is about, and its record afterwards. */
  lemma TaskKeepsInv(s: State, e: Event, id: nat)
    requires Inv(s) && Enabled(s, e)
    requires e == Start(id, true) || e == Start(id, false) || e == Stop(id) || e == Fail(id) || e == Commit(id)
             || e == Rename(id, true) || e == Rename(id, false) || e == Install(id)
    ensures Inv(Apply(s, e))
  {
    UpdateKeepsInv(s, id, Apply(s, e).downloads[id]);
  }

  lemma StepKeepsInv(s: State, e: Event)
    requires Inv(s) && Enabled(s, e)
    ensures Inv(Apply(s, e))
  {
    match e
    case Submit(id, v) => SubmitKeepsInv(s, id, v);
    case SignalCancel(c, v) => SignalKeepsInv(s, c, v);
    case FinishCancel(c) =>
      FreedKeepsInv(s.(cancellers := s.cancellers - {c}), s.cancellers[c].key);
    case Finish(id) =>
      UpdateKeepsInv(s, id, s.downloads[id].(phase := Released));
      FreedKeepsInv(Moved(s, id, Released), AsKey(s.downloads[id].variant));
    case Start(id, _) => TaskKeepsInv(s, e, id);
    case Stop(id) => TaskKeepsInv(s, e, id);
    case Fail(id) => TaskKeepsInv(s, e, id);
    case Commit(id) => TaskKeepsInv(s, e, id);
    case Rename(id, _) => TaskKeepsInv(s, e, id);
    case Install(id) => TaskKeepsInv(s, e, id);
  }

  lemma {:induction false} RunKeepsInv(s: State, run: seq<Event>)
    requires Inv(s) && ValidRun(s, run)
    ensures Inv(After(s, run))
    decreases |run|
  {
    if run != [] {
      StepKeepsInv(s, run[0]);
      RunKeepsInv(Apply(s, run[0]), run[1..]);
    }
  }
}
