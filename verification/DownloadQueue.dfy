/**
 The slot set and FIFO queue of the download coordinator, and the token that decides whether a
 download's task or a cancel owns its end.

 Every method below is one lock region. The functions give the value each region leaves behind;
 the protocol of DownloadProtocol.dfy interleaves the same functions.
 */
module DownloadQueues {
  import opened Prelude
  import opened VariantKeys

  const MAX_CONCURRENT_DOWNLOADS: nat := 3

  // -------------------------------------------------------------------
  // The cancel/commit token
  // -------------------------------------------------------------------

  datatype TokenState = Running | Cancelled | Committed

  datatype TokenCall = AskCancel | AskCommit

  /** compare_exchange from Running, and the answer the caller gets. */
  function TokenAfter(state: TokenState, call: TokenCall): (TokenState, bool) {
    match call
    case AskCancel =>
      var after := if state.Running? then Cancelled else state;
      (after, after.Cancelled?)
    case AskCommit =>
      (if state.Running? then Committed else state, state.Running?)
  }

  class CancelToken {
    var state: TokenState

    constructor ()
      ensures state == Running
    {
      state := Running;
    }

    method Cancel() returns (won: bool)
      modifies this
      ensures (state, won) == TokenAfter(old(state), AskCancel)
    {
      if state.Running? {
        state := Cancelled;
        won := true;
      } else {
        won := state.Cancelled?;
      }
    }

    method Commit() returns (won: bool)
      modifies this
      ensures (state, won) == TokenAfter(old(state), AskCommit)
    {
      won := state.Running?;
      if won {
        state := Committed;
      }
    }
  }

  /** The answers a token gives to any sequence of calls, in whatever order they arrive. */
  function TokenAnswers(state: TokenState, calls: seq<TokenCall>): (r: seq<bool>)
    ensures |r| == |calls|
    decreases |calls|
  {
    if calls == [] then []
    else
      var (next, won) := TokenAfter(state, calls[0]);
      [won] + TokenAnswers(next, calls[1..])
  }

  lemma {:induction false} SettledTokenAnswers(state: TokenState, calls: seq<TokenCall>, i: nat)
    requires !state.Running? && i < |calls|
    ensures TokenAnswers(state, calls)[i] <==> state.Cancelled? && calls[i].AskCancel?
  {
    if i > 0 {
      SettledTokenAnswers(state, calls[1..], i - 1);
    }
  }

  /**
   The first caller's side wins and the other side never does: either every cancel and no commit
   is told it won, or the first commit is and no other call.
   */
  lemma OneSideWins(calls: seq<TokenCall>, i: nat)
    requires i < |calls|
    ensures TokenAnswers(Running, calls)[i] <==>
            if calls[0].AskCancel? then calls[i].AskCancel? else i == 0
  {
    if i > 0 {
      SettledTokenAnswers(TokenAfter(Running, calls[0]).0, calls[1..], i - 1);
    }
  }

  // -------------------------------------------------------------------
  // The queue as a value
  // -------------------------------------------------------------------

  datatype Request<T> = Request(variant: VariantKey, token: T)

  datatype Outcome = Claimed | Queued | AlreadyActive

  /** `active` is keyed by the flat key; a pending request is found by its Variant. */
  datatype Queue<T> = Queue(pending: seq<Request<T>>, active: map<string, T>)

  predicate IsPending<T>(q: Queue<T>, v: VariantKey) {
    exists i :: 0 <= i < |q.pending| && q.pending[i].variant == v
  }

  predicate Contains<T>(q: Queue<T>, v: VariantKey) {
    AsKey(v) in q.active || IsPending(q, v)
  }

  function ClaimNext<T>(q: Queue<T>): (Queue<T>, Option<Request<T>>) {
    if q.pending == [] then (q, None)
    else
      var next := q.pending[0];
      (Queue(q.pending[1..], q.active[AsKey(next.variant) := next.token]), Some(next))
  }

  function Claim<T>(q: Queue<T>, r: Request<T>): (Queue<T>, Outcome) {
    if Contains(q, r.variant) then (q, AlreadyActive)
    else if |q.active| < MAX_CONCURRENT_DOWNLOADS then
      (q.(active := q.active[AsKey(r.variant) := r.token]), Claimed)
    else (q.(pending := q.pending + [r]), Queued)
  }

  /** Remove the entry under `key`, if it is there, and promote the head of the queue into its slot. */
  function Release<T>(q: Queue<T>, key: string): (Queue<T>, Option<Request<T>>) {
    if key !in q.active then (q, None) else ClaimNext(q.(active := q.active - {key}))
  }

  function PendingIndex<T>(pending: seq<Request<T>>, v: VariantKey): (i: nat)
    ensures i <= |pending|
    ensures i < |pending| ==> pending[i].variant == v
    ensures forall j :: 0 <= j < i ==> pending[j].variant != v
  {
    if pending == [] || pending[0].variant == v then 0 else 1 + PendingIndex(pending[1..], v)
  }

  function DropAt<T>(s: seq<T>, i: nat): seq<T>
    requires i < |s|
  {
    s[..i] + s[i + 1..]
  }

  /** What every lock region may rely on, and leaves true. */
  ghost predicate WellFormed<T>(q: Queue<T>) {
    && |q.active| <= MAX_CONCURRENT_DOWNLOADS
    && (q.pending != [] ==> |q.active| == MAX_CONCURRENT_DOWNLOADS)
    && (forall i :: 0 <= i < |q.pending| ==> Plain(q.pending[i].variant) && AsKey(q.pending[i].variant) !in q.active)
    && (forall i, j :: 0 <= i < j < |q.pending| ==> q.pending[i].variant != q.pending[j].variant)
  }

  lemma ClaimKeepsWellFormed<T>(q: Queue<T>, r: Request<T>)
    requires WellFormed(q) && Plain(r.variant)
    ensures WellFormed(Claim(q, r).0)
  {
    forall i | 0 <= i < |q.pending| && AsKey(q.pending[i].variant) == AsKey(r.variant)
      ensures q.pending[i].variant == r.variant
    {
      AsKeyInjective(q.pending[i].variant, r.variant);
    }
  }

  /** A release that frees an entry hands its slot to the head of the queue, so the cap is either kept or the queue is empty. */
  lemma ReleaseKeepsWellFormed<T>(q: Queue<T>, key: string)
    requires WellFormed(q)
    ensures WellFormed(Release(q, key).0)
    ensures key in q.active ==> |Release(q, key).0.active| == |q.active| - (if q.pending == [] then 1 else 0)
  {
    if key in q.active {
      var freed := q.active - {key};
      assert freed.Keys == q.active.Keys - {key};
      assert |freed| == |q.active| - 1 by {
        assert |freed.Keys| == |q.active.Keys| - 1;
      }
      if q.pending != [] {
        var next := q.pending[0];
        forall i | 0 < i < |q.pending| && AsKey(q.pending[i].variant) == AsKey(next.variant)
          ensures q.pending[i].variant == next.variant
        {
          AsKeyInjective(q.pending[i].variant, next.variant);
        }
        var promoted := freed[AsKey(next.variant) := next.token];
        assert promoted.Keys == freed.Keys + {AsKey(next.variant)};
        assert |promoted.Keys| == |freed.Keys| + 1;
      }
    }
  }

  lemma DropKeepsWellFormed<T>(q: Queue<T>, i: nat)
    requires WellFormed(q) && i < |q.pending|
    ensures WellFormed(q.(pending := DropAt(q.pending, i)))
  {
  }

  // -------------------------------------------------------------------
  // The queue under its lock
  // -------------------------------------------------------------------

  datatype CancelStart = Dropped | Ignored | Signalled | NoSlot

  class DownloadQueue {
    var pending: seq<Request<CancelToken>>
    var active: map<string, CancelToken>

    ghost function View(): Queue<CancelToken>
      reads this
    {
      Queue(pending, active)
    }

    constructor ()
      ensures View() == Queue([], map[]) && WellFormed(View())
    {
      pending, active := [], map[];
    }

    method PopFront() returns (next: Option<Request<CancelToken>>)
      modifies this
      ensures (View(), next) == ClaimNext(old(View()))
    {
      if pending == [] {
        return None;
      }
      var head := pending[0];
      pending := pending[1..];
      active := active[AsKey(head.variant) := head.token];
      next := Some(head);
    }

    method TryClaimSlot(r: Request<CancelToken>) returns (outcome: Outcome)
      requires WellFormed(View()) && Plain(r.variant)
      modifies this
      ensures (View(), outcome) == Claim(old(View()), r)
      ensures outcome == AlreadyActive <==> old(AsKey(r.variant) in active || exists i :: 0 <= i < |pending| && pending[i].variant == r.variant)
      ensures outcome == AlreadyActive ==> pending == old(pending) && active == old(active)
      ensures outcome == Claimed ==> old(|active|) < 3 && pending == old(pending) && active == old(active)[AsKey(r.variant) := r.token]
      ensures outcome == Queued ==> old(|active|) == 3 && pending == old(pending) + [r] && active == old(active)
      ensures WellFormed(View())
    {
      ClaimKeepsWellFormed(View(), r);
      if AsKey(r.variant) in active || PendingIndex(pending, r.variant) < |pending| {
        return AlreadyActive;
      }
      if |active| < MAX_CONCURRENT_DOWNLOADS {
        active := active[AsKey(r.variant) := r.token];
        outcome := Claimed;
      } else {
        pending := pending + [r];
        outcome := Queued;
      }
    }

    /** `finish`, and the third phase of a cancel. */
    method FreeSlot(v: VariantKey) returns (next: Option<Request<CancelToken>>)
      requires WellFormed(View())
      modifies this
      ensures (View(), next) == Release(old(View()), AsKey(v))
      ensures old(AsKey(v) !in active || pending == []) ==> next == None && pending == old(pending) && active == old(active) - {AsKey(v)}
      ensures old(AsKey(v) in active && pending != []) ==>
                && next == Some(old(pending)[0]) && pending == old(pending)[1..]
                && active == (old(active) - {AsKey(v)})[AsKey(next.value.variant) := next.value.token]
      ensures WellFormed(View())
    {
      ReleaseKeepsWellFormed(View(), AsKey(v));
      if AsKey(v) !in active {
        assert active - {AsKey(v)} == active;
        return None;
      }
      active := active - {AsKey(v)};
      next := PopFront();
    }

    /**
     The first phase of a cancel: a queued request is dropped; a download holding a slot is
     signalled and its entry stays, so the queue is unchanged.
     */
    method SignalCancel(v: VariantKey) returns (start: CancelStart)
      requires WellFormed(View())
      modifies this, active.Values
      ensures WellFormed(View())
      ensures start == Dropped <==> old(IsPending(View(), v))
      ensures start == Dropped ==> var i := PendingIndex(old(pending), v); i < old(|pending|) && View() == old(View()).(pending := DropAt(old(pending), i))
      ensures start != Dropped ==> View() == old(View())
      ensures start == NoSlot <==> !old(Contains(View(), v))
      ensures start in {Ignored, Signalled} ==> AsKey(v) in active && (active[AsKey(v)].state, start == Signalled) == TokenAfter(old(active[AsKey(v)].state), AskCancel)
      ensures forall t: CancelToken :: t in old(active.Values) && (start in {Dropped, NoSlot} || t != active[AsKey(v)]) ==> t.state == old(t.state)
    {
      var i := PendingIndex(pending, v);
      if i < |pending| {
        DropKeepsWellFormed(View(), i);
        pending := DropAt(pending, i);
        return Dropped;
      }
      if AsKey(v) !in active {
        return NoSlot;
      }
      var token := active[AsKey(v)];
      var won := token.Cancel();
      start := if won then Signalled else Ignored;
    }
  }
}
