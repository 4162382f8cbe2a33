/**
 One model's pool of engine instances: a semaphore, a free list of slot indices, and engines that
 are rebuilt after a panic. A guard returns its index before its permit.
 */
module EnginePools {
  import opened Prelude

  /** What is behind a slot's mutex. Engines are told apart by number; a poisoned mutex panics whoever locks it. */
  datatype Slot = Engine(number: nat) | Empty | Poisoned

  /** How the factory, called with the slot locked, got on with rebuilding an engine. */
  datatype Rebuild = Rebuilt(number: nat) | RebuildFailed | RebuildPanicked

  /** How an engine call ended. */
  datatype CallOutcome = Returned | Failed | Panicked(rebuild: Rebuild)

  /** What the caller is told; `CallerPanics` when the lock or the factory panics. */
  datatype CallResult = CallOk | CallFailed | EnginePanic | ModelNotLoaded | CallerPanics

  /** The slot after a call on it. */
  function SlotAfter(slot: Slot, outcome: CallOutcome): Slot {
    if slot.Engine? && outcome.Panicked? then
      match outcome.rebuild
      case Rebuilt(n) => Engine(n)
      case RebuildFailed => Empty
      case RebuildPanicked => Poisoned
    else slot
  }

  /** Taking the front index; `None` is the panic on an empty free list. */
  function Popped(free: seq<nat>): (seq<nat>, Option<nat>) {
    if free == [] then (free, None) else (free[1..], Some(free[0]))
  }

  function Pushed(free: seq<nat>, index: nat): seq<nat> { free + [index] }

  class ModelPool {
    var free: seq<nat>
    const instances: array<Slot>

    constructor (engines: seq<nat>)
      ensures fresh(instances) && instances[..] == seq(|engines|, i requires 0 <= i < |engines| => Engine(engines[i]))
      ensures free == seq(|engines|, i => i)
    {
      instances := new Slot[|engines|](i requires 0 <= i < |engines| => Engine(engines[i]));
      free := seq(|engines|, i => i);
    }

    /** After a permit was granted. */
    method PopFront() returns (index: Option<nat>)
      modifies this`free
      ensures (free, index) == Popped(old(free))
    {
      if free == [] {
        return None;
      }
      index := Some(free[0]);
      free := free[1..];
    }

    /** The guard's drop, before its permit is released. */
    method PushBack(index: nat)
      modifies this`free
      ensures free == Pushed(old(free), index)
    {
      free := free + [index];
    }

    method WithEngine(index: nat, outcome: CallOutcome) returns (r: CallResult)
      requires index < instances.Length
      modifies instances
      ensures instances[..] == old(instances[..])[index := SlotAfter(old(instances[index]), outcome)]
      ensures r == match old(instances[index])
                   case Poisoned => CallerPanics
                   case Empty => ModelNotLoaded
                   case Engine(_) =>
                     match outcome
                     case Returned => CallOk
                     case Failed => CallFailed
                     case Panicked(rebuild) => if rebuild.RebuildPanicked? then CallerPanics else EnginePanic
    {
      if instances[index].Poisoned? {
        return CallerPanics;
      }
      if instances[index].Empty? {
        return ModelNotLoaded;
      }
      match outcome
      case Returned => r := CallOk;
      case Failed => r := CallFailed;
      case Panicked(rebuild) =>
        match rebuild
        case Rebuilt(n) =>
          instances[index] := Engine(n);
          r := EnginePanic;
        case RebuildFailed =>
          instances[index] := Empty;
          r := EnginePanic;
        case RebuildPanicked =>
          instances[index] := Poisoned;
          r := CallerPanics;
    }
  }

  // -------------------------------------------------------------------
  // Interleavings of callers
  // -------------------------------------------------------------------

  datatype State = State(
    free: seq<nat>,
    slots: seq<Slot>,
    permits: nat,
    granted: set<nat>,       // callers with a permit and no index yet
    held: map<nat, nat>,     // live guards: caller -> index
    returning: set<nat>)     // callers whose index is back and whose permit is not

  function Start(engines: seq<nat>): State {
    State(seq(|engines|, i => i), seq(|engines|, i requires 0 <= i < |engines| => Engine(engines[i])), |engines|, {}, map[], {})
  }

  datatype Event =
    | Grant(caller: nat)
    | Abandon(caller: nat)                     // the acquire was dropped with its permit in hand
    | Pop(caller: nat)
    | Call(caller: nat, outcome: CallOutcome)
    | Push(caller: nat)
    | Release(caller: nat)

  predicate Enabled(s: State, e: Event) {
    match e
    case Grant(c) => s.permits > 0 && c !in s.granted && c !in s.held && c !in s.returning
    case Abandon(c) => c in s.granted
    case Pop(c) => c in s.granted
    case Call(c, _) => c in s.held && s.held[c] < |s.slots|
    case Push(c) => c in s.held
    case Release(c) => c in s.returning
  }

  function Apply(s: State, e: Event): State
    requires Enabled(s, e)
  {
    match e
    case Grant(c) => s.(permits := s.permits - 1, granted := s.granted + {c})
    case Abandon(c) => s.(permits := s.permits + 1, granted := s.granted - {c})
    case Pop(c) =>
      var (free, index) := Popped(s.free);
      if index.None? then s else s.(free := free, granted := s.granted - {c}, held := s.held[c := index.value])
    case Call(c, outcome) => s.(slots := s.slots[s.held[c] := SlotAfter(s.slots[s.held[c]], outcome)])
    case Push(c) => s.(free := Pushed(s.free, s.held[c]), held := s.held - {c}, returning := s.returning + {c})
    case Release(c) => s.(permits := s.permits + 1, returning := s.returning - {c})
  }

  predicate ValidRun(s: State, run: seq<Event>)
    decreases |run|
  {
    run == [] || (Enabled(s, run[0]) && ValidRun(Apply(s, run[0]), run[1..]))
  }

  function After(s: State, run: seq<Event>): State
    requires ValidRun(s, run)
    decreases |run|
  {
    if run == [] then s else After(Apply(s, run[0]), run[1..])
  }

  /** The free list and the live guards share out the slots, each slot once. */
  ghost predicate Exclusive(s: State) {
    && (forall i :: 0 <= i < |s.free| ==> s.free[i] < |s.slots|)
    && (forall i, j :: 0 <= i < j < |s.free| ==> s.free[i] != s.free[j])
    && (forall c :: c in s.held ==> s.held[c] < |s.slots|)
    && (forall c, i :: c in s.held && 0 <= i < |s.free| ==> s.held[c] != s.free[i])
    && (forall c, d :: c in s.held && d in s.held && c != d ==> s.held[c] != s.held[d])
  }

  /** Permits out and permits left account for every slot, and so does every index. */
  ghost predicate Counted(s: State) {
    && s.granted !! s.returning && s.granted !! s.held.Keys && s.returning !! s.held.Keys
    && s.permits + |s.granted| + |s.held| + |s.returning| == |s.slots|
    && |s.free| + |s.held| == |s.slots|
  }

  lemma PopKeepsExclusive(s: State, c: nat)
    requires Exclusive(s) && Enabled(s, Pop(c)) && s.free != []
    ensures Exclusive(Apply(s, Pop(c)))
  {
    assert forall i :: 0 <= i < |s.free| - 1 ==> s.free[1..][i] == s.free[i + 1];
  }

  lemma PushKeepsExclusive(s: State, c: nat)
    requires Exclusive(s) && Enabled(s, Push(c))
    ensures Exclusive(Apply(s, Push(c)))
  {
  }

  lemma StepKeepsExclusive(s: State, e: Event)
    requires Exclusive(s) && Enabled(s, e)
    ensures Exclusive(Apply(s, e))
  {
    match e
    case Pop(c) =>
      if s.free != [] {
        PopKeepsExclusive(s, c);
      }
    case Push(c) => PushKeepsExclusive(s, c);
    case _ =>
  }

  lemma PopKeepsCounted(s: State, c: nat)
    requires Counted(s) && Enabled(s, Pop(c))
    ensures Counted(Apply(s, Pop(c)))
  {
    if s.free != [] {
      MapGrows(s.held, c, s.free[0]);
    }
  }

  lemma PushKeepsCounted(s: State, c: nat)
    requires Counted(s) && Enabled(s, Push(c))
    ensures Counted(Apply(s, Push(c)))
  {
    MapShrinks(s.held, c);
  }

  lemma StepKeepsCounted(s: State, e: Event)
    requires Counted(s) && Enabled(s, e)
    ensures Counted(Apply(s, e)) && |Apply(s, e).slots| == |s.slots|
  {
    match e
    case Pop(c) => PopKeepsCounted(s, c);
    case Push(c) => PushKeepsCounted(s, c);
    case _ =>
  }

  lemma {:induction false} RunKeepsPool(s: State, run: seq<Event>)
    requires Exclusive(s) && Counted(s) && ValidRun(s, run)
    ensures var t := After(s, run); Exclusive(t) && Counted(t) && |t.slots| == |s.slots|
    decreases |run|
  {
    if run != [] {
      StepKeepsExclusive(s, run[0]);
      StepKeepsCounted(s, run[0]);
      RunKeepsPool(Apply(s, run[0]), run[1..]);
    }
  }

  /** Two live guards never share a slot, and no slot in use is on the free list. */
  lemma GuardsAreExclusive(engines: seq<nat>, run: seq<Event>, c: nat, d: nat)
    requires ValidRun(Start(engines), run) && c in After(Start(engines), run).held
    ensures var s := After(Start(engines), run);
            && s.held[c] < |engines| && s.held[c] !in s.free
            && (d in s.held && d != c ==> s.held[d] != s.held[c])
  {
    RunKeepsPool(Start(engines), run);
  }

  /** A caller with a permit always finds an index: the free list covers every permit granted and not yet used, every permit left, and every guard half returned. */
  lemma PermitFindsAnIndex(engines: seq<nat>, run: seq<Event>)
    requires ValidRun(Start(engines), run)
    ensures var s := After(Start(engines), run);
            && |s.free| == s.permits + |s.granted| + |s.returning|
            && (s.granted != {} ==> s.free != [])
  {
    RunKeepsPool(Start(engines), run);
    var s := After(Start(engines), run);
    if s.granted != {} {
      var c :| c in s.granted;
      assert |s.granted| == |s.granted - {c}| + 1;
    }
  }

  // -------------------------------------------------------------------
  // Slots whose engine is gone
  // -------------------------------------------------------------------

  /** A slot whose rebuild failed or panicked is never rebuilt again. */
  lemma {:induction false} LostSlotStaysLost(s: State, run: seq<Event>, i: nat)
    requires ValidRun(s, run) && i < |s.slots| && !s.slots[i].Engine?
    ensures i < |After(s, run).slots| && After(s, run).slots[i] == s.slots[i]
    decreases |run|
  {
    if run == [] {
      assert After(s, run) == s;
    } else {
      LostSlotStaysLost(Apply(s, run[0]), run[1..], i);
    }
  }

  /** The step is a call that panics on slot `i`, with a factory that then fails or panics. */
  predicate Loses(s: State, e: Event, i: nat)
    requires Enabled(s, e)
  {
    e.Call? && s.held[e.caller] == i && e.outcome.Panicked? && !e.outcome.rebuild.Rebuilt?
  }

  predicate SomeStepLoses(s: State, run: seq<Event>, i: nat)
    requires ValidRun(s, run)
    decreases |run|
  {
    run != [] && (Loses(s, run[0], i) || SomeStepLoses(Apply(s, run[0]), run[1..], i))
  }

  lemma {:induction false} LostByStep(s: State, run: seq<Event>, i: nat)
    requires ValidRun(s, run) && i < |s.slots| && s.slots[i].Engine?
    ensures i < |After(s, run).slots| && (!After(s, run).slots[i].Engine? <==> SomeStepLoses(s, run, i))
    decreases |run|
  {
    if run == [] {
      assert After(s, run) == s;
    } else if Loses(s, run[0], i) {
      LostSlotStaysLost(Apply(s, run[0]), run[1..], i);
    } else {
      LostByStep(Apply(s, run[0]), run[1..], i);
    }
  }

  /** Over every run a slot is without an engine exactly when some call on it panicked and its engine was not rebuilt. */
  lemma LostSlotsExactly(engines: seq<nat>, run: seq<Event>, i: nat)
    requires ValidRun(Start(engines), run) && i < |engines|
    ensures |After(Start(engines), run).slots| == |engines|
    ensures !After(Start(engines), run).slots[i].Engine? <==> SomeStepLoses(Start(engines), run, i)
  {
    RunKeepsPool(Start(engines), run);
    LostByStep(Start(engines), run, i);
  }

  /** What the factory did the first time it did not rebuild the engine of slot `i`. */
  function FirstLoss(s: State, run: seq<Event>, i: nat): Option<Rebuild>
    requires ValidRun(s, run)
    decreases |run|
  {
    if run == [] then None
    else if Loses(s, run[0], i) then Some(run[0].outcome.rebuild)
    else FirstLoss(Apply(s, run[0]), run[1..], i)
  }

  /** The engine the factory last put into slot `i`, `first` if it never did. */
  function LastBuilt(s: State, run: seq<Event>, i: nat, first: nat): nat
    requires ValidRun(s, run)
    decreases |run|
  {
    if run == [] then first
    else
      var e := run[0];
      var built := e.Call? && s.held[e.caller] == i && e.outcome.Panicked? && e.outcome.rebuild.Rebuilt?;
      LastBuilt(Apply(s, e), run[1..], i, if built then e.outcome.rebuild.number else first)
  }

  lemma {:induction false} SlotFollows(s: State, run: seq<Event>, i: nat)
    requires ValidRun(s, run) && i < |s.slots| && s.slots[i].Engine?
    ensures i < |After(s, run).slots|
    ensures match FirstLoss(s, run, i)
            case None => After(s, run).slots[i] == Engine(LastBuilt(s, run, i, s.slots[i].number))
            case Some(rebuild) => After(s, run).slots[i] == if rebuild == RebuildFailed then Empty else Poisoned
    decreases |run|
  {
    if run == [] {
      assert After(s, run) == s;
    } else if Loses(s, run[0], i) {
      LostSlotStaysLost(Apply(s, run[0]), run[1..], i);
    } else {
      SlotFollows(Apply(s, run[0]), run[1..], i);
    }
  }

  /**
   Over every run: a slot holds the engine last built for it until the factory first fails to, and from
   then on is empty if the factory returned an error and poisoned if it panicked.
   */
  lemma SlotOverEveryRun(engines: seq<nat>, run: seq<Event>, i: nat)
    requires ValidRun(Start(engines), run) && i < |engines|
    ensures i < |After(Start(engines), run).slots|
    ensures match FirstLoss(Start(engines), run, i)
            case None => After(Start(engines), run).slots[i] == Engine(LastBuilt(Start(engines), run, i, engines[i]))
            case Some(rebuild) => After(Start(engines), run).slots[i] == if rebuild == RebuildFailed then Empty else Poisoned
  {
    SlotFollows(Start(engines), run, i);
  }

  // -------------------------------------------------------------------
  // In what order slots are handed out
  // -------------------------------------------------------------------

  /** The indices guards were given along the run, in order. */
  function HandedOut(s: State, run: seq<Event>): seq<nat>
    requires ValidRun(s, run)
    decreases |run|
  {
    if run == [] then []
    else
      var t := Apply(s, run[0]);
      (if run[0].Pop? && run[0].caller in t.held then [t.held[run[0].caller]] else []) + HandedOut(t, run[1..])
  }

  /** The indices guards gave back along the run, in order. */
  function GivenBack(s: State, run: seq<Event>): seq<nat>
    requires ValidRun(s, run)
    decreases |run|
  {
    if run == [] then []
    else (if run[0].Push? then [s.held[run[0].caller]] else []) + GivenBack(Apply(s, run[0]), run[1..])
  }

  lemma PopsTheFront(s: State, c: nat)
    requires Exclusive(s) && Counted(s) && Enabled(s, Pop(c))
    ensures s.free != []
    ensures var t := Apply(s, Pop(c)); c in t.held && t.free == s.free[1..] && t.held[c] == s.free[0]
  {
    assert |s.granted| == |s.granted - {c}| + 1;
  }

  lemma PopInOrder(x: nat, free: seq<nat>, handed: seq<nat>, left: seq<nat>, back: seq<nat>)
    requires free != [] && x == free[0] && handed + left == free[1..] + back
    ensures ([x] + handed) + left == free + ([] + back)
  {
    Regroup([x], handed, left);
    Regroup([x], free[1..], back);
    assert [x] + free[1..] == free && [] + back == back;
  }

  lemma PushInOrder(x: nat, free: seq<nat>, handed: seq<nat>, left: seq<nat>, back: seq<nat>)
    requires handed + left == (free + [x]) + back
    ensures ([] + handed) + left == free + ([x] + back)
  {
    Regroup(free, [x], back);
    assert [] + handed == handed;
  }

  lemma OtherInOrder(free: seq<nat>, handed: seq<nat>, left: seq<nat>, back: seq<nat>)
    requires handed + left == free + back
    ensures ([] + handed) + left == free + ([] + back)
  {
    assert [] + handed == handed && [] + back == back;
  }

  lemma {:induction false} RunIsInOrder(s: State, run: seq<Event>)
    requires Exclusive(s) && Counted(s) && ValidRun(s, run)
    ensures HandedOut(s, run) + After(s, run).free == s.free + GivenBack(s, run)
    decreases |run|
  {
    if run == [] {
      assert After(s, run) == s && [] + s.free == s.free + [];
    } else {
      var e, t, rest := run[0], Apply(s, run[0]), run[1..];
      StepKeepsExclusive(s, e);
      StepKeepsCounted(s, e);
      RunIsInOrder(t, rest);
      if e.Pop? {
        PopsTheFront(s, e.caller);
        PopInOrder(s.free[0], s.free, HandedOut(t, rest), After(t, rest).free, GivenBack(t, rest));
      } else if e.Push? {
        PushInOrder(s.held[e.caller], s.free, HandedOut(t, rest), After(t, rest).free, GivenBack(t, rest));
      } else {
        OtherInOrder(s.free, HandedOut(t, rest), After(t, rest).free, GivenBack(t, rest));
      }
    }
  }

  /** First in, first out over every run: the slots in their order at first, then as they were given back. */
  lemma FirstInFirstOut(engines: seq<nat>, run: seq<Event>)
    requires ValidRun(Start(engines), run)
    ensures HandedOut(Start(engines), run) + After(Start(engines), run).free ==
            seq(|engines|, i => i) + GivenBack(Start(engines), run)
  {
    RunIsInOrder(Start(engines), run);
  }

  // -------------------------------------------------------------------
  // Every slot comes round again
  // -------------------------------------------------------------------

  lemma FirstStep(s: State, e: Event, rest: seq<Event>)
    requires Enabled(s, e) && ValidRun(Apply(s, e), rest)
    ensures ValidRun(s, [e] + rest) && After(s, [e] + rest) == After(Apply(s, e), rest)
  {
    assert ([e] + rest)[1..] == rest;
  }

  lemma {:induction false} Chain(s: State, one: seq<Event>, two: seq<Event>)
    requires ValidRun(s, one) && ValidRun(After(s, one), two)
    ensures ValidRun(s, one + two) && After(s, one + two) == After(After(s, one), two)
    decreases |one|
  {
    if one == [] {
      assert one + two == two;
    } else {
      Chain(Apply(s, one[0]), one[1..], two);
      assert one + two == [one[0]] + (one[1..] + two);
      FirstStep(s, one[0], one[1..] + two);
    }
  }

  /** The index is on the free list or with a live guard. */
  ghost predicate Placed(s: State, i: nat) {
    i in s.free || exists c :: c in s.held && s.held[c] == i
  }

  lemma FreeStaysPlaced(s: State, e: Event, k: nat)
    requires Enabled(s, e) && k < |s.free|
    ensures Placed(Apply(s, e), s.free[k])
  {
    var t := Apply(s, e);
    if e.Pop? {
      if k == 0 {
        assert t.held[e.caller] == s.free[k];
      } else {
        assert t.free[k - 1] == s.free[k];
      }
    } else {
      assert t.free[k] == s.free[k];
    }
  }

  lemma HeldStaysPlaced(s: State, e: Event, c: nat)
    requires Counted(s) && Enabled(s, e) && c in s.held
    ensures Placed(Apply(s, e), s.held[c])
  {
    var t := Apply(s, e);
    if e == Push(c) {
      assert t.free[|s.free|] == s.held[c];
    } else {
      assert c in t.held && t.held[c] == s.held[c];
    }
  }

  /** No index is ever lost. */
  lemma {:induction false} RunKeepsPlaced(s: State, run: seq<Event>, i: nat)
    requires Exclusive(s) && Counted(s) && ValidRun(s, run) && Placed(s, i)
    ensures Placed(After(s, run), i)
    decreases |run|
  {
    if run == [] {
      assert After(s, run) == s;
    } else {
      StepKeepsExclusive(s, run[0]);
      StepKeepsCounted(s, run[0]);
      if i in s.free {
        var k :| 0 <= k < |s.free| && s.free[k] == i;
        FreeStaysPlaced(s, run[0], k);
      } else {
        var c :| c in s.held && s.held[c] == i;
        HeldStaysPlaced(s, run[0], c);
      }
      RunKeepsPlaced(Apply(s, run[0]), run[1..], i);
    }
  }

  /** The run ends with `c` being handed the index, and changes no slot. */
  predicate HandsOut(s: State, run: seq<Event>, c: nat, i: nat) {
    && run != [] && run[|run| - 1] == Pop(c) && ValidRun(s, run)
    && After(s, run).slots == s.slots && c in After(s, run).held && After(s, run).held[c] == i
  }

  lemma HandsOutLater(s: State, one: seq<Event>, two: seq<Event>, c: nat, i: nat)
    requires ValidRun(s, one) && After(s, one).slots == s.slots && HandsOut(After(s, one), two, c, i)
    ensures HandsOut(s, one + two, c, i)
  {
    Chain(s, one, two);
  }

  lemma OneStep(s: State, e: Event)
    requires Enabled(s, e)
    ensures ValidRun(s, [e]) && After(s, [e]) == Apply(s, e)
  {
    assert [e][1..] == [];
  }

  lemma PermitTakes(s: State, c: nat) returns (run: seq<Event>)
    requires s.free != [] && s.permits > 0 && c !in s.granted && c !in s.held && c !in s.returning
    ensures HandsOut(s, run, c, s.free[0]) && After(s, run).free == s.free[1..]
  {
    OneStep(s, Grant(c));
    OneStep(Apply(s, Grant(c)), Pop(c));
    HandsOutLater(s, [Grant(c)], [Pop(c)], c, s.free[0]);
    Chain(s, [Grant(c)], [Pop(c)]);
    run := [Grant(c)] + [Pop(c)];
  }

  /** Whatever is going on, some caller can be handed the front of the free list. */
  lemma FrontIsHandedOut(s: State) returns (run: seq<Event>, c: nat)
    requires Exclusive(s) && Counted(s) && s.free != []
    ensures HandsOut(s, run, c, s.free[0]) && After(s, run).free == s.free[1..]
  {
    if s.granted != {} {
      c :| c in s.granted;
      OneStep(s, Pop(c));
      run := [Pop(c)];
    } else {
      c := NotIn(s.held.Keys + s.returning, 0);
      if s.permits > 0 {
        run := PermitTakes(s, c);
      } else {
        assert |s.free| == |s.returning|;
        var d :| d in s.returning;
        OneStep(s, Release(d));
        var rest := PermitTakes(Apply(s, Release(d)), c);
        HandsOutLater(s, [Release(d)], rest, c, s.free[0]);
        Chain(s, [Release(d)], rest);
        run := [Release(d)] + rest;
      }
    }
  }

  /** The free list moves up by one, and the pool stays in order. */
  lemma FreeListMovesUp(s: State) returns (run: seq<Event>)
    requires Exclusive(s) && Counted(s) && s.free != []
    ensures ValidRun(s, run)
    ensures var t := After(s, run);
            && Exclusive(t) && Counted(t) && t.slots == s.slots && |t.free| == |s.free| - 1
            && forall k :: 0 < k < |s.free| ==> t.free[k - 1] == s.free[k]
  {
    var c;
    run, c := FrontIsHandedOut(s);
    RunKeepsPool(s, run);
  }

  lemma {:induction false} FreeSlotIsHandedOut(s: State, k: nat) returns (run: seq<Event>, c: nat)
    requires Exclusive(s) && Counted(s) && k < |s.free|
    ensures HandsOut(s, run, c, s.free[k])
    decreases k
  {
    if k == 0 {
      run, c := FrontIsHandedOut(s);
    } else {
      var one := FreeListMovesUp(s);
      var rest;
      rest, c := FreeSlotIsHandedOut(After(s, one), k - 1);
      HandsOutLater(s, one, rest, c, s.free[k]);
      run := one + rest;
    }
  }

  lemma HeldSlotIsHandedOut(s: State, d: nat) returns (run: seq<Event>, c: nat)
    requires Exclusive(s) && Counted(s) && d in s.held
    ensures HandsOut(s, run, c, s.held[d])
  {
    var t := Apply(s, Push(d));
    OneStep(s, Push(d));
    StepKeepsExclusive(s, Push(d));
    StepKeepsCounted(s, Push(d));
    assert t.free[|s.free|] == s.held[d];
    var rest;
    rest, c := FreeSlotIsHandedOut(t, |s.free|);
    HandsOutLater(s, [Push(d)], rest, c, s.held[d]);
    run := [Push(d)] + rest;
  }

  /** From every reachable state every slot can be handed out once more, one without an engine like any other. */
  lemma EverySlotIsHandedOut(engines: seq<nat>, run: seq<Event>, i: nat) returns (next: seq<Event>, c: nat)
    requires ValidRun(Start(engines), run) && i < |engines|
    ensures HandsOut(After(Start(engines), run), next, c, i)
  {
    RunKeepsPool(Start(engines), run);
    assert Start(engines).free[i] == i;
    RunKeepsPlaced(Start(engines), run, i);
    var s := After(Start(engines), run);
    if i in s.free {
      var k :| 0 <= k < |s.free| && s.free[k] == i;
      next, c := FreeSlotIsHandedOut(s, k);
    } else {
      var d :| d in s.held && s.held[d] == i;
      next, c := HeldSlotIsHandedOut(s, d);
    }
  }

  /** So from every reachable state every slot can lose its engine, to a factory that fails or to one that panics. */
  lemma EverySlotCanBeLost(engines: seq<nat>, run: seq<Event>, i: nat, rebuild: Rebuild) returns (next: seq<Event>)
    requires ValidRun(Start(engines), run) && i < |engines| && !rebuild.Rebuilt?
    ensures var s := After(Start(engines), run);
            ValidRun(s, next) && i < |After(s, next).slots| && !After(s, next).slots[i].Engine?
  {
    RunKeepsPool(Start(engines), run);
    var s := After(Start(engines), run);
    var take, c := EverySlotIsHandedOut(engines, run, i);
    OneStep(After(s, take), Call(c, Panicked(rebuild)));
    Chain(s, take, [Call(c, Panicked(rebuild))]);
    next := take + [Call(c, Panicked(rebuild))];
  }
}
