/**
 Whether two loads racing on a model both build it. None do while the table goes on handing out the lock
 under which every load yet to land works; from runs of that kind, dropping such a lock, and nothing else,
 lets a newcomer build beside the load that lost it.
 */
module EngineBuilds {
  import opened Prelude
  import opened EngineManagers
  import opened EngineProtocol
  import opened EngineCapacity
  import EngineGuarantees
  import opened EngineLostLock
  import opened EngineRuns
  import opened EngineOverfull

  /** A load of the model that has yet to land. */
  predicate Aiming(c: Caller, id: ModelId) {
    c.Loading? && c.id == id && !c.stage.Landed? && !c.stage.Abandoned? && !c.stage.Leaving?
  }

  /** One that has looked again under its lock, and found the model absent. */
  predicate Resolved(c: Caller, id: ModelId) { Aiming(c, id) && !c.stage.Waiting? && !c.stage.Holding? }

  /** The model is being built while another load builds it too, or while it is loaded. */
  ghost predicate BuildsTwice(s: State, id: ModelId) {
    exists a :: a in s.callers && Builds(s.callers[a]) && s.callers[a].id == id
      && (id in s.tables.pools || exists b :: b in s.callers && b != a && Builds(s.callers[b]) && s.callers[b].id == id)
  }

  /** The step drops the lock of a model that some load has yet to land. */
  ghost predicate DropsAimed(s: State, e: Event, id: ModelId)
    requires Enabled(s, e)
  {
    id in DropsLocks(s, e) && exists c :: c in s.callers && Aiming(s.callers[c], id)
  }

  ghost predicate NeverDropped(s: State, run: seq<Event>, id: ModelId)
    requires ValidRun(s, run)
    decreases |run|
  {
    run == [] || (!DropsAimed(s, run[0], id) && NeverDropped(Apply(s, run[0]), run[1..], id))
  }

  // -------------------------------------------------------------------
  // While no such lock is dropped
  // -------------------------------------------------------------------

  ghost predicate AimsCurrent(s: State, id: ModelId) {
    forall c :: c in s.callers && Aiming(s.callers[c], id) ==> id in s.tables.loadLocks && s.tables.loadLocks[id] == s.callers[c].lock
  }

  ghost predicate ResolvedAbsent(s: State, id: ModelId) {
    forall c :: c in s.callers && Resolved(s.callers[c], id) ==> id !in s.tables.pools
  }

  lemma AimingFrom(s: State, e: Event, c: nat, id: ModelId)
    requires Enabled(s, e) && c in Apply(s, e).callers && Aiming(Apply(s, e).callers[c], id)
    ensures e != AskLock(c) ==> c in s.callers && Aiming(s.callers[c], id) && s.callers[c].lock == Apply(s, e).callers[c].lock
    ensures e == AskLock(c) ==> id in Apply(s, e).tables.loadLocks && Apply(s, e).tables.loadLocks[id] == Apply(s, e).callers[c].lock
  {
    assert Apply(s, e).callers == Moved(s, e).callers && Apply(s, e).tables == Moved(s, e).tables;
  }

  lemma AimingStays(s: State, e: Event, c: nat, id: ModelId)
    requires Enabled(s, e) && c in s.callers && Aiming(s.callers[c], id) && id in DropsLocks(s, e)
    ensures c in Apply(s, e).callers && Apply(s, e).callers[c] == s.callers[c] && id !in Apply(s, e).tables.loadLocks && id !in Apply(s, e).tables.pools
  {
    assert Apply(s, e).callers == Moved(s, e).callers && Apply(s, e).tables == Moved(s, e).tables;
  }

  /** A step keeps the locks of loads yet to land current exactly when it drops none of them. */
  lemma AimsStep(s: State, e: Event, id: ModelId)
    requires AimsCurrent(s, id) && Enabled(s, e)
    ensures AimsCurrent(Apply(s, e), id) <==> !DropsAimed(s, e, id)
  {
    var t := Apply(s, e);
    assert t.tables == Moved(s, e).tables;
    if DropsAimed(s, e, id) {
      var c :| c in s.callers && Aiming(s.callers[c], id);
      AimingStays(s, e, c, id);
    } else {
      forall c | c in t.callers && Aiming(t.callers[c], id) ensures id in t.tables.loadLocks && t.tables.loadLocks[id] == t.callers[c].lock {
        AimingFrom(s, e, c, id);
        if e != AskLock(c) {
          TableLocks(s, e, id);
        }
      }
    }
  }

  lemma OneAimer(s: State, a: nat, b: nat, id: ModelId)
    requires HoldersInv(s) && AimsCurrent(s, id) && a in s.callers && b in s.callers
    requires Aiming(s.callers[a], id) && Aiming(s.callers[b], id) && !s.callers[a].stage.Waiting? && !s.callers[b].stage.Waiting?
    ensures a == b
  {
    assert HeldLock(s.callers[a]) == Some(s.callers[a].lock) && HeldLock(s.callers[b]) == Some(s.callers[b].lock);
  }

  lemma NextResolved(s: State, e: Event, id: ModelId)
    requires Enabled(s, e) && ConcernsCaller(e) && Resolved(NextCaller(s, e), id)
    ensures e.caller in s.callers && Aiming(s.callers[e.caller], id) && !s.callers[e.caller].stage.Waiting? && !e.Land?
    ensures Resolved(s.callers[e.caller], id) || id !in s.tables.pools
  {
  }

  lemma ResolvedFrom(s: State, e: Event, c: nat, id: ModelId)
    requires Enabled(s, e) && c in Apply(s, e).callers && Resolved(Apply(s, e).callers[c], id)
    ensures c in s.callers && Aiming(s.callers[c], id) && !s.callers[c].stage.Waiting?
    ensures Resolved(s.callers[c], id) || id !in s.tables.pools
    ensures ConcernsCaller(e) && e.caller == c ==> !e.Land?
  {
    assert Apply(s, e).callers == Moved(s, e).callers;
    if ConcernsCaller(e) && e.caller == c {
      NextResolved(s, e, id);
    }
  }

  lemma PoolFrom(s: State, e: Event, id: ModelId)
    requires Enabled(s, e) && id in Apply(s, e).tables.pools
    ensures id in s.tables.pools || (e.Land? && Builds(s.callers[e.caller]) && s.callers[e.caller].id == id)
  {
    assert Apply(s, e).tables == Moved(s, e).tables;
  }

  lemma ResolvedStep(s: State, e: Event, id: ModelId)
    requires HoldersInv(s) && AimsCurrent(s, id) && ResolvedAbsent(s, id) && Enabled(s, e)
    ensures ResolvedAbsent(Apply(s, e), id)
  {
    var t := Apply(s, e);
    forall c | c in t.callers && Resolved(t.callers[c], id) ensures id !in t.tables.pools {
      ResolvedFrom(s, e, c, id);
      if id in t.tables.pools {
        PoolFrom(s, e, id);
        OneAimer(s, c, e.caller, id);
      }
    }
  }

  lemma {:induction false} RunKeepsAims(s: State, run: seq<Event>, id: ModelId)
    requires HoldersInv(s) && AimsCurrent(s, id) && ResolvedAbsent(s, id) && ValidRun(s, run) && NeverDropped(s, run, id)
    ensures HoldersInv(After(s, run)) && AimsCurrent(After(s, run), id) && ResolvedAbsent(After(s, run), id)
    decreases |run|
  {
    if run == [] {
      assert After(s, run) == s;
    } else {
      StepKeepsHolders(s, run[0]);
      AimsStep(s, run[0], id);
      ResolvedStep(s, run[0], id);
      RunKeepsAims(Apply(s, run[0]), run[1..], id);
    }
  }

  lemma NotTwice(s: State, id: ModelId)
    requires HoldersInv(s) && AimsCurrent(s, id) && ResolvedAbsent(s, id)
    ensures !BuildsTwice(s, id)
  {
    forall a, b | a in s.callers && b in s.callers && Builds(s.callers[a]) && Builds(s.callers[b]) && s.callers[a].id == id && s.callers[b].id == id
      ensures a == b
    {
      OneAimer(s, a, b, id);
    }
  }

  /** Over every run that drops no lock of a load of the model that has yet to land, the model is never built twice at once, nor while it is loaded. */
  lemma BuildsOnce(max: nat, run: seq<Event>, id: ModelId)
    requires ValidRun(Start(max), run) && NeverDropped(Start(max), run, id)
    ensures !BuildsTwice(After(Start(max), run), id)
  {
    RunKeepsAims(Start(max), run, id);
    NotTwice(After(Start(max), run), id);
  }

  // -------------------------------------------------------------------
  // Once a lock is dropped
  // -------------------------------------------------------------------

  lemma {:induction false} NeverDroppedOn(s: State, one: seq<Event>, two: seq<Event>, id: ModelId)
    requires ValidRun(s, one) && NeverDropped(s, one, id) && ValidRun(After(s, one), two) && NeverDropped(After(s, one), two, id)
    ensures ValidRun(s, one + two) && After(s, one + two) == After(After(s, one), two) && NeverDropped(s, one + two, id)
    decreases |one|
  {
    Chain(s, one, two);
    if one == [] {
      assert one + two == two;
    } else {
      NeverDroppedOn(Apply(s, one[0]), one[1..], two, id);
      assert (one + two)[1..] == one[1..] + two;
    }
  }

  /** The run leads from `s` to `t` and drops no lock of a load of `id` yet to land. */
  ghost predicate Gets(s: State, run: seq<Event>, t: State, id: ModelId) {
    ValidRun(s, run) && After(s, run) == t && NeverDropped(s, run, id)
  }

  lemma GetsOn(s: State, one: seq<Event>, t: State, two: seq<Event>, r: State, id: ModelId)
    requires Gets(s, one, t, id) && Gets(t, two, r, id)
    ensures Gets(s, one + two, r, id)
  {
    NeverDroppedOn(s, one, two, id);
  }

  lemma GetsFirst(s: State, e: Event, t: State, rest: seq<Event>, r: State, id: ModelId)
    requires Enabled(s, e) && Apply(s, e) == t && id !in DropsLocks(s, e) && Gets(t, rest, r, id)
    ensures Gets(s, [e] + rest, r, id)
  {
    FirstStep(s, e, rest);
    assert ([e] + rest)[1..] == rest;
  }

  /** The model is registered and not loaded, and the table hands out no lock for it. */
  ghost predicate Bare(s: State, id: ModelId) {
    id !in s.tables.pools && id !in s.tables.loadLocks && id in s.factories && LocksNumbered(s)
  }

  /** An acquire of the model that has not got as far as building, and does not have to wait. */
  ghost predicate OnTheWay(s: State, c: nat, id: ModelId) {
    && c in s.callers && s.callers[c].id == id && id !in s.tables.pools && id in s.factories && LocksNumbered(s)
    && (s.callers[c].Seeking? || s.callers[c].Missing? || Aiming(s.callers[c], id))
    && (s.callers[c].Loading? && s.callers[c].stage.Waiting? ==> s.callers[c].lock !in s.holders)
    && (s.callers[c].Seeking? || s.callers[c].Missing? ==> id !in s.tables.loadLocks)
  }

  function StepsToBuild(c: Caller): nat {
    if c.Seeking? then 10 else if c.Missing? then 9 else Rank(c)
  }

  /** The next step of a load under a lock it need not wait for. */
  lemma NextOfLoad(s: State, c: nat, id: ModelId) returns (e: Event)
    requires OnTheWay(s, c, id) && s.callers[c].Loading? && !Builds(s.callers[c])
    ensures Enabled(s, e) && ConcernsCaller(e) && e.caller == c && id !in DropsLocks(s, e)
    ensures var now, t := NextCaller(s, e), NextTables(s, e);
            && Aiming(now, id) && !now.stage.Waiting? && Rank(now) < Rank(s.callers[c])
            && id !in t.pools && (id in t.loadLocks ==> id in s.tables.loadLocks)
  {
    match s.callers[c].stage
    case Waiting => e := TakeLock(c);
    case Holding => e := Recheck(c);
    case Absent => e := ReadConfig(c);
    case Configured(_) => e := ReadFactory(c);
    case Prepared(max, _) =>
      var evicted := SomeEviction(s.tables, id, max);
      e := Reserve(c, evicted);
  }

  /** The next step of such an acquire. */
  lemma NextOnTheWay(s: State, c: nat, id: ModelId) returns (e: Event)
    requires OnTheWay(s, c, id) && !Builds(s.callers[c])
    ensures Enabled(s, e) && ConcernsCaller(e) && e.caller == c && id !in DropsLocks(s, e)
    ensures OnTheWay(Apply(s, e), c, id) && StepsToBuild(Apply(s, e).callers[c]) < StepsToBuild(s.callers[c])
    ensures id in Apply(s, e).tables.loadLocks ==> id in s.tables.loadLocks || s.callers[c].Missing?
  {
    if s.callers[c].Seeking? {
      e := Look(c, 0);
    } else if s.callers[c].Missing? {
      e := AskLock(c);
    } else {
      e := NextOfLoad(s, c, id);
    }
    StepKeepsNumbered(s, e);
    assert Apply(s, e).callers == Moved(s, e).callers && Apply(s, e).tables == NextTables(s, e) && Apply(s, e).factories == s.factories;
  }

  /** Everybody but `c` is where they were. */
  ghost predicate OthersStay(s: State, t: State, c: nat) {
    forall d :: d in s.callers && d != c ==> d in t.callers && t.callers[d] == s.callers[d]
  }

  lemma {:induction false} ComesToBuild(s: State, c: nat, id: ModelId) returns (run: seq<Event>, t: State)
    requires OnTheWay(s, c, id)
    ensures Gets(s, run, t, id) && OnTheWay(t, c, id) && Builds(t.callers[c]) && OthersStay(s, t, c)
    ensures id in t.tables.loadLocks ==> id in s.tables.loadLocks || s.callers[c].Seeking? || s.callers[c].Missing?
    decreases StepsToBuild(s.callers[c])
  {
    if Builds(s.callers[c]) {
      run, t := [], s;
    } else {
      var e := NextOnTheWay(s, c, id);
      var rest;
      assert Apply(s, e).callers == Moved(s, e).callers;
      rest, t := ComesToBuild(Apply(s, e), c, id);
      GetsFirst(s, e, Apply(s, e), rest, t, id);
      run := [e] + rest;
    }
  }

  /** A newcomer comes to build the model too. */
  lemma NewcomerBuilds(s: State, c: nat, id: ModelId) returns (run: seq<Event>, t: State)
    requires Bare(s, id) && c in s.callers && Builds(s.callers[c]) && s.callers[c].id == id
    ensures Gets(s, run, t, id) && BuildsTwice(t, id)
  {
    var n := NotIn(s.callers.Keys, 0);
    var e := BeginAcquire(n, id);
    var s1 := Apply(s, e);
    StepKeepsNumbered(s, e);
    var rest;
    rest, t := ComesToBuild(s1, n, id);
    GetsFirst(s, e, s1, rest, t, id);
    run := [e] + rest;
    assert s1.callers[c] == s.callers[c] && t.callers[c] == s.callers[c];
  }

  /** A step of a lock's holder that lands nothing leaves the model bare. */
  lemma HolderLeavesBare(s: State, e: Event, id: ModelId)
    requires Bare(s, id) && Enabled(s, e) && ConcernsCaller(e) && e.caller in s.callers && HeldLock(s.callers[e.caller]).Some?
    requires e.Land? ==> !e.built
    ensures id !in DropsLocks(s, e) && id !in NextTables(s, e).pools && id !in NextTables(s, e).loadLocks
  {
  }

  /** Whoever holds a lock can move on without putting a pool in the table. */
  lemma HolderMovesOn(s: State, h: nat, id: ModelId) returns (e: Event)
    requires Bare(s, id) && h in s.callers && HeldLock(s.callers[h]).Some?
    ensures Enabled(s, e) && ConcernsCaller(e) && e.caller == h && id !in DropsLocks(s, e)
    ensures Bare(Apply(s, e), id) && Apply(s, e).callers == s.callers[h := NextCaller(s, e)]
    ensures var now, lock := NextCaller(s, e), HeldLock(s.callers[h]);
            && Rank(now) < Rank(s.callers[h])
            && (HeldLock(now) == lock || (HeldLock(now).None? && lock.value !in Apply(s, e).holders))
  {
    e := StepOnward(s, h);
    StepKeepsNumbered(s, e);
    HolderLeavesBare(s, e, id);
    assert Apply(s, e).tables == NextTables(s, e) && Apply(s, e).holders == NextHolders(s, e);
  }

  /** So it can give the lock back. */
  lemma {:induction false} HolderLetsGo(s: State, lock: nat, h: nat, id: ModelId) returns (run: seq<Event>, t: State)
    requires HoldersInv(s) && Bare(s, id) && lock in s.holders && s.holders[lock] == h
    ensures Gets(s, run, t, id) && lock !in t.holders && HoldersInv(t) && Bare(t, id) && OthersStay(s, t, h)
    decreases Rank(s.callers[h])
  {
    var e := HolderMovesOn(s, h, id);
    var s1 := Apply(s, e);
    StepKeepsHolders(s, e);
    var rest;
    if HeldLock(s1.callers[h]) == Some(lock) {
      rest, t := HolderLetsGo(s1, lock, h, id);
    } else {
      rest, t := [], s1;
    }
    GetsFirst(s, e, s1, rest, t, id);
    run := [e] + rest;
  }

  /** A load past its wait comes to build, and a newcomer beside it. */
  lemma BothBuild(s: State, c: nat, id: ModelId) returns (run: seq<Event>, t: State)
    requires Bare(s, id) && OnTheWay(s, c, id) && s.callers[c].Loading?
    ensures Gets(s, run, t, id) && BuildsTwice(t, id)
  {
    var one, s1 := ComesToBuild(s, c, id);
    var two;
    two, t := NewcomerBuilds(s1, c, id);
    GetsOn(s, one, s1, two, t, id);
    run := one + two;
  }

  /** Any load yet to land, of a model for which the table has no lock, can be joined by a newcomer building the same model. */
  lemma UnlockedLoadIsDoubled(s: State, c: nat, id: ModelId) returns (run: seq<Event>, t: State)
    requires HoldersInv(s) && Bare(s, id) && c in s.callers && Aiming(s.callers[c], id)
    ensures Gets(s, run, t, id) && BuildsTwice(t, id)
  {
    var lock := s.callers[c].lock;
    assert lock in s.holders ==> HeldLock(s.callers[s.holders[lock]]) == Some(lock);
    if !s.callers[c].stage.Waiting? || lock !in s.holders {
      run, t := BothBuild(s, c, id);
    } else if Aiming(s.callers[s.holders[lock]], id) {
      run, t := BothBuild(s, s.holders[lock], id);
    } else {
      var free, s1 := HolderLetsGo(s, lock, s.holders[lock], id);
      var both;
      both, t := BothBuild(s1, c, id);
      GetsOn(s, free, s1, both, t, id);
      run := free + both;
    }
  }

  /** A run of the kind that continues from `s` ends with the model built twice. */
  ghost predicate Ends(s: State, run: seq<Event>, id: ModelId) {
    ValidRun(s, run) && NeverDropped(s, run, id) && BuildsTwice(After(s, run), id)
  }

  lemma DroppedBuildsTwice(s: State, e: Event, id: ModelId) returns (run: seq<Event>)
    requires HoldersInv(s) && LocksNumbered(s) && Enabled(s, e) && DropsAimed(s, e, id)
    ensures Ends(Apply(s, e), run, id)
  {
    var c :| c in s.callers && Aiming(s.callers[c], id);
    var s1 := Apply(s, e);
    AimingStays(s, e, c, id);
    StepKeepsHolders(s, e);
    StepKeepsNumbered(s, e);
    var s2 := Apply(s1, Register(id));
    StepKeepsHolders(s1, Register(id));
    StepKeepsNumbered(s1, Register(id));
    assert s2.callers == s1.callers && s2.tables == s1.tables;
    var rest, t := UnlockedLoadIsDoubled(s2, c, id);
    GetsFirst(s1, Register(id), s2, rest, t, id);
    run := [Register(id)] + rest;
  }

  /**
   After any run that dropped no lock of a load of the model yet to land, a step can be followed by such
   a run that builds the model twice exactly when the step drops such a lock.
   */
  lemma BuiltTwiceExactlyWhenDropped(max: nat, before: seq<Event>, e: Event, id: ModelId)
    requires ValidRun(Start(max), before) && NeverDropped(Start(max), before, id) && Enabled(After(Start(max), before), e)
    ensures (exists after :: Ends(Apply(After(Start(max), before), e), after, id)) <==> DropsAimed(After(Start(max), before), e, id)
  {
    var s := After(Start(max), before);
    RunKeepsAims(Start(max), before, id);
    RunKeepsBooks(Start(max), before);
    if DropsAimed(s, e, id) {
      var after := DroppedBuildsTwice(s, e, id);
    } else {
      forall after ensures !Ends(Apply(s, e), after, id) {
        if Ends(Apply(s, e), after, id) {
          StepKeepsHolders(s, e);
          AimsStep(s, e, id);
          ResolvedStep(s, e, id);
          RunKeepsAims(Apply(s, e), after, id);
          NotTwice(After(Apply(s, e), after), id);
        }
      }
    }
  }

  /** The family is reachable: a run from the start in which the idle watcher drops the lock of a model that is being built ends with it built twice at once. */
  lemma BuiltTwiceIsReachable() returns (run: seq<Event>)
    ensures ValidRun(Start(2), run) && BuildsTwice(After(Start(2), run), WHISPER)
  {
    var gone := GoneIsReachable();
    var again := LoadingAgainFollows();
    Chain(Start(2), gone, again);
    var s := LoadingAgain();
    EngineGuarantees.RunKeepsBasics(Start(2), gone + again);
    RunKeepsBooks(Start(2), gone + again);
    assert Aiming(s.callers[3], WHISPER);
    var twice := DroppedBuildsTwice(s, EvictListed, WHISPER);
    FirstStep(s, EvictListed, twice);
    Chain(Start(2), gone + again, [EvictListed] + twice);
    run := (gone + again) + ([EvictListed] + twice);
  }
}
