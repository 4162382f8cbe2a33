/**
 What happens when a load works under another lock object than the table hands out, because a removal
 dropped that lock. An unload that does not wait for a load of an older factory can always return
 before that load lands, and an acquire begun afterwards is then served the replaced weights; no
 other unload can be followed by stale weights.
 */
module EngineLostLock {
  import opened Prelude
  import opened EngineManagers
  import opened EngineProtocol
  import opened EngineGuarantees

  lemma OneStep(s: State, e: Event)
    requires Enabled(s, e)
    ensures ValidRun(s, [e]) && After(s, [e]) == Apply(s, e)
  {
    assert [e][1..] == [];
  }

  lemma FirstStep(s: State, e: Event, rest: seq<Event>)
    requires Enabled(s, e) && ValidRun(Apply(s, e), rest)
    ensures ValidRun(s, [e] + rest) && After(s, [e] + rest) == After(Apply(s, e), rest)
  {
    assert ([e] + rest)[1..] == rest;
  }

  lemma {:induction false} Chain(s: State, one: seq<Event>, two: seq<Event>)
    requires ValidRun(s, one) && ValidRun(After(s, one), two)
    ensures ValidRun(s, one + two) && After(s, one + two) == After(After(s, one), two)
    decreases |one|
  {
    if one == [] {
      assert one + two == two;
    } else {
      Chain(Apply(s, one[0]), one[1..], two);
      assert one + two == [one[0]] + (one[1..] + two);
      FirstStep(s, one[0], one[1..] + two);
    }
  }

  // -------------------------------------------------------------------
  // A lock always comes free
  // -------------------------------------------------------------------

  lemma {:induction false} LeastOf(t: Tables, ids: set<ModelId>) returns (lru: ModelId)
    requires ids != {} && ids <= t.pools.Keys
    ensures lru in ids && forall id :: id in ids ==> t.pools[lru].lastUsed <= t.pools[id].lastUsed
    decreases |ids|
  {
    var some :| some in ids;
    var rest := ids - {some};
    assert forall id :: id in ids ==> id == some || id in rest;
    if rest == {} {
      lru := some;
    } else {
      lru := LeastOf(t, rest);
      if t.pools[some].lastUsed < t.pools[lru].lastUsed {
        lru := some;
      }
    }
  }

  lemma NextToEvict(t: Tables, id: ModelId, evicted: set<ModelId>) returns (lru: ModelId)
    requires evicted <= t.pools.Keys - {id} && evicted != t.pools.Keys - {id}
    ensures IsLru(WithoutModels(t, evicted), id, lru)
    ensures lru in t.pools.Keys - {id} - evicted && |t.pools.Keys - {id} - (evicted + {lru})| < |t.pools.Keys - {id} - evicted|
  {
    var candidates := t.pools.Keys - {id} - evicted;
    lru := LeastOf(WithoutModels(t, evicted), candidates);
    assert t.pools.Keys - {id} - (evicted + {lru}) == candidates - {lru};
  }

  lemma {:induction false} EvictMore(t: Tables, id: ModelId, max: nat, evicted: set<ModelId>) returns (r: set<ModelId>)
    requires LeastUsedFirst(t, id, max, evicted)
    ensures Evicts(t, id, max, r)
    decreases |t.pools.Keys - {id} - evicted|
  {
    r := evicted;
    OccupiedAfter(t, evicted);
    if Occupied(WithoutModels(t, evicted)) >= max && evicted != t.pools.Keys - {id} {
      var lru := NextToEvict(t, id, evicted);
      EvictOneMore(t, id, max, evicted, lru);
      r := EvictMore(t, id, max, evicted + {lru});
    }
  }

  /** There is always something an incoming load may evict, if only nothing. */
  lemma SomeEviction(t: Tables, id: ModelId, max: nat) returns (evicted: set<ModelId>)
    ensures Evicts(t, id, max, evicted)
  {
    NothingEvicted(t, id, max);
    evicted := EvictMore(t, id, max, {});
  }

  /** How far a caller is from giving back the lock it holds. */
  function Rank(c: Caller): nat {
    match c
    case Loading(_, _, _, stage) =>
      (match stage
       case Waiting => 8
       case Holding => 7
       case Absent => 6
       case Configured(_) => 5
       case Prepared(_, _) => 4
       case Building(_) => 3
       case Landed => 2
       case Abandoned => 2
       case Leaving(_) => 1)
    case UnloadHolding(_, _, _) => 2
    case UnloadLeaving(_, _) => 1
    case _ => 0
  }

  /** Whoever holds a lock can take a step towards giving it back, which moves nobody else, puts no pool in the table and changes no registration. */
  lemma StepOnward(s: State, h: nat) returns (e: Event)
    requires h in s.callers && HeldLock(s.callers[h]).Some?
    ensures Enabled(s, e) && ConcernsCaller(e) && e.caller == h
    ensures var now, lock := NextCaller(s, e), HeldLock(s.callers[h]);
            && Rank(now) < Rank(s.callers[h])
            && (HeldLock(now) == lock || (HeldLock(now).None? && NextHolders(s, e) == s.holders - {lock.value}))
    ensures Apply(s, e).factories == s.factories && (e.Land? ==> !e.built)
  {
    match s.callers[h]
    case UnloadHolding(_, _, _) => e := RemoveForUnload(h);
    case UnloadLeaving(_, _) => e := EndUnload(h);
    case Loading(id, _, _, stage) =>
      match stage
      case Holding => e := Recheck(h);
      case Absent => e := ReadConfig(h);
      case Configured(_) => e := ReadFactory(h);
      case Prepared(max, _) =>
        var evicted := SomeEviction(s.tables, id, max);
        e := Reserve(h, evicted);
      case Building(_) => e := Land(h, false, 0);
      case Landed => e := DropReservation(h);
      case Abandoned => e := DropReservation(h);
      case Leaving(_) => e := ReturnLock(h);
  }

  /** Everybody but `h` is where they were, and the registrations are. */
  ghost predicate OnlyMoved(s: State, t: State, h: nat) {
    t.callers.Keys == s.callers.Keys && t.factories == s.factories && forall c :: c in s.callers && c != h ==> t.callers[c] == s.callers[c]
  }

  lemma {:induction false} LockComesFree(s: State, lock: nat, h: nat) returns (run: seq<Event>)
    requires HoldersInv(s) && lock in s.holders && s.holders[lock] == h
    ensures ValidRun(s, run) && HoldersInv(After(s, run)) && lock !in After(s, run).holders && OnlyMoved(s, After(s, run), h)
    decreases Rank(s.callers[h])
  {
    var e := StepOnward(s, h);
    var t := Apply(s, e);
    StepKeepsHolders(s, e);
    assert t.callers == s.callers[h := NextCaller(s, e)] && t.holders == NextHolders(s, e);
    if HeldLock(t.callers[h]) == Some(lock) {
      var rest := LockComesFree(t, lock, h);
      FirstStep(s, e, rest);
      run := [e] + rest;
    } else {
      OneStep(s, e);
      run := [e];
    }
  }

  // -------------------------------------------------------------------
  // Overtaken loads
  // -------------------------------------------------------------------

  lemma FreeUnloadEnds(s: State, u: nat) returns (run: seq<Event>)
    requires u in s.callers && s.callers[u].UnloadWaiting? && (s.callers[u].handed.Some? ==> s.callers[u].handed.value !in s.holders)
    ensures ValidRun(s, run) && OnlyMoved(s, After(s, run), u) && After(s, run).callers[u] == Done(s.callers[u].id)
  {
    var s1 := Apply(s, TakeForUnload(u));
    var s2 := Apply(s1, RemoveForUnload(u));
    OneStep(s2, EndUnload(u));
    FirstStep(s1, RemoveForUnload(u), [EndUnload(u)]);
    run := [RemoveForUnload(u)] + [EndUnload(u)];
    FirstStep(s, TakeForUnload(u), run);
    run := [TakeForUnload(u)] + run;
  }

  /** An unload that was handed no lock, or another one than a load's, can return with that load where it was. */
  lemma UnloadDoesNotWait(s: State, c: nat, u: nat) returns (run: seq<Event>)
    requires HoldersInv(s) && c in s.callers && HeldLock(s.callers[c]).Some?
    requires u in s.callers && s.callers[u].UnloadWaiting? && s.callers[u].handed != HeldLock(s.callers[c])
    ensures ValidRun(s, run)
    ensures var t := After(s, run);
            t.callers.Keys == s.callers.Keys && t.callers[u] == Done(s.callers[u].id) && t.callers[c] == s.callers[c]
  {
    var handed := s.callers[u].handed;
    if handed.Some? && handed.value in s.holders {
      var free := LockComesFree(s, handed.value, s.holders[handed.value]);
      assert s.holders[handed.value] != c && s.holders[handed.value] != u;
      var end := FreeUnloadEnds(After(s, free), u);
      Chain(s, free, end);
      run := free + end;
    } else {
      run := FreeUnloadEnds(s, u);
    }
  }

  /** A load that works from some factory can always land, however old the factory, and its pool is then the one handed out. */
  lemma OldLoadLands(s: State, c: nat) returns (run: seq<Event>)
    requires c in s.callers && Carries(s.callers[c]).Some?
    ensures ValidRun(s, run) && After(s, run).callers.Keys == s.callers.Keys
    ensures var t, id := After(s, run), s.callers[c].id;
            id in t.tables.pools && t.tables.pools[id].version == Carries(s.callers[c]).value
  {
    if s.callers[c].stage.Prepared? {
      var evicted := SomeEviction(s.tables, s.callers[c].id, s.callers[c].stage.max);
      var e := Reserve(c, evicted);
      OneStep(Apply(s, e), Land(c, true, 0));
      FirstStep(s, e, [Land(c, true, 0)]);
      run := [e] + [Land(c, true, 0)];
    } else {
      OneStep(s, Land(c, true, 0));
      run := [Land(c, true, 0)];
    }
  }

  /**
   After `u` has begun and ended its unload of `id`, an acquire `a` begun then is served weights older
   than those registered when the unload began.
   */
  ghost predicate ServesStale(s: State, u: nat, id: ModelId, a: nat, during: seq<Event>, after: seq<Event>) {
    && Enabled(s, BeginUnload(u, id)) && ValidRun(Apply(s, BeginUnload(u, id)), during)
    && var t := After(Apply(s, BeginUnload(u, id)), during);
    && u in t.callers && t.callers[u].Done?
    && Enabled(t, BeginAcquire(a, id)) && ValidRun(Apply(t, BeginAcquire(a, id)), after)
    && var r := After(Apply(t, BeginAcquire(a, id)), after);
    && a in r.callers && r.callers[a].Served? && r.callers[a].version < VersionOf(s, id)
  }

  lemma LookServes(s: State, a: nat, id: ModelId)
    requires a !in s.callers && id in s.tables.pools
    ensures var t := Apply(s, BeginAcquire(a, id));
            ValidRun(t, [Look(a, 0)]) && a in After(t, [Look(a, 0)]).callers && After(t, [Look(a, 0)]).callers[a] == Served(id, FloorOf(s, id), s.tables.pools[id].version)
  {
    OneStep(Apply(s, BeginAcquire(a, id)), Look(a, 0));
  }

  /** An unload that overtakes a load can return, and the load then land. */
  lemma OvertakenLoadLands(s: State, u: nat, id: ModelId) returns (during: seq<Event>)
    requires HoldersInv(s) && Enabled(s, BeginUnload(u, id)) && Overtakes(s, BeginUnload(u, id))
    ensures ValidRun(Apply(s, BeginUnload(u, id)), during)
    ensures var t := After(Apply(s, BeginUnload(u, id)), during);
            && t.callers.Keys == s.callers.Keys + {u} && t.callers[u].Done?
            && id in t.tables.pools && t.tables.pools[id].version < VersionOf(s, id)
  {
    var e, v := BeginUnload(u, id), VersionOf(s, id);
    var c :| c in s.callers && CarriesOlder(s.callers[c], id, v) && !(id in s.tables.loadLocks && s.tables.loadLocks[id] == s.callers[c].lock);
    var t := Apply(s, e);
    StepKeepsHolders(s, e);
    assert t.callers == s.callers[u := NextCaller(s, e)];
    var ends := UnloadDoesNotWait(t, c, u);
    var t1 := After(t, ends);
    var lands := OldLoadLands(t1, c);
    Chain(t, ends, lands);
    DoneStays(t1, lands, u);
    during := ends + lands;
  }

  /** An acquire begun only then is served the old weights. */
  lemma OvertakingServesStaleWeights(s: State, u: nat, id: ModelId, a: nat) returns (during: seq<Event>, after: seq<Event>)
    requires HoldersInv(s) && Enabled(s, BeginUnload(u, id)) && Overtakes(s, BeginUnload(u, id)) && a !in s.callers && a != u
    ensures ServesStale(s, u, id, a, during, after)
  {
    during := OvertakenLoadLands(s, u, id);
    after := [Look(a, 0)];
    LookServes(After(Apply(s, BeginUnload(u, id)), during), a, id);
  }

  lemma {:induction false} DoneStays(s: State, run: seq<Event>, u: nat)
    requires ValidRun(s, run) && u in s.callers && s.callers[u].Done?
    ensures u in After(s, run).callers && After(s, run).callers[u].Done?
    decreases |run|
  {
    if run != [] {
      assert u in Apply(s, run[0]).callers && Apply(s, run[0]).callers[u].Done?;
      DoneStays(Apply(s, run[0]), run[1..], u);
    }
  }

  /**
   From any reachable state, beginning an unload can be followed by stale weights exactly when the
   unload overtakes a load: some load of the model works from an older factory, under another lock
   than the one the unload is about to be handed.
   */
  lemma StaleExactlyWhenOvertaken(max: nat, before: seq<Event>, u: nat, id: ModelId, a: nat)
    requires ValidRun(Start(max), before) && u !in After(Start(max), before).callers && a !in After(Start(max), before).callers && a != u
    ensures var s := After(Start(max), before);
            (exists during, after :: ServesStale(s, u, id, a, during, after)) <==> Overtakes(s, BeginUnload(u, id))
  {
    var s := After(Start(max), before);
    RunKeepsBasics(Start(max), before);
    if Overtakes(s, BeginUnload(u, id)) {
      var during, after := OvertakingServesStaleWeights(s, u, id, a);
    } else {
      forall during, after ensures !ServesStale(s, u, id, a, during, after) {
        if ServesStale(s, u, id, a, during, after) {
          NoStaleWeights(max, before, u, id, during, a, after);
        }
      }
    }
  }

  /** Factories at work were registered once. */
  ghost predicate CarriedInv(s: State) {
    forall c :: c in s.callers && Carries(s.callers[c]).Some? ==> Carries(s.callers[c]).value < s.nextVersion
  }

  lemma StepKeepsCarried(s: State, e: Event)
    requires RegistrationsInv(s) && CarriedInv(s) && Enabled(s, e) && s.nextVersion > 0
    ensures CarriedInv(Apply(s, e)) && Apply(s, e).nextVersion > 0
  {
    var t := Apply(s, e);
    assert s.nextVersion <= t.nextVersion;
    forall c | c in t.callers && Carries(t.callers[c]).Some? ensures Carries(t.callers[c]).value < t.nextVersion {
      CarriesFrom(s, e, c);
    }
  }

  lemma {:induction false} RunKeepsCarried(s: State, run: seq<Event>)
    requires RegistrationsInv(s) && CarriedInv(s) && s.nextVersion > 0 && ValidRun(s, run)
    ensures CarriedInv(After(s, run))
    decreases |run|
  {
    if run == [] {
      assert After(s, run) == s;
    } else {
      StepKeepsRegistrations(s, run[0]);
      StepKeepsCarried(s, run[0]);
      RunKeepsCarried(Apply(s, run[0]), run[1..]);
    }
  }

  /**
   In every reachable state, any load at work whose lock the table no longer hands out is overtaken by
   an unload that follows the next registration of its model.
   */
  lemma LostLockIsOvertaken(max: nat, run: seq<Event>, c: nat, u: nat)
    requires ValidRun(Start(max), run)
    requires var s := After(Start(max), run);
             && c in s.callers && Carries(s.callers[c]).Some?
             && !(s.callers[c].id in s.tables.loadLocks && s.tables.loadLocks[s.callers[c].id] == s.callers[c].lock)
    ensures var s, id := After(Start(max), run), After(Start(max), run).callers[c].id;
            Overtakes(Apply(s, Register(id)), BeginUnload(u, id))
  {
    var s := After(Start(max), run);
    RunKeepsCarried(Start(max), run);
    RegisteringOvertakes(s, c, u);
  }

  lemma RegisteringOvertakes(s: State, c: nat, u: nat)
    requires CarriedInv(s) && c in s.callers && Carries(s.callers[c]).Some?
    requires !(s.callers[c].id in s.tables.loadLocks && s.tables.loadLocks[s.callers[c].id] == s.callers[c].lock)
    ensures Overtakes(Apply(s, Register(s.callers[c].id)), BeginUnload(u, s.callers[c].id))
  {
    var t := Apply(s, Register(s.callers[c].id));
    assert t.callers[c] == s.callers[c] && CarriesOlder(t.callers[c], s.callers[c].id, s.nextVersion);
  }
}
