/**
 Which unloads leave no stale weights behind them, over whole runs of the engine manager.
 EngineLostLock.dfy shows that the other unloads can.
 */
module EngineGuarantees {
  import opened Prelude
  import opened EngineManagers
  import opened EngineProtocol

  // -------------------------------------------------------------------
  // Versions
  // -------------------------------------------------------------------

  /** The factory version a load is working from, once it has read one. */
  function Carries(c: Caller): Option<nat> {
    if c.Loading? && (c.stage.Prepared? || c.stage.Building?) then Some(c.stage.version) else None
  }

  ghost predicate RegistrationsInv(s: State) {
    && (forall id :: id in s.factories ==> s.factories[id] < s.nextVersion)
    && (forall id :: id in s.floors ==> s.floors[id] <= VersionOf(s, id))
    && (forall c :: c in s.callers && (s.callers[c].UnloadWaiting? || s.callers[c].UnloadHolding?) ==>
          s.callers[c].target <= VersionOf(s, s.callers[c].id))
  }

  ghost predicate PoolsFresh(s: State) {
    forall id :: id in s.tables.pools ==> FloorOf(s, id) <= s.tables.pools[id].version
  }

  ghost predicate LoadsFresh(s: State) {
    forall c :: c in s.callers && Carries(s.callers[c]).Some? ==> FloorOf(s, s.callers[c].id) <= Carries(s.callers[c]).value
  }

  /** The lock an unload was handed is the one under which every load with an older factory works. */
  predicate WaitsFor(u: Caller, c: Caller) {
    u.UnloadWaiting? && Carries(c).Some? && u.id == c.id && Carries(c).value < u.target ==> u.handed == Some(c.lock)
  }

  /** Once an unload has its lock, no load with an older factory is left. */
  predicate Outlasts(u: Caller, c: Caller) {
    u.UnloadHolding? && Carries(c).Some? && u.id == c.id ==> u.target <= Carries(c).value
  }

  ghost predicate UnloadsWait(s: State) {
    forall u, c :: u in s.callers && c in s.callers ==> WaitsFor(s.callers[u], s.callers[c])
  }

  ghost predicate UnloadsOutlast(s: State) {
    forall u, c :: u in s.callers && c in s.callers ==> Outlasts(s.callers[u], s.callers[c])
  }

  /** Callers that began an acquire and were not refused. */
  predicate Acquiring(c: Caller) {
    c.Seeking? || c.Missing? || c.Loading? || c.Looking? || c.Served?
  }

  ghost predicate ServedFresh(s: State) {
    forall c :: c in s.callers && Acquiring(s.callers[c]) ==>
      && s.callers[c].floor <= FloorOf(s, s.callers[c].id)
      && (s.callers[c].Served? ==> s.callers[c].floor <= s.callers[c].version)
  }

  ghost predicate Fresh(s: State) {
    && HoldersInv(s)
    && RegistrationsInv(s)
    && PoolsFresh(s)
    && LoadsFresh(s)
    && UnloadsWait(s)
    && UnloadsOutlast(s)
    && ServedFresh(s)
  }

  /** The load works from a factory of `id` older than registration `v`. */
  predicate CarriesOlder(c: Caller, id: ModelId, v: nat) {
    Carries(c).Some? && c.id == id && Carries(c).value < v
  }

  /** A load of `id` works from a factory older than `v`, under another lock than the one a newcomer would be handed. */
  ghost predicate OlderElsewhere(s: State, id: ModelId, v: nat) {
    exists c :: c in s.callers && CarriesOlder(s.callers[c], id, v)
                && !(id in s.tables.loadLocks && s.tables.loadLocks[id] == s.callers[c].lock)
  }

  /** The step begins an unload that will not wait for some load of an older factory. */
  ghost predicate Overtakes(s: State, e: Event) {
    e.BeginUnload? && OlderElsewhere(s, e.id, VersionOf(s, e.id))
  }

  lemma FloorsRise(s: State, e: Event, id: ModelId)
    requires Enabled(s, e)
    ensures FloorOf(s, id) <= FloorOf(Apply(s, e), id)
    ensures FloorOf(Apply(s, e), id) > FloorOf(s, id) ==>
              e.RemoveForUnload? && id == s.callers[e.caller].id && FloorOf(Apply(s, e), id) == s.callers[e.caller].target && id !in Apply(s, e).tables.pools
  {
  }

  lemma VersionsRise(s: State, e: Event, id: ModelId)
    requires RegistrationsInv(s) && Enabled(s, e)
    ensures VersionOf(s, id) <= VersionOf(Apply(s, e), id)
  {
  }

  /** An unload waits with the target and lock it began with. */
  lemma UnloadWaitingFrom(s: State, e: Event, u: nat)
    requires Enabled(s, e) && u in Apply(s, e).callers && Apply(s, e).callers[u].UnloadWaiting?
    ensures var now := Apply(s, e).callers[u];
            || (u in s.callers && s.callers[u] == now)
            || (e == BeginUnload(u, now.id) && now.target == VersionOf(s, now.id)
                && now.handed == if now.id in s.tables.loadLocks then Some(s.tables.loadLocks[now.id]) else None)
  {
  }

  /** An unload takes its lock only when that is free. */
  lemma UnloadHoldingFrom(s: State, e: Event, u: nat)
    requires Enabled(s, e) && u in Apply(s, e).callers && Apply(s, e).callers[u].UnloadHolding?
    ensures var now := Apply(s, e).callers[u];
            && u in s.callers
            && (s.callers[u] == now
                || (s.callers[u] == UnloadWaiting(now.id, now.target, now.handed) && (now.handed.Some? ==> now.handed.value !in s.holders)))
  {
  }

  lemma StepKeepsRegistrations(s: State, e: Event)
    requires RegistrationsInv(s) && Enabled(s, e)
    ensures RegistrationsInv(Apply(s, e))
  {
    var t := Apply(s, e);
    forall id | id in t.floors ensures t.floors[id] <= VersionOf(t, id) {
      FloorsRise(s, e, id);
      VersionsRise(s, e, id);
    }
    forall c | c in t.callers && (t.callers[c].UnloadWaiting? || t.callers[c].UnloadHolding?)
      ensures t.callers[c].target <= VersionOf(t, t.callers[c].id)
    {
      if t.callers[c].UnloadWaiting? {
        UnloadWaitingFrom(s, e, c);
      } else {
        UnloadHoldingFrom(s, e, c);
      }
      VersionsRise(s, e, t.callers[c].id);
    }
  }

  lemma CarriesStep(s: State, e: Event)
    requires Enabled(s, e) && ConcernsCaller(e) && Carries(NextCaller(s, e)).Some?
    ensures var now := NextCaller(s, e);
            && e.caller in s.callers && s.callers[e.caller].Loading? && s.callers[e.caller].id == now.id && s.callers[e.caller].lock == now.lock
            && (Carries(s.callers[e.caller]) == Carries(now)
                || (Carries(now).value == VersionOf(s, now.id) && Carries(s.callers[e.caller]).None? && e.ReadFactory?))
  {
  }

  /** A load carries what it carried, or the factory registered now. */
  lemma CarriesFrom(s: State, e: Event, c: nat)
    requires Enabled(s, e) && c in Apply(s, e).callers && Carries(Apply(s, e).callers[c]).Some?
    ensures var now := Apply(s, e).callers[c];
            && c in s.callers && s.callers[c].Loading? && s.callers[c].id == now.id && s.callers[c].lock == now.lock
            && (Carries(s.callers[c]) == Carries(now)
                || (Carries(now).value == VersionOf(s, now.id) && Carries(s.callers[c]).None? && e.ReadFactory?))
  {
    assert Apply(s, e).callers == Moved(s, e).callers;
    if ConcernsCaller(e) && e.caller == c {
      CarriesStep(s, e);
    }
  }

  lemma StepKeepsLoadsFresh(s: State, e: Event)
    requires RegistrationsInv(s) && LoadsFresh(s) && UnloadsOutlast(s) && Enabled(s, e)
    ensures LoadsFresh(Apply(s, e))
  {
    var t := Apply(s, e);
    forall c | c in t.callers && Carries(t.callers[c]).Some?
      ensures FloorOf(t, t.callers[c].id) <= Carries(t.callers[c]).value
    {
      CarriesFrom(s, e, c);
      FloorsRise(s, e, t.callers[c].id);
    }
  }

  lemma StepKeepsPoolsFresh(s: State, e: Event)
    requires PoolsFresh(s) && LoadsFresh(s) && Enabled(s, e)
    ensures PoolsFresh(Apply(s, e))
  {
    var t := Apply(s, e);
    forall id | id in t.tables.pools
      ensures FloorOf(t, id) <= t.tables.pools[id].version
    {
      FloorsRise(s, e, id);
    }
  }

  lemma StepKeepsUnloadsWait(s: State, e: Event)
    requires RegistrationsInv(s) && UnloadsWait(s) && Enabled(s, e) && !Overtakes(s, e)
    ensures UnloadsWait(Apply(s, e))
  {
    var t := Apply(s, e);
    forall u, c | u in t.callers && c in t.callers
      ensures WaitsFor(t.callers[u], t.callers[c])
    {
      if Carries(t.callers[c]).Some? && t.callers[u].UnloadWaiting? {
        CarriesFrom(s, e, c);
        UnloadWaitingFrom(s, e, u);
        assert u in s.callers ==> WaitsFor(s.callers[u], s.callers[c]);
      }
    }
  }

  lemma StepKeepsUnloadsOutlast(s: State, e: Event)
    requires HoldersInv(s) && RegistrationsInv(s) && UnloadsWait(s) && UnloadsOutlast(s) && Enabled(s, e)
    ensures UnloadsOutlast(Apply(s, e))
  {
    var t := Apply(s, e);
    forall u, c | u in t.callers && c in t.callers
      ensures Outlasts(t.callers[u], t.callers[c])
    {
      if Carries(t.callers[c]).Some? && t.callers[u].UnloadHolding? {
        CarriesFrom(s, e, c);
        UnloadHoldingFrom(s, e, u);
        assert WaitsFor(s.callers[u], s.callers[c]) && Outlasts(s.callers[u], s.callers[c]);
        assert Carries(s.callers[c]).Some? ==> HeldLock(s.callers[c]) == Some(s.callers[c].lock);
      }
    }
  }

  /** The caller's own step serves it only what the table holds. */
  lemma AcquireStep(s: State, e: Event)
    requires Enabled(s, e) && ConcernsCaller(e) && !e.BeginAcquire? && Acquiring(NextCaller(s, e))
    ensures var now := NextCaller(s, e);
            && e.caller in s.callers && Acquiring(s.callers[e.caller]) && s.callers[e.caller].id == now.id && s.callers[e.caller].floor == now.floor
            && (now.Served? ==> now.id in s.tables.pools && now.version == s.tables.pools[now.id].version)
  {
  }

  /** An acquire keeps the floor it began with, and is served only what the table holds. */
  lemma AcquireFrom(s: State, e: Event, c: nat)
    requires Enabled(s, e) && c in Apply(s, e).callers && Acquiring(Apply(s, e).callers[c])
    ensures var now := Apply(s, e).callers[c];
            || (e == BeginAcquire(c, now.id) && now == Seeking(now.id, FloorOf(s, now.id)))
            || (&& c in s.callers && Acquiring(s.callers[c]) && s.callers[c].id == now.id && s.callers[c].floor == now.floor
                && (now.Served? ==> s.callers[c] == now || (now.id in s.tables.pools && now.version == s.tables.pools[now.id].version)))
  {
    assert Apply(s, e).callers == Moved(s, e).callers;
    if ConcernsCaller(e) && e.caller == c && !e.BeginAcquire? {
      AcquireStep(s, e);
    }
  }

  lemma StepKeepsServedFresh(s: State, e: Event)
    requires PoolsFresh(s) && ServedFresh(s) && Enabled(s, e)
    ensures ServedFresh(Apply(s, e))
  {
    var t := Apply(s, e);
    forall c | c in t.callers && Acquiring(t.callers[c])
      ensures t.callers[c].floor <= FloorOf(t, t.callers[c].id) && (t.callers[c].Served? ==> t.callers[c].floor <= t.callers[c].version)
    {
      AcquireFrom(s, e, c);
      FloorsRise(s, e, t.callers[c].id);
    }
  }

  lemma StepKeepsFresh(s: State, e: Event)
    requires Fresh(s) && Enabled(s, e) && !Overtakes(s, e)
    ensures Fresh(Apply(s, e))
  {
    StepKeepsHolders(s, e);
    StepKeepsRegistrations(s, e);
    StepKeepsPoolsFresh(s, e);
    StepKeepsLoadsFresh(s, e);
    StepKeepsUnloadsWait(s, e);
    StepKeepsUnloadsOutlast(s, e);
    StepKeepsServedFresh(s, e);
  }

  /** A step keeps everything fresh exactly when it begins no unload that overtakes a load of an older factory. */
  lemma FreshStep(s: State, e: Event)
    requires Fresh(s) && Enabled(s, e)
    ensures Fresh(Apply(s, e)) <==> !Overtakes(s, e)
  {
    if Overtakes(s, e) {
      var t := Apply(s, e);
      var c :| c in s.callers && CarriesOlder(s.callers[c], e.id, VersionOf(s, e.id))
               && !(e.id in s.tables.loadLocks && s.tables.loadLocks[e.id] == s.callers[c].lock);
      assert t.callers[c] == s.callers[c] && t.callers[e.caller] == NextCaller(s, e);
      assert !WaitsFor(t.callers[e.caller], t.callers[c]);
    } else {
      StepKeepsFresh(s, e);
    }
  }

  /** While every load in flight works under the lock a newcomer would be handed, no unload can overtake one. */
  lemma CurrentLocksAreWaitedFor(s: State, e: Event)
    requires LocksCurrent(s)
    ensures !Overtakes(s, e)
  {
  }

  /** No step of the run begins an unload that overtakes a load. */
  ghost predicate NeverOvertakes(s: State, run: seq<Event>)
    requires ValidRun(s, run)
    decreases |run|
  {
    run == [] || (!Overtakes(s, run[0]) && NeverOvertakes(Apply(s, run[0]), run[1..]))
  }

  lemma {:induction false} RunKeepsFresh(s: State, run: seq<Event>)
    requires Fresh(s) && ValidRun(s, run) && NeverOvertakes(s, run)
    ensures Fresh(After(s, run))
    decreases |run|
  {
    if run != [] {
      FreshStep(s, run[0]);
      RunKeepsFresh(Apply(s, run[0]), run[1..]);
    }
  }

  /** From the start: pools, loads, unloads in progress and answers are fresh as long as no unload overtakes a load. */
  lemma FreshOverEveryRun(max: nat, run: seq<Event>)
    requires ValidRun(Start(max), run) && NeverOvertakes(Start(max), run)
    ensures Fresh(After(Start(max), run))
  {
    assert Fresh(Start(max));
    RunKeepsFresh(Start(max), run);
  }

  // -------------------------------------------------------------------
  // No stale weights
  // -------------------------------------------------------------------

  /** Locks and registrations are consistent over every run, whatever it does. */
  lemma {:induction false} RunKeepsBasics(s: State, run: seq<Event>)
    requires HoldersInv(s) && RegistrationsInv(s) && ValidRun(s, run)
    ensures HoldersInv(After(s, run)) && RegistrationsInv(After(s, run))
    decreases |run|
  {
    if run != [] {
      StepKeepsHolders(s, run[0]);
      StepKeepsRegistrations(s, run[0]);
      RunKeepsBasics(Apply(s, run[0]), run[1..]);
    }
  }

  ghost predicate NoneOlder(s: State, id: ModelId, v: nat) {
    forall c :: c in s.callers ==> !CarriesOlder(s.callers[c], id, v)
  }

  /** Once the unload `u` of `id`, begun when `v` was registered, has removed, neither a load nor the pool of `id` is older. */
  ghost predicate Removed(s: State, id: ModelId, v: nat) {
    NoneOlder(s, id, v) && (id in s.tables.pools ==> v <= s.tables.pools[id].version)
  }

  /** The unload still waits for every older load, or none is left, or it has removed. */
  ghost predicate Covers(s: State, u: nat, id: ModelId, v: nat) {
    && u in s.callers && v <= VersionOf(s, id)
    && match s.callers[u]
       case UnloadWaiting(i, target, handed) =>
         i == id && target == v && forall c :: c in s.callers && CarriesOlder(s.callers[c], id, v) ==> handed == Some(s.callers[c].lock)
       case UnloadHolding(i, target, _) => i == id && target == v && NoneOlder(s, id, v)
       case UnloadLeaving(i, _) => i == id && Removed(s, id, v)
       case Done(i) => i == id && Removed(s, id, v)
       case _ => false
  }

  /** A load works from no older factory than it did, unless it reads the one registered now. */
  lemma OlderBefore(s: State, e: Event, c: nat, id: ModelId, v: nat)
    requires Enabled(s, e) && v <= VersionOf(s, id) && c in Apply(s, e).callers && CarriesOlder(Apply(s, e).callers[c], id, v)
    ensures c in s.callers && CarriesOlder(s.callers[c], id, v) && s.callers[c].lock == Apply(s, e).callers[c].lock
  {
    CarriesFrom(s, e, c);
  }

  lemma NoneOlderStays(s: State, e: Event, id: ModelId, v: nat)
    requires Enabled(s, e) && v <= VersionOf(s, id) && NoneOlder(s, id, v)
    ensures NoneOlder(Apply(s, e), id, v)
  {
    forall c | c in Apply(s, e).callers ensures !CarriesOlder(Apply(s, e).callers[c], id, v) {
      if CarriesOlder(Apply(s, e).callers[c], id, v) {
        OlderBefore(s, e, c, id, v);
      }
    }
  }

  lemma PoolFrom(s: State, e: Event, id: ModelId)
    requires Enabled(s, e) && id in Apply(s, e).tables.pools
    ensures var now := Apply(s, e).tables.pools[id].version;
            || (id in s.tables.pools && s.tables.pools[id].version == now)
            || (e.Land? && s.callers[e.caller].id == id && Carries(s.callers[e.caller]) == Some(now))
    ensures e.RemoveForUnload? ==> s.callers[e.caller].id != id
  {
  }

  lemma RemovedStays(s: State, e: Event, id: ModelId, v: nat)
    requires Enabled(s, e) && v <= VersionOf(s, id) && Removed(s, id, v)
    ensures Removed(Apply(s, e), id, v)
  {
    NoneOlderStays(s, e, id, v);
    if id in Apply(s, e).tables.pools {
      PoolFrom(s, e, id);
      assert e.Land? ==> !CarriesOlder(s.callers[e.caller], id, v);
    }
  }

  /** The unload's own next step. */
  lemma UnloadStepCovers(s: State, e: Event, u: nat, id: ModelId, v: nat)
    requires HoldersInv(s) && Enabled(s, e) && Covers(s, u, id, v) && ConcernsCaller(e) && e.caller == u
    ensures Covers(Apply(s, e), u, id, v)
  {
    var t := Apply(s, e);
    assert t.callers[u] == NextCaller(s, e);
    match e
    case TakeForUnload(_) =>
      forall c | c in s.callers ensures !CarriesOlder(s.callers[c], id, v) {
        assert Carries(s.callers[c]).Some? ==> HeldLock(s.callers[c]) == Some(s.callers[c].lock);
      }
      NoneOlderStays(s, e, id, v);
    case RemoveForUnload(_) => NoneOlderStays(s, e, id, v);
    case EndUnload(_) => RemovedStays(s, e, id, v);
  }

  lemma OtherStepCovers(s: State, e: Event, u: nat, id: ModelId, v: nat)
    requires RegistrationsInv(s) && Enabled(s, e) && Covers(s, u, id, v) && !(ConcernsCaller(e) && e.caller == u)
    ensures Covers(Apply(s, e), u, id, v)
  {
    var t := Apply(s, e);
    VersionsRise(s, e, id);
    assert t.callers[u] == s.callers[u];
    match s.callers[u]
    case UnloadWaiting(_, _, handed) =>
      forall c | c in t.callers && CarriesOlder(t.callers[c], id, v) ensures handed == Some(t.callers[c].lock) {
        OlderBefore(s, e, c, id, v);
      }
    case UnloadHolding(_, _, _) => NoneOlderStays(s, e, id, v);
    case _ => RemovedStays(s, e, id, v);
  }

  lemma {:induction false} RunCovers(s: State, run: seq<Event>, u: nat, id: ModelId, v: nat)
    requires HoldersInv(s) && RegistrationsInv(s) && ValidRun(s, run) && Covers(s, u, id, v)
    ensures Covers(After(s, run), u, id, v)
    decreases |run|
  {
    if run != [] {
      if ConcernsCaller(run[0]) && run[0].caller == u {
        UnloadStepCovers(s, run[0], u, id, v);
      } else {
        OtherStepCovers(s, run[0], u, id, v);
      }
      StepKeepsHolders(s, run[0]);
      StepKeepsRegistrations(s, run[0]);
      RunCovers(Apply(s, run[0]), run[1..], u, id, v);
    }
  }

  lemma UnloadBeginsCovered(s: State, u: nat, id: ModelId)
    requires RegistrationsInv(s) && Enabled(s, BeginUnload(u, id)) && !Overtakes(s, BeginUnload(u, id))
    ensures Covers(Apply(s, BeginUnload(u, id)), u, id, VersionOf(s, id))
  {
    var e, t := BeginUnload(u, id), Apply(s, BeginUnload(u, id));
    assert t.callers[u] == NextCaller(s, e);
    forall c | c in t.callers && CarriesOlder(t.callers[c], id, VersionOf(s, id))
      ensures t.callers[u].handed == Some(t.callers[c].lock)
    {
      OlderBefore(s, e, c, id, VersionOf(s, id));
    }
  }

  /** The caller is an acquire of `id`, served nothing older than `v` if it has been served. */
  predicate ServesFrom(c: Caller, id: ModelId, v: nat) {
    c.Refused? || (Acquiring(c) && c.id == id && (c.Served? ==> v <= c.version))
  }

  lemma StepServesFrom(s: State, e: Event, c: nat, id: ModelId, v: nat)
    requires Enabled(s, e) && Removed(s, id, v) && c in s.callers && ServesFrom(s.callers[c], id, v)
    ensures c in Apply(s, e).callers && ServesFrom(Apply(s, e).callers[c], id, v)
  {
    if ConcernsCaller(e) && c == e.caller {
      assert Apply(s, e).callers[c] == NextCaller(s, e);
    } else {
      assert Apply(s, e).callers[c] == s.callers[c];
    }
  }

  lemma {:induction false} RunServesFrom(s: State, run: seq<Event>, c: nat, id: ModelId, v: nat)
    requires RegistrationsInv(s) && ValidRun(s, run) && v <= VersionOf(s, id) && Removed(s, id, v)
    requires c in s.callers && ServesFrom(s.callers[c], id, v)
    ensures c in After(s, run).callers && ServesFrom(After(s, run).callers[c], id, v)
    decreases |run|
  {
    if run != [] {
      StepServesFrom(s, run[0], c, id, v);
      RemovedStays(s, run[0], id, v);
      VersionsRise(s, run[0], id);
      StepKeepsRegistrations(s, run[0]);
      RunServesFrom(Apply(s, run[0]), run[1..], c, id, v);
    }
  }

  lemma ServedAfterRemoval(s: State, c: nat, id: ModelId, v: nat, after: seq<Event>)
    requires RegistrationsInv(s) && v <= VersionOf(s, id) && Removed(s, id, v)
    requires Enabled(s, BeginAcquire(c, id)) && ValidRun(Apply(s, BeginAcquire(c, id)), after)
    ensures var t := After(Apply(s, BeginAcquire(c, id)), after);
            c in t.callers && (t.callers[c].Served? ==> t.callers[c].id == id && v <= t.callers[c].version)
  {
    var e, t := BeginAcquire(c, id), Apply(s, BeginAcquire(c, id));
    assert t.callers[c] == NextCaller(s, e);
    RemovedStays(s, e, id, v);
    VersionsRise(s, e, id);
    StepKeepsRegistrations(s, e);
    RunServesFrom(t, after, c, id, v);
  }

  /**
   Once an unload that overtook no load has returned, every acquire begun afterwards is served by a
   pool built from the factory that was registered when the unload was called, or a later one:
   whatever loads, evictions, registrations, acquires and other unloads ran before, between and
   after, and whatever locks they dropped or loads they overtook.
   */
  lemma NoStaleWeights(max: nat, before: seq<Event>, u: nat, id: ModelId, during: seq<Event>, c: nat, after: seq<Event>)
    requires ValidRun(Start(max), before)
    requires var s1 := After(Start(max), before); Enabled(s1, BeginUnload(u, id)) && !Overtakes(s1, BeginUnload(u, id))
    requires ValidRun(Apply(After(Start(max), before), BeginUnload(u, id)), during)
    requires var s := After(Apply(After(Start(max), before), BeginUnload(u, id)), during);
             && u in s.callers && s.callers[u].Done?
             && Enabled(s, BeginAcquire(c, id)) && ValidRun(Apply(s, BeginAcquire(c, id)), after)
    ensures var s1 := After(Start(max), before);
            var s2 := After(Apply(s1, BeginUnload(u, id)), during);
            var s3 := After(Apply(s2, BeginAcquire(c, id)), after);
            c in s3.callers && (s3.callers[c].Served? ==> s3.callers[c].id == id && VersionOf(s1, id) <= s3.callers[c].version)
  {
    var s1 := After(Start(max), before);
    RunKeepsBasics(Start(max), before);
    UnloadReturnsCovered(s1, u, id, during);
    ServedAfterRemoval(After(Apply(s1, BeginUnload(u, id)), during), c, id, VersionOf(s1, id), after);
  }

  lemma UnloadReturnsCovered(s: State, u: nat, id: ModelId, during: seq<Event>)
    requires HoldersInv(s) && RegistrationsInv(s)
    requires Enabled(s, BeginUnload(u, id)) && !Overtakes(s, BeginUnload(u, id)) && ValidRun(Apply(s, BeginUnload(u, id)), during)
    ensures var t := After(Apply(s, BeginUnload(u, id)), during);
            RegistrationsInv(t) && Covers(t, u, id, VersionOf(s, id))
  {
    var e, t := BeginUnload(u, id), Apply(s, BeginUnload(u, id));
    StepKeepsHolders(s, e);
    StepKeepsRegistrations(s, e);
    UnloadBeginsCovered(s, u, id);
    RunKeepsBasics(t, during);
    RunCovers(t, during, u, id, VersionOf(s, id));
  }
}
