/**
 Acquires, loads, unloads, registrations and the idle watcher, interleaved one lock region at a
 time over the tables of EngineManager.dfy.

 Load locks are objects: a caller keeps the object it was handed even after `remove_model` has
 dropped it from the table, and a later caller is then handed a new one.
 */
module EngineProtocol {
  import opened Prelude
  import opened EngineManagers

  /** Inside `load_model`, between being handed a lock object and letting it go. */
  datatype Stage =
    | Waiting
    | Holding                              // has the lock, about to look again
    | Absent                               // not loaded, about to read the configuration
    | Configured(max: nat)                 // about to read the factory
    | Prepared(max: nat, version: nat)     // about to reserve a slot
    | Building(version: nat)               // reserved, building and warming up
    | Landed                               // pool inserted, reservation still held
    | Abandoned                            // build failed, reservation still held
    | Leaving(loaded: bool)                // reservation gone, lock still held

  datatype Caller =
    | Seeking(id: ModelId, floor: nat)                          // an acquire about to try the fast path
    | Missing(id: ModelId, floor: nat)                          // about to ask for the load lock
    | Loading(id: ModelId, floor: nat, lock: nat, stage: Stage)
    | Looking(id: ModelId, floor: nat)                          // load returned, about to look the pool up
    | Served(id: ModelId, floor: nat, version: nat)
    | Refused(id: ModelId)
    | UnloadWaiting(id: ModelId, target: nat, handed: Option<nat>)
    | UnloadHolding(id: ModelId, target: nat, handed: Option<nat>)
    | UnloadLeaving(id: ModelId, handed: Option<nat>)
    | Done(id: ModelId)

  datatype State = State(
    tables: Tables,
    max: nat,
    factories: map<ModelId, nat>,
    holders: map<nat, nat>,          // lock object -> caller
    callers: map<nat, Caller>,
    listed: set<ModelId>,            // what the idle watcher is about to remove
    nextVersion: nat,
    nextLock: nat,
    // What has happened so far.
    floors: map<ModelId, nat>)       // per model, the newest registration an unload has removed after

  function Start(max: nat): State {
    State(Tables(map[], map[], {}), max, map[], map[], map[], {}, 1, 0, map[])
  }

  function FloorOf(s: State, id: ModelId): nat { if id in s.floors then s.floors[id] else 0 }

  function VersionOf(s: State, id: ModelId): nat { if id in s.factories then s.factories[id] else 0 }

  datatype Event =
    | Configure(max: nat)
    | Register(id: ModelId)
    | BeginAcquire(caller: nat, id: ModelId)
    | Look(caller: nat, now: int)
    | AskLock(caller: nat)
    | TakeLock(caller: nat)
    | Recheck(caller: nat)
    | ReadConfig(caller: nat)
    | ReadFactory(caller: nat)
    | Reserve(caller: nat, evicted: set<ModelId>)
    | Land(caller: nat, built: bool, now: int)
    | DropReservation(caller: nat)
    | ReturnLock(caller: nat)
    | BeginUnload(caller: nat, id: ModelId)
    | TakeForUnload(caller: nat)
    | RemoveForUnload(caller: nat)
    | EndUnload(caller: nat)
    | ListIdle(ids: set<ModelId>)
    | EvictListed

  predicate InStage(s: State, c: nat) { c in s.callers && s.callers[c].Loading? }

  ghost predicate Enabled(s: State, e: Event) {
    match e
    case Configure(_) | Register(_) | EvictListed => true
    case BeginAcquire(c, _) => c !in s.callers
    case BeginUnload(c, _) => c !in s.callers
    case Look(c, _) => c in s.callers && (s.callers[c].Seeking? || s.callers[c].Looking?)
    case AskLock(c) => c in s.callers && s.callers[c].Missing?
    case TakeLock(c) => InStage(s, c) && s.callers[c].stage.Waiting? && s.callers[c].lock !in s.holders
    case Recheck(c) => InStage(s, c) && s.callers[c].stage.Holding?
    case ReadConfig(c) => InStage(s, c) && s.callers[c].stage.Absent?
    case ReadFactory(c) => InStage(s, c) && s.callers[c].stage.Configured?
    case Reserve(c, evicted) => InStage(s, c) && s.callers[c].stage.Prepared? && Evicts(s.tables, s.callers[c].id, s.callers[c].stage.max, evicted)
    case Land(c, _, _) => InStage(s, c) && s.callers[c].stage.Building?
    case DropReservation(c) => InStage(s, c) && (s.callers[c].stage.Landed? || s.callers[c].stage.Abandoned?)
    case ReturnLock(c) => InStage(s, c) && s.callers[c].stage.Leaving?
    case TakeForUnload(c) => c in s.callers && s.callers[c].UnloadWaiting? && (s.callers[c].handed.Some? ==> s.callers[c].handed.value !in s.holders)
    case RemoveForUnload(c) => c in s.callers && s.callers[c].UnloadHolding?
    case EndUnload(c) => c in s.callers && s.callers[c].UnloadLeaving?
    case ListIdle(ids) => ids <= s.tables.pools.Keys
  }

  predicate ConcernsCaller(e: Event) {
    !e.Configure? && !e.Register? && !e.ListIdle? && !e.EvictListed?
  }

  /** Where the step leaves its caller. */
  function NextCaller(s: State, e: Event): Caller
    requires Enabled(s, e) && ConcernsCaller(e)
  {
    var was := if e.caller in s.callers then s.callers[e.caller] else Refused(e.id);
    match e
    case BeginAcquire(_, id) => Seeking(id, FloorOf(s, id))
    case Look(_, _) =>
      if was.id in s.tables.pools then Served(was.id, was.floor, s.tables.pools[was.id].version)
      else if was.Seeking? then Missing(was.id, was.floor)
      else Refused(was.id)
    case AskLock(_) => Loading(was.id, was.floor, if was.id in s.tables.loadLocks then s.tables.loadLocks[was.id] else s.nextLock, Waiting)
    case TakeLock(_) => was.(stage := Holding)
    case Recheck(_) => was.(stage := if was.id in s.tables.pools then Leaving(true) else Absent)
    case ReadConfig(_) => was.(stage := Configured(s.max))
    case ReadFactory(_) => was.(stage := if was.id in s.factories then Prepared(was.stage.max, s.factories[was.id]) else Leaving(false))
    case Reserve(_, _) => was.(stage := Building(was.stage.version))
    case Land(_, built, _) => was.(stage := if built then Landed else Abandoned)
    case DropReservation(_) => was.(stage := Leaving(was.stage.Landed?))
    case ReturnLock(_) => if was.stage.loaded then Looking(was.id, was.floor) else Refused(was.id)
    case BeginUnload(_, id) =>
      UnloadWaiting(id, VersionOf(s, id), if id in s.tables.loadLocks then Some(s.tables.loadLocks[id]) else None)
    case TakeForUnload(_) => UnloadHolding(was.id, was.target, was.handed)
    case RemoveForUnload(_) => UnloadLeaving(was.id, was.handed)
    case EndUnload(_) => Done(was.id)
  }

  function NextHolders(s: State, e: Event): map<nat, nat>
    requires Enabled(s, e)
  {
    match e
    case TakeLock(c) => s.holders[s.callers[c].lock := c]
    case ReturnLock(c) => s.holders - {s.callers[c].lock}
    case TakeForUnload(c) => if s.callers[c].handed.Some? then s.holders[s.callers[c].handed.value := c] else s.holders
    case EndUnload(c) => if s.callers[c].handed.Some? then s.holders - {s.callers[c].handed.value} else s.holders
    case _ => s.holders
  }

  function NextTables(s: State, e: Event): Tables
    requires Enabled(s, e)
  {
    match e
    case Look(c, now) => Used(s.tables, s.callers[c].id, now)
    case AskLock(c) =>
      var id := s.callers[c].id;
      if id in s.tables.loadLocks then s.tables else s.tables.(loadLocks := s.tables.loadLocks[id := s.nextLock])
    case Reserve(c, evicted) => WithoutModels(s.tables, evicted).(loading := s.tables.loading + {s.callers[c].id})
    case Land(c, built, now) =>
      if built then s.tables.(pools := s.tables.pools[s.callers[c].id := LoadedModel(s.callers[c].stage.version, now)]) else s.tables
    case DropReservation(c) => s.tables.(loading := s.tables.loading - {s.callers[c].id})
    case RemoveForUnload(c) => Unloaded(s.tables, s.callers[c].id)
    case EvictListed => WithoutModels(s.tables, s.listed)
    case _ => s.tables
  }

  /** Whether the caller holds one of the reservations in `loading`. */
  predicate Reserving(c: Caller) {
    c.Loading? && (c.stage.Building? || c.stage.Landed? || c.stage.Abandoned?)
  }

  /** The step's effect on locks, tables and its caller. */
  function Moved(s: State, e: Event): State
    requires Enabled(s, e)
  {
    s.(callers := if ConcernsCaller(e) then s.callers[e.caller := NextCaller(s, e)] else s.callers,
       holders := NextHolders(s, e), tables := NextTables(s, e))
  }

  function Apply(s: State, e: Event): State
    requires Enabled(s, e)
  {
    var t := Moved(s, e);
    match e
    case Configure(max) => t.(max := max)
    case Register(id) => t.(factories := s.factories[id := s.nextVersion], nextVersion := s.nextVersion + 1)
    case AskLock(_) => t.(nextLock := s.nextLock + 1)
    case RemoveForUnload(c) => t.(floors := s.floors[s.callers[c].id := Max(FloorOf(s, s.callers[c].id), s.callers[c].target)])
    case ListIdle(ids) => t.(listed := ids)
    case EvictListed => t.(listed := {})
    case _ => t
  }

  ghost predicate ValidRun(s: State, run: seq<Event>)
    decreases |run|
  {
    run == [] || (Enabled(s, run[0]) && ValidRun(Apply(s, run[0]), run[1..]))
  }

  ghost function After(s: State, run: seq<Event>): State
    requires ValidRun(s, run)
    decreases |run|
  {
    if run == [] then s else After(Apply(s, run[0]), run[1..])
  }

  // -------------------------------------------------------------------
  // Locks
  // -------------------------------------------------------------------

  /** The lock a caller holds: past the wait and before it is returned. */
  function HeldLock(c: Caller): Option<nat> {
    match c
    case Loading(_, _, lock, stage) => if stage.Waiting? then None else Some(lock)
    case UnloadHolding(_, _, handed) => handed
    case UnloadLeaving(_, handed) => handed
    case _ => None
  }

  ghost predicate HoldersInv(s: State) {
    && (forall c :: c in s.callers && HeldLock(s.callers[c]).Some? ==>
          HeldLock(s.callers[c]).value in s.holders && s.holders[HeldLock(s.callers[c]).value] == c)
    && (forall lock :: lock in s.holders ==> s.holders[lock] in s.callers && HeldLock(s.callers[s.holders[lock]]) == Some(lock))
  }

  /** From being handed a lock object until the reservation is gone. */
  predicate InFlight(c: Caller) { c.Loading? && !c.stage.Leaving? }

  /** Every load in flight works under the lock object a newcomer would be handed. */
  ghost predicate LocksCurrent(s: State) {
    forall c :: c in s.callers && InFlight(s.callers[c]) ==>
      s.callers[c].id in s.tables.loadLocks && s.tables.loadLocks[s.callers[c].id] == s.callers[c].lock
  }

  /** The ids whose load lock a step drops from the table. */
  function DropsLocks(s: State, e: Event): set<ModelId>
    requires Enabled(s, e)
  {
    match e
    case Reserve(_, evicted) => evicted
    case RemoveForUnload(c) => if s.callers[c].id in s.tables.pools then {s.callers[c].id} else {}
    case EvictListed => s.listed
    case _ => {}
  }

  ghost predicate DropsLiveLock(s: State, e: Event)
    requires Enabled(s, e)
  {
    exists c :: c in s.callers && InFlight(s.callers[c]) && s.callers[c].id in DropsLocks(s, e)
  }

  /** A caller gets the lock it waited for, and gives up only the lock it held. */
  lemma CallerLock(s: State, e: Event)
    requires Enabled(s, e) && ConcernsCaller(e)
    ensures var was := if e.caller in s.callers then HeldLock(s.callers[e.caller]) else None;
            var now := HeldLock(NextCaller(s, e));
            || (now == was && NextHolders(s, e) == s.holders)
            || (was.None? && now.Some? && now.value !in s.holders && NextHolders(s, e) == s.holders[now.value := e.caller])
            || (was.Some? && now.None? && NextHolders(s, e) == s.holders - {was.value})
  {
  }

  lemma StepKeepsHolders(s: State, e: Event)
    requires HoldersInv(s) && Enabled(s, e)
    ensures HoldersInv(Apply(s, e))
  {
    assert Apply(s, e).callers == Moved(s, e).callers && Apply(s, e).holders == Moved(s, e).holders;
    if ConcernsCaller(e) {
      CallerLock(s, e);
    }
  }

  lemma FlightFollowsLock(s: State, e: Event)
    requires LocksCurrent(s) && Enabled(s, e) && ConcernsCaller(e) && InFlight(NextCaller(s, e))
    ensures var to := NextCaller(s, e);
            to.id !in DropsLocks(s, e) ==> to.id in NextTables(s, e).loadLocks && NextTables(s, e).loadLocks[to.id] == to.lock
    ensures !e.AskLock? ==> e.caller in s.callers && InFlight(s.callers[e.caller]) && s.callers[e.caller].id == NextCaller(s, e).id
  {
  }

  lemma TableLocks(s: State, e: Event, id: ModelId)
    requires Enabled(s, e) && id in s.tables.loadLocks
    ensures id in NextTables(s, e).loadLocks <==> id !in DropsLocks(s, e)
    ensures id in NextTables(s, e).loadLocks ==> NextTables(s, e).loadLocks[id] == s.tables.loadLocks[id]
  {
  }

  lemma LiveLockDropped(s: State, e: Event, c: nat)
    requires LocksCurrent(s) && Enabled(s, e) && c in s.callers && InFlight(s.callers[c]) && s.callers[c].id in DropsLocks(s, e)
    ensures !LocksCurrent(Moved(s, e))
  {
    TableLocks(s, e, s.callers[c].id);
    assert Moved(s, e).callers[c] == s.callers[c];
  }

  /** Locks stay current across a step exactly when the step drops no lock a load in flight is using. */
  lemma LocksStep(s: State, e: Event)
    requires LocksCurrent(s) && Enabled(s, e)
    ensures LocksCurrent(Apply(s, e)) <==> !DropsLiveLock(s, e)
  {
    var t := Moved(s, e);
    assert Apply(s, e).callers == t.callers && Apply(s, e).tables == t.tables;
    if c :| c in s.callers && InFlight(s.callers[c]) && s.callers[c].id in DropsLocks(s, e) {
      LiveLockDropped(s, e, c);
    } else {
      forall c | c in t.callers && InFlight(t.callers[c])
        ensures t.callers[c].id in t.tables.loadLocks && t.tables.loadLocks[t.callers[c].id] == t.callers[c].lock
      {
        if ConcernsCaller(e) && c == e.caller {
          FlightFollowsLock(s, e);
        } else {
          TableLocks(s, e, s.callers[c].id);
        }
      }
    }
  }

  /** Two loads of one model are never both past the wait. */
  lemma OneLoader(s: State, a: nat, b: nat)
    requires HoldersInv(s) && LocksCurrent(s)
    requires a in s.callers && b in s.callers && InFlight(s.callers[a]) && InFlight(s.callers[b])
    requires !s.callers[a].stage.Waiting? && !s.callers[b].stage.Waiting? && s.callers[a].id == s.callers[b].id
    ensures a == b
  {
    assert HeldLock(s.callers[a]) == Some(s.callers[a].lock) && HeldLock(s.callers[b]) == Some(s.callers[b].lock);
  }
}
