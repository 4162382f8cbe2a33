/**
 Runs built step by step: whole acquires and unloads from any state that allows them, and one run from
 the start state that serves replaced weights. In it the idle watcher removes a model it listed earlier
 and drops the lock under which that model is being loaded again.
 */
module EngineRuns {
  import opened Prelude
  import opened EngineManagers
  import opened EngineProtocol
  import opened EngineGuarantees
  import opened EngineLostLock

  // -------------------------------------------------------------------
  // Runs of a few callers
  // -------------------------------------------------------------------

  /** The run leads from `s` to `t`, configures nothing, and only callers in `who` take steps along it. */
  ghost predicate Leads(s: State, run: seq<Event>, t: State, who: set<nat>) {
    && ValidRun(s, run) && After(s, run) == t
    && forall i :: 0 <= i < |run| ==> !run[i].Configure? && (ConcernsCaller(run[i]) ==> run[i].caller in who)
  }

  lemma LeadsOne(s: State, e: Event, t: State, who: set<nat>) returns (run: seq<Event>)
    requires Enabled(s, e) && Apply(s, e) == t && !e.Configure? && (ConcernsCaller(e) ==> e.caller in who)
    ensures Leads(s, run, t, who)
  {
    run := [e];
    OneStep(s, e);
  }

  lemma LeadsOn(s: State, one: seq<Event>, t: State, two: seq<Event>, r: State, who: set<nat>)
    requires Leads(s, one, t, who) && Leads(t, two, r, who)
    ensures Leads(s, one + two, r, who)
  {
    Chain(s, one, two);
  }

  lemma LeadsTwo(s: State, e: Event, t: State, f: Event, r: State, who: set<nat>) returns (run: seq<Event>)
    requires Enabled(s, e) && Apply(s, e) == t && !e.Configure? && (ConcernsCaller(e) ==> e.caller in who)
    requires Enabled(t, f) && Apply(t, f) == r && !f.Configure? && (ConcernsCaller(f) ==> f.caller in who)
    ensures Leads(s, run, r, who)
  {
    var one := LeadsOne(s, e, t, who);
    var two := LeadsOne(t, f, r, who);
    LeadsOn(s, one, t, two, r, who);
    run := one + two;
  }

  /** More callers may take steps. */
  lemma Among(s: State, run: seq<Event>, t: State, who: set<nat>, more: set<nat>)
    requires Leads(s, run, t, who) && who <= more
    ensures Leads(s, run, t, more)
  {
  }

  // -------------------------------------------------------------------
  // Whole acquires and unloads
  // -------------------------------------------------------------------

  /** The lock object a newcomer is handed. */
  function LockFor(s: State, id: ModelId): nat { if id in s.tables.loadLocks then s.tables.loadLocks[id] else s.nextLock }

  function Moves(s: State, c: nat, to: Caller): State { s.(callers := s.callers[c := to]) }

  function LockAsked(s: State, c: nat, id: ModelId, stage: Stage): State {
    Moves(s, c, Loading(id, FloorOf(s, id), LockFor(s, id), stage)).(
      tables := s.tables.(loadLocks := s.tables.loadLocks[id := LockFor(s, id)]), nextLock := s.nextLock + 1)
  }

  function LockTaken(s: State, c: nat, id: ModelId): State {
    LockAsked(s, c, id, Holding).(holders := s.holders[LockFor(s, id) := c])
  }

  lemma AcquireMisses(s: State, c: nat, id: ModelId) returns (run: seq<Event>)
    requires c !in s.callers && id !in s.tables.pools
    ensures Leads(s, run, Moves(s, c, Missing(id, FloorOf(s, id))), {c})
  {
    var s1, s2 := Moves(s, c, Seeking(id, FloorOf(s, id))), Moves(s, c, Missing(id, FloorOf(s, id)));
    assert Apply(s, BeginAcquire(c, id)) == s1;
    assert Apply(s1, Look(c, 0)) == s2;
    run := LeadsTwo(s, BeginAcquire(c, id), s1, Look(c, 0), s2, {c});
  }

  lemma MissAsks(s: State, c: nat, id: ModelId)
    ensures var t := Moves(s, c, Missing(id, FloorOf(s, id))); Apply(t, AskLock(c)) == LockAsked(s, c, id, Waiting)
  {
    assert id in s.tables.loadLocks ==> s.tables.loadLocks[id := s.tables.loadLocks[id]] == s.tables.loadLocks;
  }

  lemma LoadTakes(s: State, c: nat, id: ModelId)
    requires LockFor(s, id) !in s.holders
    ensures var t := LockAsked(s, c, id, Waiting); Enabled(t, TakeLock(c)) && Apply(t, TakeLock(c)) == LockTaken(s, c, id)
  {
    assert s.callers[c := Loading(id, FloorOf(s, id), LockFor(s, id), Waiting)][c := Loading(id, FloorOf(s, id), LockFor(s, id), Holding)] ==
           s.callers[c := Loading(id, FloorOf(s, id), LockFor(s, id), Holding)];
  }

  lemma MissTakesLock(s: State, c: nat, id: ModelId) returns (run: seq<Event>)
    requires LockFor(s, id) !in s.holders
    ensures Leads(Moves(s, c, Missing(id, FloorOf(s, id))), run, LockTaken(s, c, id), {c})
  {
    var s1, s2 := Moves(s, c, Missing(id, FloorOf(s, id))), LockAsked(s, c, id, Waiting);
    MissAsks(s, c, id);
    LoadTakes(s, c, id);
    run := LeadsTwo(s1, AskLock(c), s2, TakeLock(c), LockTaken(s, c, id), {c});
  }

  lemma AcquireTakesLock(s: State, c: nat, id: ModelId) returns (run: seq<Event>)
    requires c !in s.callers && id !in s.tables.pools && LockFor(s, id) !in s.holders
    ensures Leads(s, run, LockTaken(s, c, id), {c})
  {
    var miss := AcquireMisses(s, c, id);
    var take := MissTakesLock(s, c, id);
    LeadsOn(s, miss, Moves(s, c, Missing(id, FloorOf(s, id))), take, LockTaken(s, c, id), {c});
    run := miss + take;
  }

  lemma LoadReadsConfig(s: State, c: nat, id: ModelId, floor: nat, lock: nat) returns (run: seq<Event>)
    requires c in s.callers && s.callers[c] == Loading(id, floor, lock, Holding) && id !in s.tables.pools
    ensures Leads(s, run, Moves(s, c, Loading(id, floor, lock, Configured(s.max))), {c})
  {
    var s1, s2 := Moves(s, c, Loading(id, floor, lock, Absent)), Moves(s, c, Loading(id, floor, lock, Configured(s.max)));
    assert Apply(s, Recheck(c)) == s1;
    assert Apply(s1, ReadConfig(c)) == s2;
    run := LeadsTwo(s, Recheck(c), s1, ReadConfig(c), s2, {c});
  }

  function Reserved(s: State, c: nat, id: ModelId, floor: nat, lock: nat, v: nat, evicted: set<ModelId>): State {
    Moves(s, c, Loading(id, floor, lock, Building(v))).(tables := WithoutModels(s.tables, evicted).(loading := s.tables.loading + {id}))
  }

  lemma SlotIsReserved(s: State, c: nat, id: ModelId, floor: nat, lock: nat, max: nat, v: nat, evicted: set<ModelId>)
    requires Evicts(s.tables, id, max, evicted)
    ensures var t := Moves(s, c, Loading(id, floor, lock, Prepared(max, v)));
            Enabled(t, Reserve(c, evicted)) && Apply(t, Reserve(c, evicted)) == Reserved(s, c, id, floor, lock, v, evicted)
  {
  }

  lemma LoadReserves(s: State, c: nat, id: ModelId, floor: nat, lock: nat, max: nat, evicted: set<ModelId>) returns (run: seq<Event>)
    requires id in s.factories && Evicts(s.tables, id, max, evicted)
    ensures Leads(Moves(s, c, Loading(id, floor, lock, Configured(max))), run, Reserved(s, c, id, floor, lock, s.factories[id], evicted), {c})
  {
    var v := s.factories[id];
    var s1, s2 := Moves(s, c, Loading(id, floor, lock, Configured(max))), Moves(s, c, Loading(id, floor, lock, Prepared(max, v)));
    assert Apply(s1, ReadFactory(c)) == s2;
    SlotIsReserved(s, c, id, floor, lock, max, v, evicted);
    run := LeadsTwo(s1, ReadFactory(c), s2, Reserve(c, evicted), Reserved(s, c, id, floor, lock, v, evicted), {c});
  }

  lemma LockedLoadBuilds(s: State, c: nat, id: ModelId, floor: nat, lock: nat, evicted: set<ModelId>) returns (run: seq<Event>)
    requires c in s.callers && s.callers[c] == Loading(id, floor, lock, Holding) && id !in s.tables.pools
    requires id in s.factories && Evicts(s.tables, id, s.max, evicted)
    ensures Leads(s, run, Reserved(s, c, id, floor, lock, s.factories[id], evicted), {c})
  {
    var config := LoadReadsConfig(s, c, id, floor, lock);
    var build := LoadReserves(s, c, id, floor, lock, s.max, evicted);
    LeadsOn(s, config, Moves(s, c, Loading(id, floor, lock, Configured(s.max))), build, Reserved(s, c, id, floor, lock, s.factories[id], evicted), {c});
    run := config + build;
  }

  /** The load of `id` by `c` is building, having evicted as given. */
  function BuildingAt(s: State, c: nat, id: ModelId, evicted: set<ModelId>): State
    requires id in s.factories
  {
    Reserved(LockTaken(s, c, id), c, id, FloorOf(s, id), LockFor(s, id), s.factories[id], evicted)
  }

  lemma AcquireBuilds(s: State, c: nat, id: ModelId, evicted: set<ModelId>) returns (run: seq<Event>)
    requires c !in s.callers && id !in s.tables.pools && id in s.factories && LockFor(s, id) !in s.holders
    requires Evicts(s.tables, id, s.max, evicted)
    ensures Leads(s, run, BuildingAt(s, c, id, evicted), {c})
  {
    var take := AcquireTakesLock(s, c, id);
    var t := LockTaken(s, c, id);
    assert Evicts(t.tables, id, t.max, evicted);
    var build := LockedLoadBuilds(t, c, id, FloorOf(s, id), LockFor(s, id), evicted);
    LeadsOn(s, take, t, build, BuildingAt(s, c, id, evicted), {c});
    run := take + build;
  }

  lemma BuiltPoolLands(s: State, c: nat, id: ModelId, floor: nat, lock: nat, v: nat) returns (run: seq<Event>)
    requires c in s.callers && s.callers[c] == Loading(id, floor, lock, Building(v))
    ensures Leads(s, run, Moves(s, c, Loading(id, floor, lock, Leaving(true))).(tables := Landing(s.tables, id, v)), {c})
  {
    var s1 := Moves(s, c, Loading(id, floor, lock, Landed)).(tables := s.tables.(pools := s.tables.pools[id := LoadedModel(v, 0)]));
    var s2 := Moves(s, c, Loading(id, floor, lock, Leaving(true))).(tables := Landing(s.tables, id, v));
    assert Apply(s, Land(c, true, 0)) == s1;
    assert Apply(s1, DropReservation(c)) == s2;
    run := LeadsTwo(s, Land(c, true, 0), s1, DropReservation(c), s2, {c});
  }

  function Landing(t: Tables, id: ModelId, v: nat): Tables {
    t.(pools := t.pools[id := LoadedModel(v, 0)], loading := t.loading - {id})
  }

  lemma LoadServes(s: State, c: nat, id: ModelId, floor: nat, lock: nat, v: nat) returns (run: seq<Event>)
    requires id in s.tables.pools && s.tables.pools[id] == LoadedModel(v, 0)
    ensures Leads(Moves(s, c, Loading(id, floor, lock, Leaving(true))), run, Moves(s, c, Served(id, floor, v)).(holders := s.holders - {lock}), {c})
  {
    var s1 := Moves(s, c, Loading(id, floor, lock, Leaving(true)));
    var s2 := Moves(s, c, Looking(id, floor)).(holders := s.holders - {lock});
    var s3 := Moves(s, c, Served(id, floor, v)).(holders := s.holders - {lock});
    assert Apply(s1, ReturnLock(c)) == s2;
    assert Used(s.tables, id, 0) == s.tables by {
      assert s.tables.pools[id := s.tables.pools[id].(lastUsed := 0)] == s.tables.pools;
    }
    assert Apply(s2, Look(c, 0)) == s3;
    run := LeadsTwo(s1, ReturnLock(c), s2, Look(c, 0), s3, {c});
  }

  lemma BuildServes(s: State, c: nat, id: ModelId, floor: nat, lock: nat, v: nat) returns (run: seq<Event>)
    requires c in s.callers && s.callers[c] == Loading(id, floor, lock, Building(v))
    ensures Leads(s, run, Moves(s, c, Served(id, floor, v)).(holders := s.holders - {lock}, tables := Landing(s.tables, id, v)), {c})
  {
    var t := s.(tables := Landing(s.tables, id, v));
    var land := BuiltPoolLands(s, c, id, floor, lock, v);
    var serve := LoadServes(t, c, id, floor, lock, v);
    LeadsOn(s, land, Moves(t, c, Loading(id, floor, lock, Leaving(true))), serve, Moves(t, c, Served(id, floor, v)).(holders := s.holders - {lock}), {c});
    run := land + serve;
  }

  /** A whole acquire by `c` of a model that was not loaded. */
  function LoadedBy(s: State, c: nat, id: ModelId, evicted: set<ModelId>): State
    requires id in s.factories
  {
    var lock, v := LockFor(s, id), s.factories[id];
    Moves(s, c, Served(id, FloorOf(s, id), v)).(nextLock := s.nextLock + 1,
      tables := Tables((s.tables.pools - evicted)[id := LoadedModel(v, 0)], s.tables.loadLocks[id := lock] - evicted, s.tables.loading + {id} - {id}))
  }

  lemma LoadedByServes(s: State, c: nat, id: ModelId, evicted: set<ModelId>)
    requires id in s.factories && LockFor(s, id) !in s.holders
    ensures var b := BuildingAt(s, c, id, evicted);
            Moves(b, c, Served(id, FloorOf(s, id), s.factories[id])).(holders := b.holders - {LockFor(s, id)}, tables := Landing(b.tables, id, s.factories[id]))
            == LoadedBy(s, c, id, evicted)
  {
    var b, served := BuildingAt(s, c, id, evicted), Served(id, FloorOf(s, id), s.factories[id]);
    assert b.holders - {LockFor(s, id)} == s.holders;
    assert Landing(b.tables, id, s.factories[id]) == LoadedBy(s, c, id, evicted).tables;
    assert b.callers[c := served] == s.callers[c := served];
  }

  lemma AcquireLoads(s: State, c: nat, id: ModelId, evicted: set<ModelId>) returns (run: seq<Event>)
    requires c !in s.callers && id !in s.tables.pools && id in s.factories && LockFor(s, id) !in s.holders
    requires Evicts(s.tables, id, s.max, evicted)
    ensures Leads(s, run, LoadedBy(s, c, id, evicted), {c})
  {
    var b := BuildingAt(s, c, id, evicted);
    var build := AcquireBuilds(s, c, id, evicted);
    var serve := BuildServes(b, c, id, FloorOf(s, id), LockFor(s, id), s.factories[id]);
    LoadedByServes(s, c, id, evicted);
    LeadsOn(s, build, b, serve, LoadedBy(s, c, id, evicted), {c});
    run := build + serve;
  }

  lemma UnloadTakesLock(s: State, u: nat, id: ModelId) returns (run: seq<Event>)
    requires u !in s.callers && id in s.tables.loadLocks && s.tables.loadLocks[id] !in s.holders
    ensures var lock := s.tables.loadLocks[id];
            Leads(s, run, Moves(s, u, UnloadHolding(id, VersionOf(s, id), Some(lock))).(holders := s.holders[lock := u]), {u})
  {
    var lock, v := s.tables.loadLocks[id], VersionOf(s, id);
    var s1 := Moves(s, u, UnloadWaiting(id, v, Some(lock)));
    var s2 := Moves(s, u, UnloadHolding(id, v, Some(lock))).(holders := s.holders[lock := u]);
    assert Apply(s, BeginUnload(u, id)) == s1;
    assert Apply(s1, TakeForUnload(u)) == s2;
    run := LeadsTwo(s, BeginUnload(u, id), s1, TakeForUnload(u), s2, {u});
  }

  /** A whole unload of a loaded model. */
  function UnloadedBy(s: State, u: nat, id: ModelId): State {
    Moves(s, u, Done(id)).(tables := WithoutModels(s.tables, {id}), floors := s.floors[id := Max(FloorOf(s, id), VersionOf(s, id))])
  }

  function Removing(s: State, u: nat, id: ModelId, lock: nat): State {
    UnloadedBy(s, u, id).(callers := s.callers[u := UnloadLeaving(id, Some(lock))], holders := s.holders[lock := u])
  }

  lemma HeldUnloadRemoves(s: State, u: nat, id: ModelId, lock: nat)
    requires id in s.tables.pools
    ensures var t := Moves(s, u, UnloadHolding(id, VersionOf(s, id), Some(lock))).(holders := s.holders[lock := u]);
            Apply(t, RemoveForUnload(u)) == Removing(s, u, id, lock)
  {
  }

  lemma RemovalEnds(s: State, u: nat, id: ModelId, lock: nat)
    requires lock !in s.holders
    ensures Apply(Removing(s, u, id, lock), EndUnload(u)) == UnloadedBy(s, u, id)
  {
    assert s.holders[lock := u] - {lock} == s.holders;
  }

  lemma UnloadRemoves(s: State, u: nat, id: ModelId, lock: nat) returns (run: seq<Event>)
    requires id in s.tables.pools && lock !in s.holders
    ensures Leads(Moves(s, u, UnloadHolding(id, VersionOf(s, id), Some(lock))).(holders := s.holders[lock := u]), run, UnloadedBy(s, u, id), {u})
  {
    var t := Moves(s, u, UnloadHolding(id, VersionOf(s, id), Some(lock))).(holders := s.holders[lock := u]);
    HeldUnloadRemoves(s, u, id, lock);
    RemovalEnds(s, u, id, lock);
    run := LeadsTwo(t, RemoveForUnload(u), Removing(s, u, id, lock), EndUnload(u), UnloadedBy(s, u, id), {u});
  }

  lemma UnloadReturns(s: State, u: nat, id: ModelId) returns (run: seq<Event>)
    requires u !in s.callers && id in s.tables.pools && id in s.tables.loadLocks && s.tables.loadLocks[id] !in s.holders
    ensures Leads(s, run, UnloadedBy(s, u, id), {u})
  {
    var lock := s.tables.loadLocks[id];
    var take := UnloadTakesLock(s, u, id);
    var remove := UnloadRemoves(s, u, id, lock);
    LeadsOn(s, take, Moves(s, u, UnloadHolding(id, VersionOf(s, id), Some(lock))).(holders := s.holders[lock := u]), remove, UnloadedBy(s, u, id), {u});
    run := take + remove;
  }

  // -------------------------------------------------------------------
  // A run that loses a lock
  // -------------------------------------------------------------------

  const WHISPER: ModelId := ModelId("whisper-tiny:Q8_0")

  /** One model is registered, and there is room for two. */
  function At(tables: Tables, holders: map<nat, nat>, callers: map<nat, Caller>, nextLock: nat, floors: map<ModelId, nat>): State {
    State(tables, 2, map[WHISPER := 1], holders, callers, {}, 2, nextLock, floors)
  }

  function Registered(): State { At(Tables(map[], map[], {}), map[], map[], 0, map[]) }

  lemma RegisteredIsReachable() returns (run: seq<Event>)
    ensures Leads(Start(2), run, Registered(), {})
  {
    assert Apply(Start(2), Register(WHISPER)) == Registered();
    run := LeadsOne(Start(2), Register(WHISPER), Registered(), {});
  }

  function Loaded(): State { At(Tables(map[WHISPER := LoadedModel(1, 0)], map[WHISPER := 0], {}), map[], map[1 := Served(WHISPER, 0, 1)], 1, map[]) }

  /** The model is loaded, and the idle watcher has just listed it. */
  function Listed(): State { Loaded().(listed := {WHISPER}) }

  lemma FirstLoad()
    ensures LoadedBy(Registered(), 1, WHISPER, {}) == Loaded()
  {
  }

  lemma ListedFollows() returns (run: seq<Event>)
    ensures Leads(Registered(), run, Listed(), {1})
  {
    NothingEvicted(Registered().tables, WHISPER, 2);
    var load := AcquireLoads(Registered(), 1, WHISPER, {});
    FirstLoad();
    assert Apply(Loaded(), ListIdle({WHISPER})) == Listed();
    var list := LeadsOne(Loaded(), ListIdle({WHISPER}), Listed(), {1});
    LeadsOn(Registered(), load, Loaded(), list, Listed(), {1});
    run := load + list;
  }

  /** The model has been unloaded, leaving no entry behind. */
  function Gone(): State {
    At(Tables(map[], map[], {}), map[], map[1 := Served(WHISPER, 0, 1), 2 := Done(WHISPER)], 1, map[WHISPER := 1]).(listed := {WHISPER})
  }

  lemma GoneFollows() returns (run: seq<Event>)
    ensures Leads(Listed(), run, Gone(), {2})
  {
    run := UnloadReturns(Listed(), 2, WHISPER);
    assert UnloadedBy(Listed(), 2, WHISPER) == Gone();
  }

  /** The watcher acts on its list while the model loads again, and drops the lock under that load. */
  function Lost(): State {
    At(Tables(map[], map[], {WHISPER}), map[1 := 3], map[1 := Served(WHISPER, 0, 1), 2 := Done(WHISPER), 3 := Loading(WHISPER, 1, 1, Building(1))], 2, map[WHISPER := 1])
  }

  function LoadingAgain(): State {
    Lost().(tables := Tables(map[], map[WHISPER := 1], {WHISPER}), listed := {WHISPER})
  }

  lemma SecondLoad()
    ensures BuildingAt(Gone(), 3, WHISPER, {}) == LoadingAgain()
  {
  }

  lemma LoadingAgainFollows() returns (run: seq<Event>)
    ensures Leads(Gone(), run, LoadingAgain(), {3})
  {
    NothingEvicted(Gone().tables, WHISPER, 2);
    run := AcquireBuilds(Gone(), 3, WHISPER, {});
    SecondLoad();
  }

  lemma LostFollows() returns (run: seq<Event>)
    ensures Leads(Gone(), run, Lost(), {3})
  {
    var again := LoadingAgainFollows();
    assert Apply(LoadingAgain(), EvictListed) == Lost();
    var evict := LeadsOne(LoadingAgain(), EvictListed, Lost(), {3});
    LeadsOn(Gone(), again, LoadingAgain(), evict, Lost(), {3});
    run := again + evict;
  }

  lemma GoneIsReachable() returns (run: seq<Event>)
    ensures Leads(Start(2), run, Gone(), {1, 2})
  {
    var register := RegisteredIsReachable();
    var list := ListedFollows();
    var unload := GoneFollows();
    Among(Start(2), register, Registered(), {}, {1, 2});
    Among(Registered(), list, Listed(), {1}, {1, 2});
    Among(Listed(), unload, Gone(), {2}, {1, 2});
    LeadsOn(Registered(), list, Listed(), unload, Gone(), {1, 2});
    LeadsOn(Start(2), register, Registered(), list + unload, Gone(), {1, 2});
    run := register + (list + unload);
  }

  lemma LostIsReachable() returns (run: seq<Event>)
    ensures Leads(Start(2), run, Lost(), {1, 2, 3})
  {
    var gone := GoneIsReachable();
    var lost := LostFollows();
    Among(Start(2), gone, Gone(), {1, 2}, {1, 2, 3});
    Among(Gone(), lost, Lost(), {3}, {1, 2, 3});
    LeadsOn(Start(2), gone, Gone(), lost, Lost(), {1, 2, 3});
    run := gone + lost;
  }

  /** A new factory is registered for the model whose load has lost its lock. */
  function Renewed(): State { Lost().(factories := map[WHISPER := 2], nextVersion := 3) }

  lemma RegisteredAgain()
    ensures Apply(Lost(), Register(WHISPER)) == Renewed()
  {
  }

  lemma RenewedIsReachable() returns (run: seq<Event>)
    ensures ValidRun(Start(2), run) && After(Start(2), run) == Renewed()
  {
    var lost := LostIsReachable();
    RegisteredAgain();
    OneStep(Lost(), Register(WHISPER));
    Chain(Start(2), lost, [Register(WHISPER)]);
    run := lost + [Register(WHISPER)];
  }

  lemma RenewedIsOvertaken()
    ensures Enabled(Renewed(), BeginUnload(4, WHISPER)) && Overtakes(Renewed(), BeginUnload(4, WHISPER)) && 5 !in Renewed().callers
  {
    assert CarriesOlder(Renewed().callers[3], WHISPER, 2);
  }

  /** A run to a state in which an unload overtakes a load, so that stale weights can follow it. */
  lemma StaleWeightsAreReachable() returns (before: seq<Event>, during: seq<Event>, after: seq<Event>)
    ensures ValidRun(Start(2), before) && ServesStale(After(Start(2), before), 4, WHISPER, 5, during, after)
  {
    before := RenewedIsReachable();
    RunKeepsBasics(Start(2), before);
    RenewedIsOvertaken();
    during, after := OvertakingServesStaleWeights(Renewed(), 4, WHISPER, 5);
  }
}
