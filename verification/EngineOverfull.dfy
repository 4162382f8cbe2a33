/**
 How the limit on loaded models is outgrown. A load that gives up the reservation of a model another
 load is still building leaves that one unaccounted for: the other slots can fill up around it, and it
 then lands all the same. From runs that stayed within the limit, nothing else can do it.
 */
module EngineOverfull {
  import opened Prelude
  import opened EngineManagers
  import opened EngineProtocol
  import opened EngineCapacity
  import opened EngineLostLock
  import opened EngineRuns

  // -------------------------------------------------------------------
  // Runs that keep within the limit and give up no model being built
  // -------------------------------------------------------------------

  /** No limit is set above `m`, no more than `m` models are being loaded at once, and none loses its reservation while being built. */
  ghost predicate Orderly(s: State, run: seq<Event>, m: nat) {
    ValidRun(s, run) && Load(s, run, m, m) && DropsNone(s, run)
  }

  lemma OrderlyOne(s: State, e: Event, m: nat)
    requires Enabled(s, e) && (e.Configure? ==> e.max <= m) && |Models(Apply(s, e))| <= m && !DropsBuilding(s, e)
    ensures Orderly(s, [e], m) && After(s, [e]) == Apply(s, e)
  {
    OneStep(s, e);
    assert [e][1..] == [];
  }

  lemma {:induction false} OrderlyChain(s: State, one: seq<Event>, two: seq<Event>, m: nat)
    requires Orderly(s, one, m) && Orderly(After(s, one), two, m)
    ensures Orderly(s, one + two, m) && After(s, one + two) == After(After(s, one), two)
    decreases |one|
  {
    Chain(s, one, two);
    if one == [] {
      assert one + two == two;
    } else {
      OrderlyChain(Apply(s, one[0]), one[1..], two, m);
      assert (one + two)[1..] == one[1..] + two;
    }
  }

  lemma {:induction false} LoadChain(s: State, one: seq<Event>, two: seq<Event>, m: nat, k: nat)
    requires ValidRun(s, one) && Load(s, one, m, k) && ValidRun(After(s, one), two) && Load(After(s, one), two, m, k)
    ensures ValidRun(s, one + two) && After(s, one + two) == After(After(s, one), two) && Load(s, one + two, m, k)
    decreases |one|
  {
    Chain(s, one, two);
    if one == [] {
      assert one + two == two;
    } else {
      LoadChain(Apply(s, one[0]), one[1..], two, m, k);
      assert (one + two)[1..] == one[1..] + two;
    }
  }

  /** A caller is with one model for good. */
  lemma {:induction false} ModelStays(s: State, run: seq<Event>, c: nat)
    requires ValidRun(s, run) && c in s.callers
    ensures c in After(s, run).callers && After(s, run).callers[c].id == s.callers[c].id
    decreases |run|
  {
    if run == [] {
      assert After(s, run) == s;
    } else {
      assert c in Apply(s, run[0]).callers && Apply(s, run[0]).callers[c].id == s.callers[c].id;
      ModelStays(Apply(s, run[0]), run[1..], c);
    }
  }

  /** The caller has no reservation and will have none. */
  predicate Past(c: Caller) {
    (c.Loading? && c.stage.Leaving?) || c.Looking? || c.Served? || c.Refused? || c.Done?
  }

  lemma {:induction false} PastStays(s: State, run: seq<Event>, c: nat)
    requires ValidRun(s, run) && c in s.callers && Past(s.callers[c])
    ensures c in After(s, run).callers && Past(After(s, run).callers[c])
    decreases |run|
  {
    if run == [] {
      assert After(s, run) == s;
    } else {
      assert c in Apply(s, run[0]).callers && Past(Apply(s, run[0]).callers[c]);
      PastStays(Apply(s, run[0]), run[1..], c);
    }
  }

  /** The one caller taking steps, if any, is with `id`, and if it does not end up reserving, nobody else is building that model. */
  ghost predicate Alone(s: State, t: State, who: set<nat>, id: ModelId) {
    && (forall d :: d in who ==> who == {d} && d in t.callers && t.callers[d].id == id)
    && (forall d, c :: d in who && c in s.callers && c != d && Builds(s.callers[c]) ==> Reserving(t.callers[d]) || s.callers[c].id != id)
  }

  lemma AloneDropsNone(s: State, e: Event, rest: seq<Event>, t: State, who: set<nat>, id: ModelId)
    requires Leads(s, [e] + rest, t, who) && Alone(s, t, who, id)
    ensures !DropsBuilding(s, e)
  {
    assert ([e] + rest)[0] == e && ([e] + rest)[1..] == rest;
    if DropsBuilding(s, e) {
      var c :| c in s.callers && Builds(s.callers[c]) && s.callers[c].id == s.callers[e.caller].id;
      ModelStays(Apply(s, e), rest, e.caller);
      PastStays(Apply(s, e), rest, e.caller);
      assert false;
    }
  }

  /** While one caller takes steps, no further model than its own comes under reservation. */
  lemma StepModels(s: State, e: Event, who: set<nat>, id: ModelId)
    requires Enabled(s, e) && (ConcernsCaller(e) ==> e.caller in who)
    requires forall d :: d in who && d in Apply(s, e).callers ==> Apply(s, e).callers[d].id == id
    ensures Models(Apply(s, e)) <= Models(s) + {id}
  {
    var t := Apply(s, e);
    forall c | c in t.callers && Reserving(t.callers[c]) ensures t.callers[c].id in Models(s) + {id} {
      ReservingFrom(s, e, c);
      if Reserving(s.callers[c]) {
        assert s.callers[c].id in Models(s);
      }
    }
  }

  lemma {:induction false} AloneIsOrderly(s: State, run: seq<Event>, t: State, who: set<nat>, id: ModelId, m: nat)
    requires Leads(s, run, t, who) && Alone(s, t, who, id) && |Models(s) + {id}| <= m
    ensures Orderly(s, run, m)
    decreases |run|
  {
    if run != [] {
      var e, rest, s1 := run[0], run[1..], Apply(s, run[0]);
      assert run == [e] + rest && forall i :: 0 <= i < |rest| ==> rest[i] == run[i + 1];
      AloneDropsNone(s, e, rest, t, who, id);
      forall d | d in who && d in s1.callers ensures s1.callers[d].id == id {
        ModelStays(s1, rest, d);
      }
      StepModels(s, e, who, id);
      SubsetSize(Models(s1), Models(s) + {id});
      SubsetSize(Models(s1) + {id}, Models(s) + {id});
      AloneStays(s, e, t, who, id);
      AloneIsOrderly(s1, rest, t, who, id, m);
    }
  }

  lemma AloneStays(s: State, e: Event, t: State, who: set<nat>, id: ModelId)
    requires Enabled(s, e) && (ConcernsCaller(e) ==> e.caller in who) && Alone(s, t, who, id)
    ensures Alone(Apply(s, e), t, who, id)
  {
    var s1 := Apply(s, e);
    forall c | c in s1.callers && c !in who ensures c in s.callers && s1.callers[c] == s.callers[c] {
    }
  }

  // -------------------------------------------------------------------
  // Bookkeeping over every run
  // -------------------------------------------------------------------

  /** Lock objects handed out so far are numbered below the next. */
  ghost predicate LocksNumbered(s: State) {
    && (forall lock :: lock in s.holders ==> lock < s.nextLock)
    && (forall id :: id in s.tables.loadLocks ==> s.tables.loadLocks[id] < s.nextLock)
    && (forall c :: c in s.callers ==> LockNumbered(s.callers[c], s.nextLock))
  }

  predicate LockNumbered(c: Caller, next: nat) {
    && (c.Loading? ==> c.lock < next)
    && (c.UnloadWaiting? || c.UnloadHolding? || c.UnloadLeaving? ==> c.handed.Some? ==> c.handed.value < next)
  }

  lemma NextCallerNumbered(s: State, e: Event)
    requires LocksNumbered(s) && Enabled(s, e) && ConcernsCaller(e)
    ensures LockNumbered(NextCaller(s, e), Apply(s, e).nextLock) && s.nextLock <= Apply(s, e).nextLock
  {
  }

  lemma StepKeepsNumbered(s: State, e: Event)
    requires LocksNumbered(s) && Enabled(s, e)
    ensures LocksNumbered(Apply(s, e))
  {
    var t := Apply(s, e);
    assert s.nextLock <= t.nextLock && t.callers == Moved(s, e).callers && t.holders == NextHolders(s, e);
    if ConcernsCaller(e) {
      NextCallerNumbered(s, e);
    }
    forall id | id in t.tables.loadLocks ensures t.tables.loadLocks[id] < t.nextLock {
      assert id in s.tables.loadLocks ==> t.tables.loadLocks[id] == s.tables.loadLocks[id];
    }
  }

  lemma {:induction false} RunKeepsBooks(s: State, run: seq<Event>)
    requires LocksNumbered(s) && LoadingBacked(s) && ValidRun(s, run)
    ensures LocksNumbered(After(s, run)) && LoadingBacked(After(s, run))
    decreases |run|
  {
    if run == [] {
      assert After(s, run) == s;
    } else {
      StepKeepsNumbered(s, run[0]);
      StepKeepsBacked(s, run[0]);
      RunKeepsBooks(Apply(s, run[0]), run[1..]);
    }
  }

  // -------------------------------------------------------------------
  // Letting the other loads go
  // -------------------------------------------------------------------

  /** A model is being built that no reservation stands for. */
  predicate Unreserved(s: State, c: nat) {
    InStage(s, c) && s.callers[c].stage.Building? && s.callers[c].id !in s.tables.loading
  }

  /** The loads of other models than `id` that hold a reservation, and those of them still building. */
  function Others(s: State, id: ModelId): set<nat> {
    set d | d in s.callers && Reserving(s.callers[d]) && s.callers[d].id != id
  }

  function OtherBuilders(s: State, id: ModelId): set<nat> {
    set d | d in s.callers && Builds(s.callers[d]) && s.callers[d].id != id
  }

  /** A caller that goes on reserving its model changes nothing about which models are reserved. */
  lemma SameModels(s: State, d: nat, now: Caller, t: State)
    requires d in s.callers && Reserving(s.callers[d]) && Reserving(now) && now.id == s.callers[d].id && t.callers == s.callers[d := now]
    ensures Models(t) == Models(s)
  {
    assert forall c :: c in t.callers <==> c in s.callers;
    forall c | c in s.callers
      ensures Reserving(t.callers[c]) == Reserving(s.callers[c]) && t.callers[c].id == s.callers[c].id
    {
    }
  }

  lemma BuildFails(s: State, c: nat, d: nat, m: nat)
    requires Unreserved(s, c) && d in OtherBuilders(s, s.callers[c].id) && |Models(s)| <= m
    ensures Enabled(s, Land(d, false, 0))
    ensures var e, id := Land(d, false, 0), s.callers[c].id;
            var t := Apply(s, e);
            && Orderly(s, [e], m) && Unreserved(t, c) && t.callers[c] == s.callers[c] && t.max == s.max && |Models(t)| <= m
            && Others(t, id) == Others(s, id) && OtherBuilders(t, id) == OtherBuilders(s, id) - {d}
  {
    var e := Land(d, false, 0);
    var t := Apply(s, e);
    SameModels(s, d, s.callers[d].(stage := Abandoned), t);
    OrderlyOne(s, e, m);
  }

  lemma OtherGivesUp(s: State, c: nat, d: nat, m: nat)
    requires Unreserved(s, c) && d in Others(s, s.callers[c].id) && OtherBuilders(s, s.callers[c].id) == {} && |Models(s)| <= m
    ensures Enabled(s, DropReservation(d))
    ensures var e, id := DropReservation(d), s.callers[c].id;
            var t := Apply(s, e);
            && Orderly(s, [e], m) && Unreserved(t, c) && t.callers[c] == s.callers[c] && t.max == s.max && |Models(t)| <= m
            && Others(t, id) == Others(s, id) - {d} && OtherBuilders(t, id) == {}
  {
    var e, id := DropReservation(d), s.callers[c].id;
    assert d !in OtherBuilders(s, id);
    var t := Apply(s, e);
    assert t.callers == s.callers[d := NextCaller(s, e)];
    forall i | i in Models(t) ensures i in Models(s) {
      var r :| r in t.callers && Reserving(t.callers[r]) && t.callers[r].id == i;
      assert r in s.callers && Reserving(s.callers[r]);
    }
    SubsetSize(Models(t), Models(s));
    forall r | r in s.callers && Builds(s.callers[r]) ensures s.callers[r].id == id {
      assert r !in OtherBuilders(s, id);
    }
    OrderlyOne(s, e, m);
  }

  /** The other models' loads can all fail and give up their reservations. */
  lemma {:induction false} OthersLeave(s: State, c: nat, m: nat) returns (run: seq<Event>)
    requires LocksNumbered(s) && LoadingBacked(s) && Unreserved(s, c) && |Models(s)| <= m
    ensures Orderly(s, run, m)
    ensures var t := After(s, run);
            LocksNumbered(t) && LoadingBacked(t) && Unreserved(t, c) && t.max == s.max && Models(t) == {s.callers[c].id}
    decreases |Others(s, s.callers[c].id)| + |OtherBuilders(s, s.callers[c].id)|
  {
    var id := s.callers[c].id;
    if Others(s, id) == {} {
      run := [];
      OnlyModel(s, c);
    } else {
      var e;
      if OtherBuilders(s, id) != {} {
        var d :| d in OtherBuilders(s, id);
        e := Land(d, false, 0);
        BuildFails(s, c, d, m);
      } else {
        var d :| d in Others(s, id);
        e := DropReservation(d);
        OtherGivesUp(s, c, d, m);
      }
      StepKeepsNumbered(s, e);
      StepKeepsBacked(s, e);
      OneStep(s, e);
      var rest := OthersLeave(Apply(s, e), c, m);
      OrderlyChain(s, [e], rest, m);
      run := [e] + rest;
    }
  }

  lemma OnlyModel(s: State, c: nat)
    requires Unreserved(s, c) && Others(s, s.callers[c].id) == {}
    ensures Models(s) == {s.callers[c].id}
  {
    forall d | d in s.callers && Reserving(s.callers[d]) ensures s.callers[d].id == s.callers[c].id {
      assert d !in Others(s, s.callers[c].id);
    }
    assert Reserving(s.callers[c]);
  }

  // -------------------------------------------------------------------
  // Filling the limit around the unreserved load
  // -------------------------------------------------------------------

  /** An unreserved load whose model is not loaded either, among fewer models than the limit, with `n` slots in use by different models. */
  ghost predicate Filled(s: State, c: nat, n: nat) {
    && Unreserved(s, c) && s.callers[c].id !in s.tables.pools
    && n == Occupied(s.tables) <= s.max && s.tables.pools.Keys !! s.tables.loading
    && |Models(s)| < s.max && LocksNumbered(s)
  }

  /** A model nobody has heard of. */
  lemma UnknownModel(used: set<ModelId>) returns (id: ModelId)
    ensures id !in used
  {
    var n := NotIn(set u | u in used :: |u.key|, 0);
    id := ModelId(seq(n, _ => 'x'));
    assert |id.key| == n;
  }

  function Knowing(s: State, id: ModelId): State {
    s.(factories := s.factories[id := s.nextVersion], nextVersion := s.nextVersion + 1)
  }

  /** An unknown model is registered and loaded beside. */
  function Beside(s: State, d: nat, id: ModelId): State { LoadedBy(Knowing(s, id), d, id, {}) }

  lemma LoadsBeside(s: State, c: nat, n: nat, d: nat, id: ModelId) returns (run: seq<Event>)
    requires Filled(s, c, n) && n < s.max && d !in s.callers
    requires id !in s.tables.pools.Keys + s.tables.loading + s.tables.loadLocks.Keys
    ensures Leads(s, run, Beside(s, d, id), {d})
  {
    var t := Knowing(s, id);
    assert Apply(s, Register(id)) == t;
    var register := LeadsOne(s, Register(id), t, {d});
    NothingEvicted(t.tables, id, t.max);
    var load := AcquireLoads(t, d, id, {});
    LeadsOn(s, register, t, load, Beside(s, d, id), {d});
    run := register + load;
  }

  lemma BesideTables(s: State, d: nat, id: ModelId)
    requires id !in s.tables.loading + s.tables.loadLocks.Keys
    ensures Beside(s, d, id).tables ==
            Tables(s.tables.pools[id := LoadedModel(s.nextVersion, 0)], s.tables.loadLocks[id := s.nextLock], s.tables.loading)
  {
    assert s.tables.pools - {} == s.tables.pools;
    assert s.tables.loadLocks[id := s.nextLock] - {} == s.tables.loadLocks[id := s.nextLock];
    assert s.tables.loading + {id} - {id} == s.tables.loading;
  }

  lemma OneMorePool(t: Tables, id: ModelId, m: LoadedModel, lock: nat)
    requires id !in t.pools
    ensures var r := Tables(t.pools[id := m], t.loadLocks[id := lock], t.loading);
            r.pools.Keys == t.pools.Keys + {id} && Occupied(r) == Occupied(t) + 1
  {
    MapGrows(t.pools, id, m);
  }

  lemma BesideKeepsUnreserved(s: State, c: nat, d: nat, id: ModelId)
    requires Unreserved(s, c) && s.callers[c].id !in s.tables.pools && d !in s.callers && id !in s.tables.loading + s.tables.loadLocks.Keys && id != s.callers[c].id
    ensures Unreserved(Beside(s, d, id), c) && Beside(s, d, id).callers[c] == s.callers[c]
    ensures s.callers[c].id !in Beside(s, d, id).tables.pools
  {
    BesideTables(s, d, id);
    assert Beside(s, d, id).callers[c] == s.callers[c];
  }

  lemma BesideKeepsNumbered(s: State, d: nat, id: ModelId)
    requires LocksNumbered(s) && d !in s.callers && id !in s.tables.loading + s.tables.loadLocks.Keys
    ensures LocksNumbered(Beside(s, d, id))
  {
    BesideTables(s, d, id);
    var t := Beside(s, d, id);
    assert t.holders == s.holders && t.nextLock == s.nextLock + 1;
    assert t.callers == s.callers[d := t.callers[d]] && t.callers[d].Served?;
  }

  lemma BesideModels(s: State, d: nat, id: ModelId)
    requires d !in s.callers
    ensures Models(Beside(s, d, id)) == Models(s)
  {
    var t := Beside(s, d, id);
    assert t.callers == s.callers[d := t.callers[d]] && t.callers[d].Served?;
    forall i | i in Models(s) ensures i in Models(t) {
      var c :| c in s.callers && Reserving(s.callers[c]) && s.callers[c].id == i;
      assert t.callers[c] == s.callers[c];
    }
  }

  lemma BesideFills(s: State, c: nat, n: nat, d: nat, id: ModelId)
    requires Filled(s, c, n) && n < s.max && d !in s.callers
    requires id !in s.tables.pools.Keys + s.tables.loading + s.tables.loadLocks.Keys && id != s.callers[c].id
    ensures Filled(Beside(s, d, id), c, n + 1) && Beside(s, d, id).max == s.max
  {
    BesideTables(s, d, id);
    OneMorePool(s.tables, id, LoadedModel(s.nextVersion, 0), s.nextLock);
    BesideModels(s, d, id);
    BesideKeepsUnreserved(s, c, d, id);
    BesideKeepsNumbered(s, d, id);
  }

  /** A model outside every table and load can be loaded by a newcomer without disturbing anything. */
  lemma BesideIsOrderly(s: State, run: seq<Event>, d: nat, id: ModelId, m: nat)
    requires Leads(s, run, Beside(s, d, id), {d}) && d !in s.callers && |Models(s)| < m
    requires forall c :: c in s.callers ==> s.callers[c].id != id
    ensures Orderly(s, run, m)
  {
    var t := Beside(s, d, id);
    assert t.callers[d].id == id;
    assert Alone(s, t, {d}, id);
    assert |Models(s) + {id}| <= |Models(s)| + 1;
    AloneIsOrderly(s, run, t, {d}, id, m);
  }

  /** Loading one more model takes one more slot and leaves the building load where it was. */
  lemma FillsOneMore(s: State, c: nat, n: nat) returns (run: seq<Event>)
    requires Filled(s, c, n) && n < s.max
    ensures Orderly(s, run, s.max) && Filled(After(s, run), c, n + 1) && After(s, run).max == s.max
  {
    var d := NotIn(s.callers.Keys, 0);
    var called := set c | c in s.callers :: s.callers[c].id;
    var id := UnknownModel(s.tables.pools.Keys + s.tables.loading + s.tables.loadLocks.Keys + called);
    assert forall c :: c in s.callers ==> s.callers[c].id in called;
    run := LoadsBeside(s, c, n, d, id);
    BesideFills(s, c, n, d, id);
    BesideIsOrderly(s, run, d, id, s.max);
  }

  lemma {:induction false} FillsUp(s: State, c: nat, n: nat) returns (run: seq<Event>)
    requires Filled(s, c, n)
    ensures Orderly(s, run, s.max) && Filled(After(s, run), c, s.max) && After(s, run).max == s.max
    decreases s.max - n
  {
    run := [];
    if n < s.max {
      var one := FillsOneMore(s, c, n);
      var rest := FillsUp(After(s, one), c, n + 1);
      OrderlyChain(s, one, rest, s.max);
      run := one + rest;
    }
  }

  lemma OneMoreResident(t: Tables, id: ModelId, m: LoadedModel)
    requires t.pools.Keys !! t.loading && id !in t.pools && id !in t.loading
    ensures |Resident(t.(pools := t.pools[id := m]))| == Occupied(t) + 1
  {
    assert Resident(t.(pools := t.pools[id := m])) == Resident(t) + {id};
    assert |t.pools.Keys + t.loading| == |t.pools.Keys| + |t.loading|;
    assert |t.pools.Keys| == |t.pools|;
  }

  lemma UnreservedLands(s: State, c: nat) returns (run: seq<Event>)
    requires Filled(s, c, s.max)
    ensures Orderly(s, run, s.max) && |Resident(After(s, run).tables)| == s.max + 1
  {
    var e := Land(c, true, 0);
    var t := Apply(s, e);
    var id, m := s.callers[c].id, LoadedModel(s.callers[c].stage.version, 0);
    assert t.tables == s.tables.(pools := s.tables.pools[id := m]);
    OneMoreResident(s.tables, id, m);
    LandKeepsModels(s, c);
    OrderlyOne(s, e, s.max);
    run := [e];
  }

  lemma LandKeepsModels(s: State, c: nat)
    requires Enabled(s, Land(c, true, 0))
    ensures Models(Apply(s, Land(c, true, 0))) == Models(s)
  {
    SameModels(s, c, s.callers[c].(stage := Landed), Apply(s, Land(c, true, 0)));
  }

  /** The idle watcher lists every loaded model and removes them all. */
  function Emptied(s: State): State {
    s.(tables := WithoutModels(s.tables, s.tables.pools.Keys), listed := {})
  }

  lemma Empties(s: State) returns (run: seq<Event>)
    ensures Leads(s, run, Emptied(s), {})
  {
    var ids := s.tables.pools.Keys;
    assert Apply(s, ListIdle(ids)) == s.(listed := ids);
    assert Apply(s.(listed := ids), EvictListed) == Emptied(s);
    run := LeadsTwo(s, ListIdle(ids), s.(listed := ids), EvictListed, Emptied(s), {});
  }

  lemma EmptiedIsFilled(s: State, c: nat)
    requires LocksNumbered(s) && LoadingBacked(s) && Unreserved(s, c) && Models(s) == {s.callers[c].id} && s.max >= 2
    ensures Filled(Emptied(s), c, 0)
  {
    var t := Emptied(s);
    assert s.tables.loading == {};
    assert t.tables.pools == map[];
    assert Models(t) == Models(s);
  }

  lemma EmptiesOrderly(s: State, c: nat) returns (run: seq<Event>)
    requires LocksNumbered(s) && LoadingBacked(s) && Unreserved(s, c) && Models(s) == {s.callers[c].id} && s.max >= 2
    ensures Orderly(s, run, s.max) && After(s, run).max == s.max && Filled(After(s, run), c, 0)
  {
    run := Empties(s);
    EmptiedIsFilled(s, c);
    assert Models(s) + {s.callers[c].id} == Models(s);
    AloneIsOrderly(s, run, Emptied(s), {}, s.callers[c].id, s.max);
  }

  lemma OnlyModelExceeds(s: State, c: nat) returns (run: seq<Event>)
    requires LocksNumbered(s) && LoadingBacked(s) && Unreserved(s, c) && Models(s) == {s.callers[c].id} && s.max >= 2
    ensures Orderly(s, run, s.max) && |Resident(After(s, run).tables)| == s.max + 1
  {
    var empty := EmptiesOrderly(s, c);
    var fill := FillsUp(After(s, empty), c, 0);
    OrderlyChain(s, empty, fill, s.max);
    var land := UnreservedLands(After(s, empty + fill), c);
    OrderlyChain(s, empty + fill, land, s.max);
    run := (empty + fill) + land;
  }

  lemma UnreservedExceeds(s: State, c: nat) returns (run: seq<Event>)
    requires LocksNumbered(s) && LoadingBacked(s) && Unreserved(s, c) && |Models(s)| <= s.max && s.max >= 2
    ensures Orderly(s, run, s.max) && |Resident(After(s, run).tables)| == s.max + 1
  {
    var leave := OthersLeave(s, c, s.max);
    var t := After(s, leave);
    ModelStays(s, leave, c);
    var exceed := OnlyModelExceeds(t, c);
    OrderlyChain(s, leave, exceed, s.max);
    run := leave + exceed;
  }

  /**
   From every reachable state in which a model is being built without a reservation, under a limit of at
   least two that the models being loaded are within, some orderly continuation leaves one model more
   than the limit resident.
   */
  lemma UnreservedLoadExceeds(max: nat, before: seq<Event>, c: nat) returns (run: seq<Event>)
    requires ValidRun(Start(max), before)
    requires var s := After(Start(max), before); Unreserved(s, c) && |Models(s)| <= s.max && s.max >= 2
    ensures var s := After(Start(max), before);
            Orderly(s, run, s.max) && |Resident(After(s, run).tables)| == s.max + 1
  {
    RunKeepsBooks(Start(max), before);
    run := UnreservedExceeds(After(Start(max), before), c);
  }

  // -------------------------------------------------------------------
  // Exactly which steps let the limit be outgrown
  // -------------------------------------------------------------------

  /** Giving up the reservation of a model that another load is building leaves that load unreserved. */
  lemma DropUnreserves(s: State, e: Event) returns (c: nat)
    requires Enabled(s, e) && DropsBuilding(s, e)
    ensures Unreserved(Apply(s, e), c)
  {
    c :| c in s.callers && Builds(s.callers[c]) && s.callers[c].id == s.callers[e.caller].id;
    LoadingAfter(s, e);
    assert Apply(s, e).callers[c] == s.callers[c];
  }

  /** A continuation that is orderly itself and ends with more than `m` models resident. */
  ghost predicate Outgrows(s: State, run: seq<Event>, m: nat) {
    Orderly(s, run, m) && |Resident(After(s, run).tables)| > m
  }

  lemma ConfiguredOutgrows(s: State, c: nat, m: nat) returns (run: seq<Event>)
    requires LocksNumbered(s) && LoadingBacked(s) && Unreserved(s, c) && |Models(s)| <= m && m >= 2
    ensures Outgrows(s, run, m)
  {
    var t := s.(max := m);
    assert Apply(s, Configure(m)) == t && Models(t) == Models(s);
    OrderlyOne(s, Configure(m), m);
    var rest := UnreservedExceeds(t, c);
    OrderlyChain(s, [Configure(m)], rest, m);
    run := [Configure(m)] + rest;
  }

  lemma NothingOutgrows(max: nat, m: nat, before: seq<Event>, after: seq<Event>)
    requires max <= m && ValidRun(Start(max), before) && Load(Start(max), before, m, m)
    requires Orderly(After(Start(max), before), after, m) && (DropsNone(Start(max), before) || m <= 1)
    ensures !Outgrows(After(Start(max), before), after, m)
  {
    var s := Start(max);
    LoadChain(s, before, after, m, m);
    if m <= 1 {
      LoadWithin(s, before + after, m, 1, m);
      CapacityOfOne(max, before + after, m);
    } else {
      OrderlyChain(s, before, after, m);
      CapacityOverEveryRun(max, before + after, m, m);
    }
  }

  lemma {:induction false} LoadWithin(s: State, run: seq<Event>, m: nat, more: nat, k: nat)
    requires ValidRun(s, run) && Load(s, run, m, k) && m <= more
    ensures Load(s, run, more, k)
    decreases |run|
  {
    if run != [] {
      LoadWithin(Apply(s, run[0]), run[1..], m, more, k);
    }
  }

  /**
   After an orderly run, a further step within the limit can be followed by an orderly continuation
   that outgrows the limit exactly when the step gives up the reservation of a model that another load
   is still building, and the limit is at least two.
   */
  lemma OutgrownExactlyWhenDropped(max: nat, m: nat, before: seq<Event>, e: Event)
    requires max <= m && Orderly(Start(max), before, m)
    requires var s := After(Start(max), before);
             Enabled(s, e) && (e.Configure? ==> e.max <= m) && |Models(Apply(s, e))| <= m
    ensures var s := After(Start(max), before);
            (exists after :: Outgrows(Apply(s, e), after, m)) <==> DropsBuilding(s, e) && m >= 2
  {
    var s := After(Start(max), before);
    var t := Apply(s, e);
    OneStep(s, e);
    Chain(Start(max), before, [e]);
    if DropsBuilding(s, e) && m >= 2 {
      RunKeepsBooks(Start(max), before + [e]);
      var c := DropUnreserves(s, e);
      var after := ConfiguredOutgrows(t, c, m);
    } else {
      LoadChain(Start(max), before, [e], m, m);
      if !DropsBuilding(s, e) {
        OrderlyOne(s, e, m);
        OrderlyChain(Start(max), before, [e], m);
      }
      forall after ensures !Outgrows(t, after, m) {
        if Orderly(t, after, m) {
          NothingOutgrows(max, m, before + [e], after);
        }
      }
    }
  }

  // -------------------------------------------------------------------
  // A run that outgrows the limit
  // -------------------------------------------------------------------

  /** A second load of the model has landed beside the one that lost its lock, and both rely on one reservation. */
  function Shared(): State {
    At(Tables(map[WHISPER := LoadedModel(1, 0)], map[WHISPER := 2], {WHISPER}), map[1 := 3, 2 := 4], Lost().callers[4 := Loading(WHISPER, 1, 2, Landed)], 3, map[WHISPER := 1])
  }

  function BothBuilding(): State {
    Shared().(tables := Tables(map[], map[WHISPER := 2], {WHISPER}), callers := Lost().callers[4 := Loading(WHISPER, 1, 2, Building(1))])
  }

  lemma SecondBuilds()
    ensures BuildingAt(Lost(), 4, WHISPER, {}) == BothBuilding()
  {
  }

  lemma SecondLands()
    ensures Enabled(BothBuilding(), Land(4, true, 0)) && Apply(BothBuilding(), Land(4, true, 0)) == Shared()
  {
  }

  lemma OneModelAtMost(s: State)
    requires forall c :: c in s.callers ==> s.callers[c].id == WHISPER
    ensures |Models(s) + {WHISPER}| <= 1
  {
    assert Models(s) + {WHISPER} == {WHISPER};
  }

  /** The run of EngineRuns.dfy that loses a lock, in the parts that are one caller's each. */
  lemma ListedOrderly() returns (run: seq<Event>)
    ensures Orderly(Start(2), run, 2) && After(Start(2), run) == Listed()
  {
    var register := RegisteredIsReachable();
    OneModelAtMost(Start(2));
    AloneIsOrderly(Start(2), register, Registered(), {}, WHISPER, 2);
    var list := ListedFollows();
    OneModelAtMost(Registered());
    AloneIsOrderly(Registered(), list, Listed(), {1}, WHISPER, 2);
    OrderlyChain(Start(2), register, list, 2);
    run := register + list;
  }

  lemma GoneOrderly() returns (run: seq<Event>)
    ensures Orderly(Listed(), run, 2) && After(Listed(), run) == Gone()
  {
    run := GoneFollows();
    OneModelAtMost(Listed());
    AloneIsOrderly(Listed(), run, Gone(), {2}, WHISPER, 2);
  }

  lemma LostOrderly() returns (run: seq<Event>)
    ensures Orderly(Gone(), run, 2) && After(Gone(), run) == Lost()
  {
    run := LostFollows();
    OneModelAtMost(Gone());
    AloneIsOrderly(Gone(), run, Lost(), {3}, WHISPER, 2);
  }

  lemma SharedOrderly() returns (run: seq<Event>)
    ensures Orderly(Lost(), run, 2) && After(Lost(), run) == Shared()
  {
    NothingEvicted(Lost().tables, WHISPER, 2);
    var build := AcquireBuilds(Lost(), 4, WHISPER, {});
    SecondBuilds();
    OneModelAtMost(Lost());
    AloneIsOrderly(Lost(), build, BothBuilding(), {4}, WHISPER, 2);
    SecondLands();
    OneModelAtMost(Shared());
    SubsetSize(Models(Shared()), Models(Shared()) + {WHISPER});
    OrderlyOne(BothBuilding(), Land(4, true, 0), 2);
    OrderlyChain(Lost(), build, [Land(4, true, 0)], 2);
    run := build + [Land(4, true, 0)];
  }

  lemma SharedIsReachable() returns (run: seq<Event>)
    ensures Orderly(Start(2), run, 2) && After(Start(2), run) == Shared()
  {
    var list := ListedOrderly();
    var gone := GoneOrderly();
    var lost := LostOrderly();
    var both := SharedOrderly();
    OrderlyChain(Gone(), lost, both, 2);
    OrderlyChain(Listed(), gone, lost + both, 2);
    OrderlyChain(Start(2), list, gone + (lost + both), 2);
    run := list + (gone + (lost + both));
  }

  lemma SharedIsDropped()
    ensures Enabled(Shared(), DropReservation(4)) && DropsBuilding(Shared(), DropReservation(4))
    ensures |Models(Apply(Shared(), DropReservation(4)))| <= 2
  {
    assert Builds(Shared().callers[3]);
    var t := Apply(Shared(), DropReservation(4));
    OneModelAtMost(t);
    SubsetSize(Models(t), Models(t) + {WHISPER});
  }

  /** Once the shared reservation is given up, the limit can be outgrown. */
  lemma DroppedOutgrows() returns (after: seq<Event>)
    ensures Outgrows(Apply(Shared(), DropReservation(4)), after, 2)
  {
    var before := SharedIsReachable();
    SharedIsDropped();
    OutgrownExactlyWhenDropped(2, 2, before, DropReservation(4));
    after :| Outgrows(Apply(Shared(), DropReservation(4)), after, 2);
  }

  lemma DroppedIsReachable() returns (run: seq<Event>)
    ensures ValidRun(Start(2), run) && Load(Start(2), run, 2, 2) && After(Start(2), run) == Apply(Shared(), DropReservation(4))
  {
    var before := SharedIsReachable();
    SharedIsDropped();
    OneStep(Shared(), DropReservation(4));
    LoadChain(Start(2), before, [DropReservation(4)], 2, 2);
    run := before + [DropReservation(4)];
  }

  /** A run under a limit of two, with never more than two models being loaded, that ends with three or more resident. */
  lemma CapacityIsExceeded() returns (run: seq<Event>)
    ensures ValidRun(Start(2), run) && Load(Start(2), run, 2, 2) && |Resident(After(Start(2), run).tables)| > 2
  {
    var before := DroppedIsReachable();
    var after := DroppedOutgrows();
    LoadChain(Start(2), before, after, 2, 2);
    run := before + after;
  }
}
