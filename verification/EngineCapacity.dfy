/**
 Over which runs of the engine manager the loaded models and those being built stay within the
 configured limit. EngineRuns.dfy shows how the other runs outgrow it.
 */
module EngineCapacity {
  import opened Prelude
  import opened EngineManagers
  import opened EngineProtocol

  predicate Builds(c: Caller) { c.Loading? && c.stage.Building? }

  /** The models whose loads hold a reservation. */
  function Models(s: State): set<ModelId> {
    set c | c in s.callers && Reserving(s.callers[c]) :: s.callers[c].id
  }

  /** Every model being built is in `loading`. */
  ghost predicate BuildingsSeen(s: State) {
    forall c :: c in s.callers && Builds(s.callers[c]) ==> s.callers[c].id in s.tables.loading
  }

  /** Every reservation is some load's. */
  ghost predicate LoadingBacked(s: State) { s.tables.loading <= Models(s) }

  /** Models that are loaded or being built. */
  function Resident(t: Tables): set<ModelId> { t.pools.Keys + t.loading }

  /** Every limit in force is at most `m`, and the resident models are within `m` or the loads `k`. */
  ghost predicate Within(s: State, m: nat, k: nat) {
    && |Resident(s.tables)| <= Max(m, k)
    && s.max <= m
    && (forall c :: c in s.callers ==> LimitRead(s.callers[c]) <= m)
  }

  /** The limit a load has read and not yet used. */
  function LimitRead(c: Caller): nat {
    if c.Loading? && (c.stage.Configured? || c.stage.Prepared?) then c.stage.max else 0
  }

  lemma LimitReadStep(s: State, e: Event)
    requires Enabled(s, e) && ConcernsCaller(e)
    ensures var now := LimitRead(NextCaller(s, e));
            now == 0 || now == s.max || (e.caller in s.callers && now == LimitRead(s.callers[e.caller]))
  {
  }

  lemma LimitReadFrom(s: State, e: Event, c: nat)
    requires Enabled(s, e) && c in Apply(s, e).callers
    ensures var now := LimitRead(Apply(s, e).callers[c]);
            now == 0 || now == s.max || (c in s.callers && now == LimitRead(s.callers[c]))
  {
    assert Apply(s, e).callers == Moved(s, e).callers;
    if ConcernsCaller(e) {
      LimitReadStep(s, e);
    }
  }

  lemma ReservingStep(s: State, e: Event)
    requires Enabled(s, e) && ConcernsCaller(e) && Reserving(NextCaller(s, e))
    ensures e.caller in s.callers && s.callers[e.caller].Loading? && s.callers[e.caller].id == NextCaller(s, e).id
    ensures (Reserving(s.callers[e.caller]) || e.Reserve?) && !e.DropReservation?
  {
  }

  lemma ReservingFrom(s: State, e: Event, c: nat)
    requires Enabled(s, e) && c in Apply(s, e).callers && Reserving(Apply(s, e).callers[c])
    ensures c in s.callers && s.callers[c].Loading? && s.callers[c].id == Apply(s, e).callers[c].id
    ensures Reserving(s.callers[c]) || (e.Reserve? && e.caller == c)
    ensures e != DropReservation(c)
  {
    assert Apply(s, e).callers == Moved(s, e).callers;
    if ConcernsCaller(e) && e.caller == c {
      ReservingStep(s, e);
    }
  }

  lemma ReservationStays(s: State, e: Event, c: nat)
    requires Enabled(s, e) && c in s.callers && Reserving(s.callers[c]) && e != DropReservation(c)
    ensures c in Apply(s, e).callers && Reserving(Apply(s, e).callers[c]) && Apply(s, e).callers[c].id == s.callers[c].id
  {
  }

  lemma LoadingAfter(s: State, e: Event)
    requires Enabled(s, e)
    ensures Apply(s, e).tables.loading ==
            match e
            case Reserve(c, _) => s.tables.loading + {s.callers[c].id}
            case DropReservation(c) => s.tables.loading - {s.callers[c].id}
            case _ => s.tables.loading
  {
  }

  /** The step gives up the reservation of a model that another load is still building. */
  ghost predicate DropsBuilding(s: State, e: Event) {
    e.DropReservation? && e.caller in s.callers && s.callers[e.caller].Loading?
    && exists c :: c in s.callers && Builds(s.callers[c]) && s.callers[c].id == s.callers[e.caller].id
  }

  /** While one load per model is past the wait, no reservation is given up under another load. */
  lemma OneLoaderDropsNone(s: State, e: Event)
    requires HoldersInv(s) && LocksCurrent(s) && Enabled(s, e)
    ensures !DropsBuilding(s, e)
  {
    if e.DropReservation? {
      forall c | c in s.callers && Builds(s.callers[c]) ensures s.callers[c].id != s.callers[e.caller].id {
        if s.callers[c].id == s.callers[e.caller].id {
          OneLoader(s, c, e.caller);
        }
      }
    }
  }

  lemma ReservedModel(s: State, e: Event, c: nat)
    requires Enabled(s, e) && c in s.callers && Reserving(s.callers[c]) && e != DropReservation(c)
    ensures s.callers[c].id in Models(Apply(s, e))
  {
    ReservationStays(s, e, c);
  }

  lemma StepKeepsBacked(s: State, e: Event)
    requires LoadingBacked(s) && Enabled(s, e)
    ensures LoadingBacked(Apply(s, e))
  {
    var t := Apply(s, e);
    LoadingAfter(s, e);
    forall id | id in t.tables.loading ensures id in Models(t) {
      if e.Reserve? && s.callers[e.caller].id == id {
        assert Reserving(t.callers[e.caller]);
      } else {
        var c :| c in s.callers && Reserving(s.callers[c]) && s.callers[c].id == id;
        ReservedModel(s, e, c);
      }
    }
  }

  lemma BuildingFrom(s: State, e: Event, c: nat)
    requires Enabled(s, e) && c in Apply(s, e).callers && Builds(Apply(s, e).callers[c])
    ensures c in s.callers && s.callers[c].Loading? && s.callers[c].id == Apply(s, e).callers[c].id
    ensures Builds(s.callers[c]) || (e.Reserve? && e.caller == c)
  {
  }

  lemma StepKeepsBuildings(s: State, e: Event)
    requires BuildingsSeen(s) && Enabled(s, e) && !DropsBuilding(s, e)
    ensures BuildingsSeen(Apply(s, e))
  {
    var t := Apply(s, e);
    LoadingAfter(s, e);
    forall c | c in t.callers && Builds(t.callers[c]) ensures t.callers[c].id in t.tables.loading {
      BuildingFrom(s, e, c);
    }
  }

  /** `loading` goes on holding every model being built exactly when the step gives up none of them. */
  lemma BuildingsStep(s: State, e: Event)
    requires BuildingsSeen(s) && Enabled(s, e)
    ensures BuildingsSeen(Apply(s, e)) <==> !DropsBuilding(s, e)
  {
    if DropsBuilding(s, e) {
      var c :| c in s.callers && Builds(s.callers[c]) && s.callers[c].id == s.callers[e.caller].id;
      LoadingAfter(s, e);
      assert Apply(s, e).callers[c] == s.callers[c];
    } else {
      StepKeepsBuildings(s, e);
    }
  }

  lemma LimitsStayWithin(s: State, e: Event, m: nat, k: nat)
    requires Within(s, m, k) && Enabled(s, e) && (e.Configure? ==> e.max <= m)
    ensures |Resident(Apply(s, e).tables)| <= Max(m, k) ==> Within(Apply(s, e), m, k)
  {
    forall c | c in Apply(s, e).callers ensures LimitRead(Apply(s, e).callers[c]) <= m {
      LimitReadFrom(s, e, c);
    }
  }

  /** With room after its evictions, a reservation stays within its limit. */
  lemma RoomForOneMore(t: Tables, id: ModelId, limit: nat)
    requires Occupied(t) < limit
    ensures |Resident(t.(loading := t.loading + {id}))| <= limit
  {
    assert Resident(t.(loading := t.loading + {id})) == t.pools.Keys + (t.loading + {id});
    assert |t.pools.Keys + (t.loading + {id})| <= |t.pools.Keys| + |t.loading + {id}|;
    assert |t.loading + {id}| <= |t.loading| + 1;
    assert |t.pools.Keys| == |t.pools|;
  }

  lemma ReserveStaysWithin(s: State, c: nat, evicted: set<ModelId>, m: nat, k: nat)
    requires LoadingBacked(s) && Within(s, m, k) && Enabled(s, Reserve(c, evicted))
    requires |Models(Apply(s, Reserve(c, evicted)))| <= k
    ensures |Resident(Apply(s, Reserve(c, evicted)).tables)| <= Max(m, k)
  {
    var t, id, limit := Apply(s, Reserve(c, evicted)), s.callers[c].id, s.callers[c].stage.max;
    var cleared := WithoutModels(s.tables, evicted);
    OccupiedAfter(s.tables, evicted);
    assert t.tables == cleared.(loading := cleared.loading + {id}) && limit == LimitRead(s.callers[c]);
    if Occupied(cleared) < limit {
      RoomForOneMore(cleared, id, limit);
    } else {
      StepKeepsBacked(s, Reserve(c, evicted));
      assert Resident(t.tables) == t.tables.loading;
      SubsetSize(t.tables.loading, Models(t));
    }
  }

  lemma LandKeepsResident(s: State, c: nat, built: bool, now: int)
    requires BuildingsSeen(s) && Enabled(s, Land(c, built, now))
    ensures Resident(Apply(s, Land(c, built, now)).tables) == Resident(s.tables)
  {
    assert Builds(s.callers[c]);
  }

  lemma ResidentShrinks(s: State, e: Event)
    requires Enabled(s, e) && !e.Reserve? && !e.Land?
    ensures Resident(Apply(s, e).tables) <= Resident(s.tables)
  {
  }

  lemma StepStaysWithin(s: State, e: Event, m: nat, k: nat)
    requires BuildingsSeen(s) && LoadingBacked(s) && Within(s, m, k) && Enabled(s, e)
    requires (e.Configure? ==> e.max <= m) && |Models(Apply(s, e))| <= k
    ensures Within(Apply(s, e), m, k)
  {
    if e.Reserve? {
      ReserveStaysWithin(s, e.caller, e.evicted, m, k);
    } else if e.Land? {
      LandKeepsResident(s, e.caller, e.built, e.now);
    } else {
      ResidentShrinks(s, e);
      SubsetSize(Resident(Apply(s, e).tables), Resident(s.tables));
    }
    LimitsStayWithin(s, e, m, k);
  }

  /** Along the run no configured limit exceeds `m`, and at most `k` models are being loaded at once. */
  ghost predicate Load(s: State, run: seq<Event>, m: nat, k: nat)
    requires ValidRun(s, run)
    decreases |run|
  {
    run == [] ||
    ((run[0].Configure? ==> run[0].max <= m) && |Models(Apply(s, run[0]))| <= k && Load(Apply(s, run[0]), run[1..], m, k))
  }

  /** No step of the run gives up the reservation of a model being built. */
  ghost predicate DropsNone(s: State, run: seq<Event>)
    requires ValidRun(s, run)
    decreases |run|
  {
    run == [] || (!DropsBuilding(s, run[0]) && DropsNone(Apply(s, run[0]), run[1..]))
  }

  lemma {:induction false} RunStaysWithin(s: State, run: seq<Event>, m: nat, k: nat)
    requires BuildingsSeen(s) && LoadingBacked(s) && Within(s, m, k)
    requires ValidRun(s, run) && DropsNone(s, run) && Load(s, run, m, k)
    ensures BuildingsSeen(After(s, run)) && LoadingBacked(After(s, run)) && Within(After(s, run), m, k)
    decreases |run|
  {
    if run == [] {
      assert After(s, run) == s;
    } else {
      StepStaysWithin(s, run[0], m, k);
      BuildingsStep(s, run[0]);
      StepKeepsBacked(s, run[0]);
      RunStaysWithin(Apply(s, run[0]), run[1..], m, k);
    }
  }

  /**
   Loaded models and models being built never outnumber the largest limit, or the models being loaded
   where those alone exceed it, as long as no load gives up the reservation of a model that another
   load is still building.
   */
  lemma CapacityOverEveryRun(max: nat, run: seq<Event>, m: nat, k: nat)
    requires max <= m && ValidRun(Start(max), run) && DropsNone(Start(max), run) && Load(Start(max), run, m, k)
    ensures |Resident(After(Start(max), run).tables)| <= Max(m, k)
  {
    RunStaysWithin(Start(max), run, m, k);
  }

  // -------------------------------------------------------------------
  // A limit of one
  // -------------------------------------------------------------------

  /** Loaded, reserved or being built. */
  function Spoken(s: State): set<ModelId> {
    Resident(s.tables) + set c | c in s.callers && Builds(s.callers[c]) :: s.callers[c].id
  }

  /** Reserving under a limit of at most one evicts everything but the model itself. */
  lemma ReserveSpeaksForLoads(s: State, c: nat, evicted: set<ModelId>)
    requires LoadingBacked(s) && Enabled(s, Reserve(c, evicted)) && s.callers[c].stage.max <= 1
    ensures Spoken(Apply(s, Reserve(c, evicted))) <= Models(Apply(s, Reserve(c, evicted)))
  {
    var e, id := Reserve(c, evicted), s.callers[c].id;
    var t := Apply(s, e);
    StepKeepsBacked(s, e);
    OccupiedAfter(s.tables, evicted);
    assert Reserving(t.callers[c]) && t.callers[c].id == id;
    assert t.tables.pools.Keys <= {id} by {
      if evicted != s.tables.pools.Keys - {id} {
        assert t.tables.pools == map[];
      }
    }
  }

  lemma SpokenShrinks(s: State, e: Event)
    requires Enabled(s, e) && !e.Reserve?
    ensures Spoken(Apply(s, e)) <= Spoken(s)
  {
    var t := Apply(s, e);
    forall c | c in t.callers && Builds(t.callers[c]) ensures t.callers[c].id in Spoken(s) {
      BuildingFrom(s, e, c);
    }
    if e.Land? {
      assert Builds(s.callers[e.caller]);
    } else {
      ResidentShrinks(s, e);
    }
  }

  lemma {:induction false} RunSpeaksForLoads(s: State, run: seq<Event>, k: nat)
    requires LoadingBacked(s) && Within(s, 1, |Spoken(s)|) && |Spoken(s)| <= k && ValidRun(s, run) && Load(s, run, 1, k)
    ensures |Spoken(After(s, run))| <= k
    decreases |run|
  {
    if run == [] {
      assert After(s, run) == s;
    } else {
      var e, t := run[0], Apply(s, run[0]);
      StepKeepsBacked(s, e);
      if e.Reserve? {
        assert s.callers[e.caller].stage.max == LimitRead(s.callers[e.caller]);
        ReserveSpeaksForLoads(s, e.caller, e.evicted);
        SubsetSize(Spoken(t), Models(t));
      } else {
        SpokenShrinks(s, e);
        SubsetSize(Spoken(t), Spoken(s));
      }
      SubsetSize(Resident(t.tables), Spoken(t));
      forall c | c in t.callers ensures LimitRead(t.callers[c]) <= 1 {
        LimitReadFrom(s, e, c);
      }
      RunSpeaksForLoads(t, run[1..], k);
    }
  }

  /** While no limit exceeds one, the models being loaded bound those resident over every run, whatever reservations are given up. */
  lemma CapacityOfOne(max: nat, run: seq<Event>, k: nat)
    requires max <= 1 && ValidRun(Start(max), run) && Load(Start(max), run, 1, k)
    ensures |Resident(After(Start(max), run).tables)| <= k
  {
    assert Spoken(Start(max)) == {};
    RunSpeaksForLoads(Start(max), run, k);
    SubsetSize(Resident(After(Start(max), run).tables), Spoken(After(Start(max), run)));
  }
}
