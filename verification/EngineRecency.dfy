/**
 What "least recently used" means over whole runs of the engine manager: a model's last use is when it
 last landed or last served an acquire, and an incoming load evicts in that order.
 */
module EngineRecency {
  import opened Prelude
  import opened EngineManagers
  import opened EngineProtocol
  import opened EngineGuarantees

  /** The model whose pool the step puts in the table or hands to an acquire, and the clock reading it does so at. */
  function Touch(s: State, e: Event): Option<(ModelId, int)>
    requires Enabled(s, e)
  {
    match e
    case Land(c, built, now) => if built then Some((s.callers[c].id, now)) else None
    case Look(c, now) => if s.callers[c].id in s.tables.pools then Some((s.callers[c].id, now)) else None
    case _ => None
  }

  /** A look touches exactly when it serves its acquire. */
  lemma LookTouchesWhenServed(s: State, c: nat, now: int)
    requires Enabled(s, Look(c, now))
    ensures Touch(s, Look(c, now)) == if Apply(s, Look(c, now)).callers[c].Served? then Some((s.callers[c].id, now)) else None
  {
    assert Apply(s, Look(c, now)).callers == Moved(s, Look(c, now)).callers;
  }

  /** When each model was last touched along the run, for those that were, starting from `times`. */
  ghost function LastTouched(times: map<ModelId, int>, s: State, run: seq<Event>): map<ModelId, int>
    requires ValidRun(s, run)
    decreases |run|
  {
    if run == [] then times
    else
      var touch := Touch(s, run[0]);
      LastTouched(if touch.Some? then times[touch.value.0 := touch.value.1] else times, Apply(s, run[0]), run[1..])
  }

  /** Every loaded pool's `lastUsed` is when its model was last touched. */
  ghost predicate UsesRecorded(s: State, times: map<ModelId, int>) {
    forall id :: id in s.tables.pools ==> id in times && times[id] == s.tables.pools[id].lastUsed
  }

  /** A pool that is there after a step was touched by it, or was there before and is as old as it was. */
  lemma StepRecordsUse(s: State, e: Event, id: ModelId)
    requires Enabled(s, e) && id in Apply(s, e).tables.pools
    ensures var touch, now := Touch(s, e), Apply(s, e).tables.pools[id].lastUsed;
            if touch.Some? && touch.value.0 == id then now == touch.value.1
            else id in s.tables.pools && now == s.tables.pools[id].lastUsed
  {
  }

  lemma {:induction false} RunRecordsUses(times: map<ModelId, int>, s: State, run: seq<Event>)
    requires UsesRecorded(s, times) && ValidRun(s, run)
    ensures UsesRecorded(After(s, run), LastTouched(times, s, run))
    decreases |run|
  {
    if run == [] {
      assert After(s, run) == s;
    } else {
      var touch, t := Touch(s, run[0]), Apply(s, run[0]);
      var later := if touch.Some? then times[touch.value.0 := touch.value.1] else times;
      forall id | id in t.tables.pools ensures id in later && later[id] == t.tables.pools[id].lastUsed {
        StepRecordsUse(s, run[0], id);
      }
      RunRecordsUses(later, t, run[1..]);
    }
  }

  /** In every reachable state a loaded pool's `lastUsed` is when its model last landed or last served an acquire. */
  lemma LastUseOverEveryRun(max: nat, run: seq<Event>, id: ModelId)
    requires ValidRun(Start(max), run) && id in After(Start(max), run).tables.pools
    ensures var times := LastTouched(map[], Start(max), run);
            id in times && After(Start(max), run).tables.pools[id].lastUsed == times[id]
  {
    RunRecordsUses(map[], Start(max), run);
  }

  /**
   Whatever an incoming load evicts, in every reachable state, last landed or served an acquire no later
   than any model it keeps, other than its own.
   */
  lemma EvictsLeastRecentlyTouched(max: nat, run: seq<Event>, c: nat, evicted: set<ModelId>, gone: ModelId, kept: ModelId)
    requires ValidRun(Start(max), run) && Enabled(After(Start(max), run), Reserve(c, evicted))
    requires var s := After(Start(max), run);
             && gone in s.tables.pools && gone !in Apply(s, Reserve(c, evicted)).tables.pools
             && kept in Apply(s, Reserve(c, evicted)).tables.pools && kept != s.callers[c].id
    ensures var times := LastTouched(map[], Start(max), run);
            gone in times && kept in times && times[gone] <= times[kept]
  {
    RunRecordsUses(map[], Start(max), run);
  }

  lemma JustEnoughRoom(t: Tables, id: ModelId, max: nat, evicted: set<ModelId>)
    requires Evicts(t, id, max, evicted)
    ensures var now := WithoutModels(t, evicted);
            && (|t.pools| + |t.loading| < max ==> now.pools == t.pools)
            && (now.pools != t.pools ==> |now.pools| + |t.loading| + 1 >= max)
            && (|now.pools| + |t.loading| < max || now.pools.Keys <= {id})
  {
    OccupiedAfter(t, evicted);
    if evicted == {} {
      assert t.pools - evicted == t.pools;
    }
  }

  /**
   A reservation removes pools with their locks only when there is no room, no more of them than it must,
   never its own model's, and makes room unless nothing else is left.
   */
  lemma ReserveEvictsJustEnough(s: State, c: nat, evicted: set<ModelId>)
    requires Enabled(s, Reserve(c, evicted))
    ensures var was, now := s.tables, Apply(s, Reserve(c, evicted)).tables;
            var id, max := s.callers[c].id, s.callers[c].stage.max;
            && now.loading == was.loading + {id}
            && (forall m :: m in now.pools ==> m in was.pools && now.pools[m] == was.pools[m])
            && (forall m :: m in was.loadLocks ==> (m in now.loadLocks <==> m !in was.pools || m in now.pools))
            && (forall m :: m in now.loadLocks ==> m in was.loadLocks && now.loadLocks[m] == was.loadLocks[m])
            && (id in was.pools ==> id in now.pools)
            && (|was.pools| + |was.loading| < max ==> now.pools == was.pools)
            && (now.pools != was.pools ==> |now.pools| + |was.loading| + 1 >= max)
            && (|now.pools| + |was.loading| < max || now.pools.Keys <= {id})
  {
    JustEnoughRoom(s.tables, s.callers[c].id, s.callers[c].stage.max, evicted);
    assert Apply(s, Reserve(c, evicted)).tables == NextTables(s, Reserve(c, evicted));
  }
}
