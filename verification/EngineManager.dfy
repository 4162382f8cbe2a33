/**
 The engine manager's tables and the lock regions that change them: loaded pools, per-model load
 locks, and the ids whose pool is being built. Eviction happens in `ReserveSlot`, before the build.
 */
module EngineManagers {
  import opened Prelude

  /** A Variant's flat key. */
  datatype ModelId = ModelId(key: string)

  /** A pool, told apart by the registration of the factory that built it. */
  datatype LoadedModel = LoadedModel(version: nat, lastUsed: int)

  /** Lock objects are numbered, so one that outlives its table entry can be told from its successor. */
  datatype Tables = Tables(pools: map<ModelId, LoadedModel>, loadLocks: map<ModelId, nat>, loading: set<ModelId>)

  /** `remove_model`, for several ids: a pool and its load lock go together. */
  function WithoutModels(t: Tables, ids: set<ModelId>): Tables {
    t.(pools := t.pools - ids, loadLocks := t.loadLocks - ids)
  }

  function Used(t: Tables, id: ModelId, now: int): Tables {
    if id in t.pools then t.(pools := t.pools[id := t.pools[id].(lastUsed := now)]) else t
  }

  function Unloaded(t: Tables, id: ModelId): Tables {
    if id in t.pools then WithoutModels(t, {id}) else t
  }

  /** Load slots in use, as the eviction loop counts them. */
  function Occupied(t: Tables): nat { |t.pools| + |t.loading| }

  /**
   Evicting `evicted` is what an incoming load of `id` may do under the limit `max`: least recently
   used models go first, the incoming one never, no more of them than needed, and enough of them
   unless nothing is left to evict.
   */
  ghost predicate Evicts(t: Tables, id: ModelId, max: nat, evicted: set<ModelId>) {
    && LeastUsedFirst(t, id, max, evicted)
    && (Occupied(t) - |evicted| < max || evicted == t.pools.Keys - {id})
  }

  ghost predicate LeastUsedFirst(t: Tables, id: ModelId, max: nat, evicted: set<ModelId>) {
    && evicted <= t.pools.Keys - {id}
    && (forall gone, kept :: gone in evicted && kept in t.pools && kept !in evicted && kept != id ==> t.pools[gone].lastUsed <= t.pools[kept].lastUsed)
    && (evicted != {} ==> Occupied(t) - |evicted| + 1 >= max)
  }

  lemma NothingEvicted(t: Tables, id: ModelId, max: nat)
    ensures LeastUsedFirst(t, id, max, {}) && WithoutModels(t, {}) == t
  {
    assert t.pools - {} == t.pools && t.loadLocks - {} == t.loadLocks;
  }

  /** `lru` is a least recently used model that a load of `id` may evict. */
  ghost predicate IsLru(t: Tables, id: ModelId, lru: ModelId) {
    && lru in t.pools && lru != id
    && forall kept :: kept in t.pools && kept != id ==> t.pools[lru].lastUsed <= t.pools[kept].lastUsed
  }

  lemma EvictOneMore(t: Tables, id: ModelId, max: nat, evicted: set<ModelId>, lru: ModelId)
    requires LeastUsedFirst(t, id, max, evicted) && Occupied(WithoutModels(t, evicted)) >= max
    requires IsLru(WithoutModels(t, evicted), id, lru)
    ensures LeastUsedFirst(t, id, max, evicted + {lru})
  {
    var left := WithoutModels(t, evicted);
    OccupiedAfter(t, evicted);
    assert |evicted + {lru}| == |evicted| + 1;
    forall kept | kept in t.pools && kept !in evicted && kept != id
      ensures t.pools[lru].lastUsed <= t.pools[kept].lastUsed
    {
      assert kept in left.pools;
    }
  }

  lemma MinusOneMore<V>(m: map<ModelId, V>, evicted: set<ModelId>, lru: ModelId)
    ensures m - evicted - {lru} == m - (evicted + {lru})
  {
  }

  lemma WithoutOneMore(t: Tables, evicted: set<ModelId>, lru: ModelId)
    requires evicted <= t.pools.Keys && lru in t.pools && lru !in evicted
    ensures WithoutModels(WithoutModels(t, evicted), {lru}) == WithoutModels(t, evicted + {lru})
    ensures |WithoutModels(t, evicted + {lru}).pools| == |WithoutModels(t, evicted).pools| - 1
  {
    OccupiedAfter(t, evicted);
    OccupiedAfter(t, evicted + {lru});
    assert |evicted + {lru}| == |evicted| + 1;
    MinusOneMore(t.pools, evicted, lru);
    MinusOneMore(t.loadLocks, evicted, lru);
  }

  lemma OccupiedAfter(t: Tables, evicted: set<ModelId>)
    requires evicted <= t.pools.Keys
    ensures Occupied(WithoutModels(t, evicted)) == Occupied(t) - |evicted|
  {
    assert (t.pools - evicted).Keys == t.pools.Keys - evicted;
    assert |t.pools.Keys - evicted| == |t.pools.Keys| - |evicted|;
    assert |(t.pools - evicted).Keys| == |t.pools - evicted| && |t.pools.Keys| == |t.pools|;
  }

  /** Two evictions the rule allows take equally many models: the number needed is forced, whichever way ties fall. */
  lemma EvictionCountIsForced(t: Tables, id: ModelId, max: nat, one: set<ModelId>, other: set<ModelId>)
    requires Evicts(t, id, max, one) && Evicts(t, id, max, other)
    ensures |one| == |other|
  {
    SubsetSize(one, t.pools.Keys - {id});
    SubsetSize(other, t.pools.Keys - {id});
  }

  class EngineManager {
    var pools: map<ModelId, LoadedModel>
    var loadLocks: map<ModelId, nat>
    var loading: set<ModelId>

    ghost function View(): Tables
      reads this
    {
      Tables(pools, loadLocks, loading)
    }

    constructor ()
      ensures View() == Tables(map[], map[], {})
    {
      pools, loadLocks, loading := map[], map[], {};
    }

    method RemoveModel(id: ModelId)
      modifies this
      ensures View() == WithoutModels(old(View()), {id})
    {
      pools := pools - {id};
      loadLocks := loadLocks - {id};
    }

    /** The least recently used model other than `incoming`, any one of them on a tie. */
    method LeastRecentlyUsed(incoming: ModelId) returns (lru: Option<ModelId>)
      ensures lru.None? <==> pools.Keys <= {incoming}
      ensures lru.Some? ==> IsLru(View(), incoming, lru.value)
    {
      lru := None;
      var rest := pools.Keys - {incoming};
      while rest != {}
        invariant rest <= pools.Keys - {incoming}
        invariant lru.None? ==> rest == pools.Keys - {incoming}
        invariant lru.Some? ==> lru.value in pools && lru.value != incoming
        invariant lru.Some? ==> forall id :: id in pools && id != incoming && id !in rest ==> pools[lru.value].lastUsed <= pools[id].lastUsed
        decreases |rest|
      {
        var id :| id in rest;
        if lru.None? || pools[id].lastUsed < pools[lru.value].lastUsed {
          lru := Some(id);
        }
        rest := rest - {id};
      }
    }

    /** One turn of the eviction loop, after `evicted` have gone from `before`. */
    method EvictOne(id: ModelId, max: nat, ghost before: Tables, ghost evicted: set<ModelId>) returns (found: bool, ghost gone: set<ModelId>)
      requires View() == WithoutModels(before, evicted) && LeastUsedFirst(before, id, max, evicted) && Occupied(View()) >= max
      modifies this
      ensures View() == WithoutModels(before, gone) && LeastUsedFirst(before, id, max, gone)
      ensures found ==> |pools| < |old(pools)|
      ensures !found ==> View() == old(View()) && gone == before.pools.Keys - {id}
    {
      var lru := LeastRecentlyUsed(id);
      if lru.None? {
        return false, evicted;
      }
      found, gone := true, evicted + {lru.value};
      EvictOneMore(before, id, max, evicted, lru.value);
      WithoutOneMore(before, evicted, lru.value);
      RemoveModel(lru.value);
    }

    method ReserveSlot(id: ModelId, max: nat) returns (ghost evicted: set<ModelId>)
      modifies this
      ensures Evicts(old(View()), id, max, evicted)
      ensures View() == WithoutModels(old(View()), evicted).(loading := old(loading) + {id})
    {
      evicted := {};
      ghost var before := View();
      NothingEvicted(before, id, max);
      var found := true;
      while found && |pools| + |loading| >= max
        invariant LeastUsedFirst(before, id, max, evicted)
        invariant View() == WithoutModels(before, evicted)
        invariant !found ==> evicted == before.pools.Keys - {id}
        decreases found, |pools|
      {
        found, evicted := EvictOne(id, max, before, evicted);
      }
      OccupiedAfter(before, evicted);
      loading := loading + {id};
    }

    method DropReservation(id: ModelId)
      modifies this`loading
      ensures View() == old(View()).(loading := old(loading) - {id})
    {
      loading := loading - {id};
    }

    /** The fast path of an acquire, and its second look after a load. */
    method UsePool(id: ModelId, now: int) returns (served: Option<nat>)
      modifies this`pools
      ensures View() == Used(old(View()), id, now)
      ensures id in old(pools) ==> pools == old(pools)[id := LoadedModel(old(pools[id].version), now)]
      ensures id !in old(pools) ==> pools == old(pools)
      ensures served == if id in old(pools) then Some(old(pools[id].version)) else None
    {
      if id !in pools {
        return None;
      }
      served := Some(pools[id].version);
      pools := pools[id := pools[id].(lastUsed := now)];
    }

    method UnloadRegion(id: ModelId) returns (present: bool)
      modifies this
      ensures View() == Unloaded(old(View()), id) && present == (id in old(pools))
    {
      present := id in pools;
      if present {
        RemoveModel(id);
      }
    }

    /** The watcher removes every id it listed, without looking again. */
    method EvictIdle(listed: seq<ModelId>)
      modifies this
      ensures View() == WithoutModels(old(View()), set id | id in listed)
    {
      for i := 0 to |listed|
        invariant View() == WithoutModels(old(View()), set id | id in listed[..i])
      {
        RemoveModel(listed[i]);
        assert listed[..i + 1] == listed[..i] + [listed[i]];
      }
    }
  }
}
