/** The scheduled spawner of Assets/Scripts/MapObject/ObjectSpawner.cs: each spawnable item has
    a frequency and a next spawn time, and `Update` spawns every item that is due while the number
    of live objects stays below `maxObjects`. Spawn positions, the random obstacle velocity and the
    scene gizmos are not modelled; the despawn listener's callback is the `OnObjectDespawned`
    method. */
module Spawning {
  import opened UnityMath

  /** The least frequency the inspector accepts (`[Min(0.01f)]`). */
  const MinFrequency: real := 0.01

  /** One spawnable item; `hasPrefab` says whether its prefab is assigned. */
  datatype SpawnableItem = SpawnableItem(hasPrefab: bool, spawnFrequency: real)

  predicate ValidItems(items: seq<SpawnableItem>)
  {
    forall i :: 0 <= i < |items| ==> items[i].spawnFrequency >= MinFrequency
  }

  /** The time between two spawns of an item. */
  function Interval(item: SpawnableItem): (r: real)
    requires item.spawnFrequency >= MinFrequency
    ensures r > 0.0
  {
    1.0 / item.spawnFrequency
  }

  /** The state after the `Update` loop has visited the first items: their next spawn times,
      the object count and the indices spawned so far, in order. */
  datatype PassResult = PassResult(times: seq<real>, count: int, spawned: seq<nat>)

  /** Whether the `Update` loop spawns an item, given the count when it reaches it. */
  predicate Due(item: SpawnableItem, nextTime: real, count: int, maxObjects: int, now: real)
  {
    item.hasPrefab && count < maxObjects && now >= nextTime
  }

  /** The `Update` loop over the first `n` items. */
  function Pass(items: seq<SpawnableItem>, times: seq<real>, count: int, maxObjects: int, now: real, n: nat): (r: PassResult)
    requires ValidItems(items) && |times| == |items| && n <= |items|
    ensures |r.times| == n
    decreases n
  {
    if n == 0 then PassResult([], count, [])
    else
      var p := Pass(items, times, count, maxObjects, now, n - 1);
      if Due(items[n - 1], times[n - 1], p.count, maxObjects, now) then
        PassResult(p.times + [now + Interval(items[n - 1])], p.count + 1, p.spawned + [n - 1])
      else
        PassResult(p.times + [times[n - 1]], p.count, p.spawned)
  }

  class ObjectSpawner {
    const maxObjects: int
    const spawnableItems: seq<SpawnableItem>
    var autoSpawn: bool
    var enabled: bool
    var nextSpawnTimes: array<real>
    var currentObjectCount: int

    predicate Valid()
      reads this
    {
      ValidItems(spawnableItems) && nextSpawnTimes.Length == |spawnableItems|
    }

    /** `InitializeSpawnTimes`: every item's first spawn is one interval from now. */
    method InitializeSpawnTimes(now: real)
      requires ValidItems(spawnableItems)
      modifies this`nextSpawnTimes
      ensures fresh(nextSpawnTimes) && Valid()
      ensures forall i :: 0 <= i < nextSpawnTimes.Length ==> nextSpawnTimes[i] == now + Interval(spawnableItems[i])
    {
      var times := new real[|spawnableItems|];
      var i := 0;
      while i < |spawnableItems|
        invariant 0 <= i <= |spawnableItems|
        invariant forall j :: 0 <= j < i ==> times[j] == now + Interval(spawnableItems[j])
      {
        times[i] := now + Interval(spawnableItems[i]);
        i := i + 1;
      }
      nextSpawnTimes := times;
    }

    /** The field initialisers plus `Start`. A null item array becomes empty; the source then
        leaves `nextSpawnTimes` unassigned, which with no items is never read, so the model gives
        it length 0. */
    constructor (maxCount: int, auto: bool, items: Option<seq<SpawnableItem>>, now: real)
      requires items.Some? ==> ValidItems(items.value)
      ensures maxObjects == maxCount && spawnableItems == (if items.Some? then items.value else [])
      ensures Valid() && currentObjectCount == 0 && autoSpawn == auto && enabled == auto
      ensures forall i :: 0 <= i < nextSpawnTimes.Length ==> nextSpawnTimes[i] == now + Interval(spawnableItems[i])
    {
      maxObjects := maxCount;
      spawnableItems := if items.Some? then items.value else [];
      autoSpawn := auto;
      currentObjectCount := 0;
      nextSpawnTimes := new real[0];
      new;
      InitializeSpawnTimes(now);
      enabled := auto;
    }

    /** `Update`: returns the indices of the items spawned, in order. */
    method Update(now: real) returns (spawned: seq<nat>)
      requires Valid()
      modifies this`currentObjectCount, nextSpawnTimes
      ensures nextSpawnTimes[..] ==
        Pass(spawnableItems, old(nextSpawnTimes[..]), old(currentObjectCount), maxObjects, now, |spawnableItems|).times
      ensures currentObjectCount ==
        Pass(spawnableItems, old(nextSpawnTimes[..]), old(currentObjectCount), maxObjects, now, |spawnableItems|).count
      ensures spawned ==
        Pass(spawnableItems, old(nextSpawnTimes[..]), old(currentObjectCount), maxObjects, now, |spawnableItems|).spawned
    {
      ghost var times0 := nextSpawnTimes[..];
      ghost var count0 := currentObjectCount;
      spawned := [];
      if currentObjectCount >= maxObjects {
        AtCapIsIdle(spawnableItems, times0, count0, maxObjects, now, |spawnableItems|);
        assert nextSpawnTimes[..] == times0[..|spawnableItems|];
        return;
      }
      var i := 0;
      ghost var acc := PassResult([], count0, []);
      while i < |spawnableItems|
        invariant 0 <= i <= |spawnableItems|
        invariant acc == Pass(spawnableItems, times0, count0, maxObjects, now, i)
        invariant forall j :: 0 <= j < i ==> nextSpawnTimes[j] == acc.times[j]
        invariant forall j :: i <= j < nextSpawnTimes.Length ==> nextSpawnTimes[j] == times0[j]
        invariant currentObjectCount == acc.count && spawned == acc.spawned
      {
        PassNext(spawnableItems, times0, count0, maxObjects, now, i);
        var item := spawnableItems[i];
        if !item.hasPrefab || currentObjectCount >= maxObjects {
          acc := PassResult(acc.times + [times0[i]], acc.count, acc.spawned);
          i := i + 1;
          continue;
        }
        var spawnInterval := Interval(item);
        if now >= nextSpawnTimes[i] {
          RegisterSpawnedObject();
          spawned := spawned + [i];
          nextSpawnTimes[i] := now + spawnInterval;
          acc := PassResult(acc.times + [now + spawnInterval], acc.count + 1, acc.spawned + [i]);
        } else {
          acc := PassResult(acc.times + [times0[i]], acc.count, acc.spawned);
        }
        i := i + 1;
      }
      assert nextSpawnTimes[..] == acc.times;
    }

    /** `RegisterSpawnedObject`. */
    method RegisterSpawnedObject()
      modifies this`currentObjectCount
      ensures currentObjectCount == old(currentObjectCount) + 1
    {
      currentObjectCount := currentObjectCount + 1;
    }

    /** `OnObjectDespawned`, called by a spawned object's listener when it is destroyed. */
    method OnObjectDespawned()
      modifies this`currentObjectCount
      ensures currentObjectCount == old(currentObjectCount) - 1
    {
      currentObjectCount := currentObjectCount - 1;
    }

    /** `StartAutoSpawn`: spawning resumes with every schedule restarted from now. */
    method StartAutoSpawn(now: real)
      requires Valid()
      modifies this`autoSpawn, this`enabled, this`nextSpawnTimes
      ensures autoSpawn && enabled && Valid() && fresh(nextSpawnTimes)
      ensures forall i :: 0 <= i < nextSpawnTimes.Length ==> nextSpawnTimes[i] == now + Interval(spawnableItems[i])
    {
      autoSpawn := true;
      enabled := true;
      InitializeSpawnTimes(now);
    }

    /** `StopAutoSpawn`: the component is disabled, so Unity stops calling `Update`. */
    method StopAutoSpawn()
      modifies this`autoSpawn, this`enabled
      ensures !autoSpawn && !enabled
    {
      autoSpawn := false;
      enabled := false;
    }
  }

  // ---------------------------------------------------------------- properties

  /** At or above the cap the loop spawns nothing and changes no schedule, so `Update`'s early
      return is the same as running the loop. */
  lemma {:induction false} AtCapIsIdle(items: seq<SpawnableItem>, times: seq<real>, count: int, maxObjects: int,
                                       now: real, n: nat)
    requires ValidItems(items) && |times| == |items| && n <= |items|
    requires count >= maxObjects
    ensures Pass(items, times, count, maxObjects, now, n) == PassResult(times[..n], count, [])
    decreases n
  {
    if n > 0 {
      AtCapIsIdle(items, times, count, maxObjects, now, n - 1);
      assert times[..n - 1] + [times[n - 1]] == times[..n];
    }
  }

  /** The count grows by exactly the number of spawns and, starting at or below the cap, never
      exceeds it. */
  lemma {:induction false} PassRespectsCap(items: seq<SpawnableItem>, times: seq<real>, count: int, maxObjects: int,
                                           now: real, n: nat)
    requires ValidItems(items) && |times| == |items| && n <= |items|
    ensures var r := Pass(items, times, count, maxObjects, now, n);
      r.count == count + |r.spawned| && (count <= maxObjects ==> r.count <= maxObjects)
    decreases n
  {
    if n > 0 {
      PassRespectsCap(items, times, count, maxObjects, now, n - 1);
    }
  }

  /** One more item visited by the `Update` loop. */
  lemma PassNext(items: seq<SpawnableItem>, times: seq<real>, count: int, maxObjects: int, now: real, n: nat)
    requires ValidItems(items) && |times| == |items| && n < |items|
    ensures var p := Pass(items, times, count, maxObjects, now, n);
      Pass(items, times, count, maxObjects, now, n + 1) ==
        if Due(items[n], times[n], p.count, maxObjects, now)
        then PassResult(p.times + [now + Interval(items[n])], p.count + 1, p.spawned + [n])
        else PassResult(p.times + [times[n]], p.count, p.spawned)
  {
  }

  /** Indices below `n`, strictly increasing. */
  predicate IncreasingBelow(s: seq<nat>, n: nat)
  {
    (forall k :: 0 <= k < |s| ==> s[k] < n) &&
    (forall k, l :: 0 <= k < l < |s| ==> s[k] < s[l])
  }

  /** Spawn indices lie among the items visited and come in increasing order. */
  lemma {:induction false} PassSpawnsInOrder(items: seq<SpawnableItem>, times: seq<real>, count: int, maxObjects: int,
                                             now: real, n: nat)
    requires ValidItems(items) && |times| == |items| && n <= |items|
    ensures IncreasingBelow(Pass(items, times, count, maxObjects, now, n).spawned, n)
    decreases n
  {
    if n > 0 {
      var p := Pass(items, times, count, maxObjects, now, n - 1);
      PassSpawnsInOrder(items, times, count, maxObjects, now, n - 1);
      if Due(items[n - 1], times[n - 1], p.count, maxObjects, now) {
        var s := p.spawned + [n - 1];
        forall k, l | 0 <= k < l < |s|
          ensures s[k] < s[l]
        {
          if l == |p.spawned| {
            assert s[k] == p.spawned[k];
          }
        }
      }
    }
  }

  /** An item is spawned only when it has a prefab and is due, and then its next spawn is one
      interval from now; every item not spawned keeps its schedule. */
  lemma {:induction false} PassSchedules(items: seq<SpawnableItem>, times: seq<real>, count: int, maxObjects: int,
                                         now: real, n: nat)
    requires ValidItems(items) && |times| == |items| && n <= |items|
    ensures var r := Pass(items, times, count, maxObjects, now, n);
      (forall i :: 0 <= i < n && i in r.spawned ==>
        items[i].hasPrefab && now >= times[i] && r.times[i] == now + Interval(items[i])) &&
      (forall i :: 0 <= i < n && i !in r.spawned ==> r.times[i] == times[i])
    decreases n
  {
    if n > 0 {
      var p := Pass(items, times, count, maxObjects, now, n - 1);
      var r := Pass(items, times, count, maxObjects, now, n);
      PassSchedules(items, times, count, maxObjects, now, n - 1);
      PassSpawnsInOrder(items, times, count, maxObjects, now, n - 1);
      PassNext(items, times, count, maxObjects, now, n - 1);
      assert n - 1 !in p.spawned;
      forall i | 0 <= i < n - 1
        ensures r.times[i] == p.times[i] && (i in r.spawned <==> i in p.spawned)
      {
      }
    }
  }

  /** An item that has a prefab and is due is skipped only because the cap was reached. */
  lemma {:induction false} DueItemsSpawnUnlessCapped(items: seq<SpawnableItem>, times: seq<real>, count: int,
                                                     maxObjects: int, now: real, n: nat, i: nat)
    requires ValidItems(items) && |times| == |items| && i < n <= |items|
    requires items[i].hasPrefab && now >= times[i]
    ensures var r := Pass(items, times, count, maxObjects, now, n);
      i in r.spawned || r.count >= maxObjects
    decreases n
  {
    var p := Pass(items, times, count, maxObjects, now, n - 1);
    PassRespectsCap(items, times, count, maxObjects, now, n - 1);
    PassRespectsCap(items, times, count, maxObjects, now, n);
    if i < n - 1 {
      DueItemsSpawnUnlessCapped(items, times, count, maxObjects, now, n - 1, i);
    }
  }
}
