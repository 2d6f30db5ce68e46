/** The timed collectible spawner of Assets/Scripts/CollectibleSpawnManager.cs: each spawn
    configuration spawns its collectible once, at its spawn time, at the position from which the
    collectible's own velocity carries it to the configured target exactly at the arrival time.
    Instantiation, the collectible's initial rotation and the gizmos are not modelled. */
module CollectibleSpawning {
  import opened UnityMath

  datatype Vec2 = Vec2(x: real, y: real)

  function Add(a: Vec2, b: Vec2): Vec2
  {
    Vec2(a.x + b.x, a.y + b.y)
  }

  function Scale(v: Vec2, k: real): Vec2
  {
    Vec2(v.x * k, v.y * k)
  }

  /** The fixed part of one `SpawnData` entry, together with what its prefab carries: whether the
      prefab is assigned, whether it has a `CollectibleObject` component, and that component's
      `initialDirection` and `initialSpeed`. */
  datatype SpawnConfig = SpawnConfig(
    hasPrefab: bool,
    prefabHasCollectible: bool,
    spawnTime: real,
    targetArrivalTime: real,
    target: Vec2,
    initialDirection: Vec2,
    initialSpeed: real)

  /** `IsConfigValid`. */
  predicate IsConfigValid(c: SpawnConfig)
  {
    c.hasPrefab && c.targetArrivalTime > c.spawnTime && c.prefabHasCollectible
  }

  /** The collectible's velocity. */
  function Velocity(c: SpawnConfig): Vec2
  {
    Scale(c.initialDirection, c.initialSpeed)
  }

  /** The position `SpawnCollectible` computes, worked back from the target: the target minus
      the velocity times the move duration. None when the prefab has no collectible or the move
      duration is not positive, where `SpawnCollectible` gives up. */
  function SpawnPosition(c: SpawnConfig): Option<Vec2>
  {
    var moveDuration := c.targetArrivalTime - c.spawnTime;
    if !c.prefabHasCollectible || moveDuration <= 0.0 then None
    else Some(Add(c.target, Scale(Velocity(c), -moveDuration)))
  }

  /** Whether `CheckAndSpawnCollectibles` spawns a not-yet-spawned configuration at this time. */
  predicate Due(c: SpawnConfig, now: real)
  {
    IsConfigValid(c) && now >= c.spawnTime
  }

  /** One `SpawnData` entry: its configuration is fixed, `hasSpawned` is set once it spawns. */
  class SpawnData {
    const config: SpawnConfig
    var hasSpawned: bool

    constructor (c: SpawnConfig)
      ensures config == c && !hasSpawned
    {
      config := c;
      hasSpawned := false;
    }
  }

  /** A collectible put into the scene this frame, and where. */
  datatype SpawnEvent = SpawnEvent(data: SpawnData, position: Vec2)

  class CollectibleSpawnManager {
    const spawnConfigs: seq<SpawnData>
    var currentGameTime: real

    constructor (configs: seq<SpawnData>)
      ensures spawnConfigs == configs && currentGameTime == 0.0
    {
      spawnConfigs := configs;
      currentGameTime := 0.0;
    }

    /** `Update`: the game time is taken from `Time.timeSinceLevelLoad`, then every due
        configuration that has not spawned yet spawns and is marked. The same entry may appear
        more than once in the list; it still spawns only once. */
    method Update(timeSinceLevelLoad: real) returns (events: seq<SpawnEvent>)
      modifies this`currentGameTime, spawnConfigs
      ensures currentGameTime == timeSinceLevelLoad
      ensures forall d :: d in spawnConfigs ==>
        d.hasSpawned == (old(d.hasSpawned) || Due(d.config, timeSinceLevelLoad))
      ensures forall k :: 0 <= k < |events| ==>
        events[k].data in spawnConfigs && !old(events[k].data.hasSpawned) &&
        Due(events[k].data.config, timeSinceLevelLoad) && SpawnPosition(events[k].data.config) == Some(events[k].position)
      ensures forall k, l :: 0 <= k < l < |events| ==> events[k].data != events[l].data
      ensures forall d :: d in spawnConfigs && !old(d.hasSpawned) && Due(d.config, timeSinceLevelLoad) ==>
        exists k :: 0 <= k < |events| && events[k].data == d
    {
      currentGameTime := timeSinceLevelLoad;
      events := CheckAndSpawnCollectibles();
    }

    /** `CheckAndSpawnCollectibles`. */
    method CheckAndSpawnCollectibles() returns (events: seq<SpawnEvent>)
      modifies spawnConfigs
      ensures forall d :: d in spawnConfigs ==>
        d.hasSpawned == (old(d.hasSpawned) || Due(d.config, currentGameTime))
      ensures forall k :: 0 <= k < |events| ==>
        events[k].data in spawnConfigs && !old(events[k].data.hasSpawned) &&
        Due(events[k].data.config, currentGameTime) && SpawnPosition(events[k].data.config) == Some(events[k].position)
      ensures forall k, l :: 0 <= k < l < |events| ==> events[k].data != events[l].data
      ensures forall d :: d in spawnConfigs && !old(d.hasSpawned) && Due(d.config, currentGameTime) ==>
        exists k :: 0 <= k < |events| && events[k].data == d
    {
      events := [];
      var i := 0;
      while i < |spawnConfigs|
        invariant 0 <= i <= |spawnConfigs|
        invariant forall d :: d in spawnConfigs ==>
          d.hasSpawned == (old(d.hasSpawned) || (d in spawnConfigs[..i] && Due(d.config, currentGameTime)))
        invariant forall k :: 0 <= k < |events| ==>
          events[k].data in spawnConfigs[..i] && !old(events[k].data.hasSpawned) &&
          Due(events[k].data.config, currentGameTime) && SpawnPosition(events[k].data.config) == Some(events[k].position)
        invariant forall k, l :: 0 <= k < l < |events| ==> events[k].data != events[l].data
        invariant forall d :: d in spawnConfigs[..i] && !old(d.hasSpawned) && Due(d.config, currentGameTime) ==>
          exists k :: 0 <= k < |events| && events[k].data == d
      {
        var data := spawnConfigs[i];
        assert spawnConfigs[..i + 1] == spawnConfigs[..i] + [data];
        if data.hasSpawned || !IsConfigValid(data.config) {
          i := i + 1;
          continue;
        }
        if currentGameTime >= data.config.spawnTime {
          var position := SpawnCollectible(data.config);
          ghost var before := events;
          events := events + [SpawnEvent(data, position.value)];
          assert forall k :: 0 <= k < |before| ==> events[k] == before[k];
          assert events[|before|].data == data;
          data.hasSpawned := true;
        }
        i := i + 1;
      }
      assert spawnConfigs[..i] == spawnConfigs;
    }

    /** `SpawnCollectible`: returns where the collectible is put, or None where it gives up. */
    method SpawnCollectible(c: SpawnConfig) returns (position: Option<Vec2>)
      ensures position == SpawnPosition(c)
      ensures IsConfigValid(c) ==> position.Some?
    {
      if !c.prefabHasCollectible {
        return None;
      }
      var moveDuration := c.targetArrivalTime - c.spawnTime;
      if moveDuration <= 0.0 {
        return None;
      }
      var movementVelocity := Velocity(c);
      position := Some(Add(c.target, Scale(movementVelocity, -moveDuration)));
    }
  }

  // ---------------------------------------------------------------- properties

  /** A collectible spawned at the computed position and moving at its velocity for the move
      duration reaches the target exactly. */
  lemma SpawnPositionReachesTarget(c: SpawnConfig)
    requires IsConfigValid(c)
    ensures SpawnPosition(c).Some?
    ensures Add(SpawnPosition(c).value, Scale(Velocity(c), c.targetArrivalTime - c.spawnTime)) == c.target
  {
    var d := c.targetArrivalTime - c.spawnTime;
    var v := Velocity(c);
    assert v.x * -d + v.x * d == 0.0;
    assert v.y * -d + v.y * d == 0.0;
  }

  /** A non-positive move duration produces no spawn. */
  lemma NoSpawnWithoutTravelTime(c: SpawnConfig)
    requires c.targetArrivalTime - c.spawnTime <= 0.0
    ensures SpawnPosition(c).None? && !IsConfigValid(c)
  {
  }
}
