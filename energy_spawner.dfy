/** The energy top-up spawner of Assets/Scripts/Energy/EnergySpawner.cs: it keeps up to
    `targetCount` energy blocks in play, each placed outside a safe circle around the spawner and
    at least `minDistance` from every live block. `Random.Range` becomes input: each call of
    `GetRandomPosition` is given the offsets it draws, in order. `Vector2.Distance(a, b) < r` is
    compared on squares, which for non-negative distances is the same test. The block's random
    energy amount and name are not modelled. */
module EnergySpawning {
  import opened UnityMath

  datatype Vec2 = Vec2(x: real, y: real)

  function Plus(a: Vec2, b: Vec2): Vec2
  {
    Vec2(a.x + b.x, a.y + b.y)
  }

  function DistSq(a: Vec2, b: Vec2): (d: real)
    ensures d >= 0.0
  {
    Sq(a.x - b.x) + Sq(a.y - b.y)
  }

  /** `Vector2.Distance(a, b) < r`. */
  predicate Closer(a: Vec2, b: Vec2, r: real)
  {
    r > 0.0 && DistSq(a, b) < Sq(r)
  }

  datatype SpawnerConfig = SpawnerConfig(center: Vec2, targetCount: int, minDistance: real, centerSafeRadius: real)

  /** A drawn offset puts the position outside the safe circle. */
  predicate OutsideSafe(cfg: SpawnerConfig, p: Vec2)
  {
    !Closer(p, cfg.center, cfg.centerSafeRadius)
  }

  /** The draws given to one `GetRandomPosition` call contain an acceptable one (otherwise its
      do-while loop would not end). */
  predicate Cooperates(cfg: SpawnerConfig, draws: seq<Vec2>)
  {
    exists k :: 0 <= k < |draws| && OutsideSafe(cfg, Plus(cfg.center, draws[k]))
  }

  /** How many draws `GetRandomPosition` rejects before it accepts one. */
  function Rejected(cfg: SpawnerConfig, draws: seq<Vec2>): (k: nat)
    requires Cooperates(cfg, draws)
    ensures k < |draws| && OutsideSafe(cfg, Plus(cfg.center, draws[k]))
    ensures forall j :: 0 <= j < k ==> !OutsideSafe(cfg, Plus(cfg.center, draws[j]))
    decreases |draws|
  {
    if OutsideSafe(cfg, Plus(cfg.center, draws[0])) then 0
    else
      assert Cooperates(cfg, draws[1..]) by {
        var k :| 0 <= k < |draws| && OutsideSafe(cfg, Plus(cfg.center, draws[k]));
        assert draws[1..][k - 1] == draws[k];
      }
      1 + Rejected(cfg, draws[1..])
  }

  /** The position `GetRandomPosition` returns. */
  function RandomPosition(cfg: SpawnerConfig, draws: seq<Vec2>): Vec2
    requires Cooperates(cfg, draws)
  {
    Plus(cfg.center, draws[Rejected(cfg, draws)])
  }

  /** One energy block; `destroyed` stands for the reference having become null. */
  class EnergyObject {
    const position: Vec2
    var destroyed: bool

    constructor (p: Vec2)
      ensures position == p && !destroyed
    {
      position := p;
      destroyed := false;
    }
  }

  /** `IsPositionValid` against a list of blocks. */
  predicate ValidAgainst(cfg: SpawnerConfig, p: Vec2, es: seq<EnergyObject>)
    reads es
  {
    OutsideSafe(cfg, p) &&
    forall i :: 0 <= i < |es| && !es[i].destroyed ==> !Closer(p, es[i].position, cfg.minDistance)
  }

  /** Input for one `TrySpawnEnergy`: the draws for each of its (at most eleven) calls of
      `GetRandomPosition`. */
  predicate AttemptInput(cfg: SpawnerConfig, attempt: seq<seq<Vec2>>)
  {
    |attempt| >= 11 && forall j :: 0 <= j < 11 ==> Cooperates(cfg, attempt[j])
  }

  /** The first of the candidate positions from the `k`-th on that is valid, if any. */
  function FirstValidFrom(cfg: SpawnerConfig, attempt: seq<seq<Vec2>>, es: seq<EnergyObject>, k: nat): Option<Vec2>
    requires AttemptInput(cfg, attempt) && k <= 11
    reads es
    decreases 11 - k
  {
    if k == 11 then None
    else
      var p := RandomPosition(cfg, attempt[k]);
      if ValidAgainst(cfg, p, es) then Some(p) else FirstValidFrom(cfg, attempt, es, k + 1)
  }

  /** The blocks still alive, in order (`RemoveAll(energy => energy == null)`). */
  function Prune(es: seq<EnergyObject>): (r: seq<EnergyObject>)
    reads es
    ensures |r| <= |es|
    ensures forall e :: e in r ==> e in es && !e.destroyed
    ensures forall e :: e in es && !e.destroyed ==> e in r
    decreases |es|
  {
    if |es| == 0 then []
    else if es[|es| - 1].destroyed then Prune(es[..|es| - 1])
    else Prune(es[..|es| - 1]) + [es[|es| - 1]]
  }

  /** What the spawner maintains: live blocks lie outside the safe circle and keep
      `minDistance` from each other. */
  predicate Spaced(cfg: SpawnerConfig, es: seq<EnergyObject>)
    reads es
  {
    (forall i :: 0 <= i < |es| && !es[i].destroyed ==> OutsideSafe(cfg, es[i].position)) &&
    (forall i, j :: 0 <= i < |es| && 0 <= j < |es| && i != j && !es[i].destroyed && !es[j].destroyed ==>
      !Closer(es[i].position, es[j].position, cfg.minDistance))
  }

  class EnergySpawner {
    const cfg: SpawnerConfig
    var activeEnergies: seq<EnergyObject>

    /** Field initialisers plus `Start`, which calls `SpawnInitialEnergies`. */
    constructor (config: SpawnerConfig, attempts: seq<seq<seq<Vec2>>>)
      requires forall a :: 0 <= a < |attempts| ==> AttemptInput(config, attempts[a])
      requires |attempts| >= config.targetCount
      ensures cfg == config && |activeEnergies| <= MaxInt(config.targetCount, 0)
      ensures Spaced(cfg, activeEnergies)
      ensures forall e :: e in activeEnergies ==> !e.destroyed
    {
      cfg := config;
      activeEnergies := [];
      new;
      var made := SpawnInitialEnergies(attempts);
    }

    /** `GetRandomPosition`: draw offsets until one lands outside the safe circle. */
    method GetRandomPosition(draws: seq<Vec2>) returns (pos: Vec2)
      requires Cooperates(cfg, draws)
      ensures pos == RandomPosition(cfg, draws)
      ensures OutsideSafe(cfg, pos)
    {
      var i := 0;
      pos := Plus(cfg.center, draws[0]);
      while Closer(pos, cfg.center, cfg.centerSafeRadius)
        invariant 0 <= i <= Rejected(cfg, draws)
        invariant pos == Plus(cfg.center, draws[i])
        decreases Rejected(cfg, draws) - i
      {
        i := i + 1;
        pos := Plus(cfg.center, draws[i]);
      }
    }

    /** `IsPositionValid`. */
    method IsPositionValid(p: Vec2) returns (r: bool)
      ensures r <==> ValidAgainst(cfg, p, activeEnergies)
    {
      if Closer(p, cfg.center, cfg.centerSafeRadius) {
        return false;
      }
      var i := 0;
      while i < |activeEnergies|
        invariant 0 <= i <= |activeEnergies|
        invariant forall j :: 0 <= j < i && !activeEnergies[j].destroyed ==>
          !Closer(p, activeEnergies[j].position, cfg.minDistance)
      {
        var energy := activeEnergies[i];
        if !energy.destroyed && Closer(p, energy.position, cfg.minDistance) {
          return false;
        }
        i := i + 1;
      }
      return true;
    }

    /** `TrySpawnEnergy`: up to eleven candidate positions; the first valid one gets a block. */
    method TrySpawnEnergy(attempt: seq<seq<Vec2>>) returns (spawned: Option<Vec2>)
      requires AttemptInput(cfg, attempt)
      modifies this`activeEnergies
      ensures spawned == FirstValidFrom(cfg, attempt, old(activeEnergies), 0)
      ensures spawned.None? ==> activeEnergies == old(activeEnergies)
      ensures spawned.Some? ==>
        |activeEnergies| == |old(activeEnergies)| + 1 && activeEnergies[..|old(activeEnergies)|] == old(activeEnergies) &&
        fresh(activeEnergies[|old(activeEnergies)|]) && activeEnergies[|old(activeEnergies)|].position == spawned.value &&
        !activeEnergies[|old(activeEnergies)|].destroyed
    {
      var randomPos := GetRandomPosition(attempt[0]);
      var retryCount := 0;
      var ok := IsPositionValid(randomPos);
      while !ok && retryCount < 10
        invariant 0 <= retryCount <= 10
        invariant activeEnergies == old(activeEnergies)
        invariant randomPos == RandomPosition(cfg, attempt[retryCount])
        invariant ok <==> ValidAgainst(cfg, randomPos, activeEnergies)
        invariant FirstValidFrom(cfg, attempt, activeEnergies, 0) == FirstValidFrom(cfg, attempt, activeEnergies, retryCount)
      {
        randomPos := GetRandomPosition(attempt[retryCount + 1]);
        retryCount := retryCount + 1;
        ok := IsPositionValid(randomPos);
      }
      if ok {
        var energy := new EnergyObject(randomPos);
        activeEnergies := activeEnergies + [energy];
        return Some(randomPos);
      }
      return None;
    }

    /** `SpawnInitialEnergies`: exactly `targetCount` attempts (none when it is negative). */
    method SpawnInitialEnergies(attempts: seq<seq<seq<Vec2>>>) returns (made: nat)
      requires forall a :: 0 <= a < |attempts| ==> AttemptInput(cfg, attempts[a])
      requires |attempts| >= cfg.targetCount
      requires activeEnergies == []
      modifies this`activeEnergies
      ensures made == MaxInt(cfg.targetCount, 0)
      ensures |activeEnergies| <= made && Spaced(cfg, activeEnergies)
      ensures forall e :: e in activeEnergies ==> !e.destroyed
    {
      made := 0;
      while made < cfg.targetCount
        invariant made <= MaxInt(cfg.targetCount, 0)
        invariant |activeEnergies| <= made && Spaced(cfg, activeEnergies)
        invariant forall e :: e in activeEnergies ==> !e.destroyed
      {
        Attempt(attempts[made]);
        made := made + 1;
      }
    }

    /** One `TrySpawnEnergy`, with the spacing it keeps. */
    method Attempt(attempt: seq<seq<Vec2>>)
      requires AttemptInput(cfg, attempt)
      requires Spaced(cfg, activeEnergies) && forall e :: e in activeEnergies ==> !e.destroyed
      modifies this`activeEnergies
      ensures Spaced(cfg, activeEnergies) && forall e :: e in activeEnergies ==> !e.destroyed
      ensures |old(activeEnergies)| <= |activeEnergies| <= |old(activeEnergies)| + 1
      ensures activeEnergies[..|old(activeEnergies)|] == old(activeEnergies)
    {
      ghost var before := activeEnergies;
      var spawned := TrySpawnEnergy(attempt);
      if spawned.Some? {
        FirstValidIsValid(cfg, attempt, before, 0);
        SpacedAppend(cfg, before, activeEnergies[|before|]);
        assert activeEnergies == before + [activeEnergies[|before|]];
      }
    }

    /** `Update`: forget destroyed blocks, then make one attempt per missing block. */
    method Update(attempts: seq<seq<seq<Vec2>>>) returns (made: nat)
      requires forall a :: 0 <= a < |attempts| ==> AttemptInput(cfg, attempts[a])
      requires |attempts| >= cfg.targetCount
      requires Spaced(cfg, activeEnergies)
      modifies this`activeEnergies
      ensures var pruned := Prune(old(activeEnergies));
        |pruned| <= |activeEnergies| &&
        made == (if |pruned| < cfg.targetCount then cfg.targetCount - |pruned| else 0) &&
        activeEnergies[..|pruned|] == pruned && |activeEnergies| <= |pruned| + made
      ensures Spaced(cfg, activeEnergies) && forall e :: e in activeEnergies ==> !e.destroyed
    {
      PruneKeepsSpacing(cfg, activeEnergies);
      activeEnergies := Prune(activeEnergies);
      ghost var pruned := activeEnergies;
      made := 0;
      if |activeEnergies| < cfg.targetCount {
        var needToSpawn := cfg.targetCount - |activeEnergies|;
        while made < needToSpawn
          invariant made <= needToSpawn
          invariant |pruned| <= |activeEnergies| <= |pruned| + made && activeEnergies[..|pruned|] == pruned
          invariant Spaced(cfg, activeEnergies) && forall e :: e in activeEnergies ==> !e.destroyed
        {
          Attempt(attempts[made]);
          made := made + 1;
        }
      }
    }
  }

  // ---------------------------------------------------------------- properties

  /** `Vector2.Distance` is symmetric. */
  lemma CloserSymmetric(a: Vec2, b: Vec2, r: real)
    ensures Closer(a, b, r) <==> Closer(b, a, r)
  {
    assert Sq(a.x - b.x) == Sq(b.x - a.x);
    assert Sq(a.y - b.y) == Sq(b.y - a.y);
  }

  /** The position a spawn attempt picks is valid: outside the safe circle and far enough from
      every live block. */
  lemma {:induction false} FirstValidIsValid(cfg: SpawnerConfig, attempt: seq<seq<Vec2>>, es: seq<EnergyObject>, k: nat)
    requires AttemptInput(cfg, attempt) && k <= 11
    ensures var r := FirstValidFrom(cfg, attempt, es, k);
      r.Some? ==> ValidAgainst(cfg, r.value, es)
    decreases 11 - k
  {
    if k < 11 && !ValidAgainst(cfg, RandomPosition(cfg, attempt[k]), es) {
      FirstValidIsValid(cfg, attempt, es, k + 1);
    }
  }

  /** An attempt spawns nothing only when all eleven candidates are invalid. */
  lemma {:induction false} NoneMeansAllInvalid(cfg: SpawnerConfig, attempt: seq<seq<Vec2>>, es: seq<EnergyObject>, k: nat)
    requires AttemptInput(cfg, attempt) && k <= 11
    requires FirstValidFrom(cfg, attempt, es, k).None?
    ensures forall j :: k <= j < 11 ==> !ValidAgainst(cfg, RandomPosition(cfg, attempt[j]), es)
    decreases 11 - k
  {
    if k < 11 {
      NoneMeansAllInvalid(cfg, attempt, es, k + 1);
    }
  }

  /** Adding a block valid against the live ones keeps the spacing. */
  lemma SpacedAppend(cfg: SpawnerConfig, es: seq<EnergyObject>, e: EnergyObject)
    requires Spaced(cfg, es) && ValidAgainst(cfg, e.position, es) && !e.destroyed
    ensures Spaced(cfg, es + [e])
  {
    var es' := es + [e];
    forall i, j | 0 <= i < |es'| && 0 <= j < |es'| && i != j && !es'[i].destroyed && !es'[j].destroyed
      ensures !Closer(es'[i].position, es'[j].position, cfg.minDistance)
    {
      if i == |es| {
        assert !Closer(e.position, es[j].position, cfg.minDistance);
      } else if j == |es| {
        CloserSymmetric(e.position, es[i].position, cfg.minDistance);
      }
    }
  }

  /** Dropping destroyed blocks keeps the spacing. */
  lemma {:induction false} PruneKeepsSpacing(cfg: SpawnerConfig, es: seq<EnergyObject>)
    requires Spaced(cfg, es)
    ensures Spaced(cfg, Prune(es))
    decreases |es|
  {
    if |es| > 0 {
      var init := es[..|es| - 1];
      var last := es[|es| - 1];
      assert Spaced(cfg, init) by {
        assert forall i :: 0 <= i < |init| ==> init[i] == es[i];
      }
      PruneKeepsSpacing(cfg, init);
      if !last.destroyed {
        var ri := Prune(init);
        forall k | 0 <= k < |ri|
          ensures !Closer(last.position, ri[k].position, cfg.minDistance)
        {
          assert ri[k] in ri;
          var a :| 0 <= a < |init| && init[a] == ri[k];
          assert es[a] == ri[k];
        }
        SpacedAppend(cfg, ri, last);
      }
    }
  }
}
