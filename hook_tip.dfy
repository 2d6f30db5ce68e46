/** The hook tip's collision handler (Assets/Scripts/Hook/HookTipCollisionHandler.cs): it
    arbitrates between the tip, collectibles and obstacles, and hands every carried collectible
    in when the hook is back. */
module HookTip {
  import opened UnityMath
  import opened Hook
  import opened Collectible
  import opened MovingObstacles

  /** What the physics engine reports about the other collider: its tag and, when it has one,
      the component the handler looks for. */
  datatype Contact<T> = Contact(tag: string, component: Option<T>)

  const CollectibleTag: string := "Collectible"
  const ObstacleTag: string := "Obstacle"

  /** The share of an obstacle's destroying momentum above which the hook bounces back. */
  const RetrieveMomentumShare: real := 0.7

  /** Whether an obstacle hit of this momentum sends the hook back. */
  predicate BouncesBack(momentum: real, destroyedMomentum: real) {
    momentum >= destroyedMomentum * RetrieveMomentumShare
  }

  /** The total score a list of harvested collectibles adds. */
  function TotalScore(cs: seq<CollectibleObject>): int
  {
    if cs == [] then 0
    else TotalScore(cs[..|cs| - 1]) + HarvestScore(cs[|cs| - 1].subType, cs[|cs| - 1].scoreValue)
  }

  /** A harvest of objects none of which scores adds nothing. */
  lemma {:induction false} NoScorersScoreNothing(cs: seq<CollectibleObject>)
    requires forall k :: 0 <= k < |cs| ==> !AwardsScore(cs[k].subType)
    ensures TotalScore(cs) == 0
    decreases |cs|
  {
    if cs != [] {
      NoScorersScoreNothing(cs[..|cs| - 1]);
    }
  }

  class HookTipCollisionHandler {
    const hookSystem: HookSystem
    /** The tip's mass, read as `hookTipMass` on the hook. */
    const tipMass: real

    constructor (hookSystem: HookSystem, tipMass: real)
      ensures this.hookSystem == hookSystem && this.tipMass == tipMass
    {
      this.hookSystem := hookSystem;
      this.tipMass := tipMass;
    }

    /** `OnTriggerEnter2D`: a collectible is hit first and only then offered the grab; the hook is
        called back only when the grab is accepted. Because the hit never leaves the object
        free-floating, the grab is always refused and the hook keeps going. */
    method OnTriggerEnter2D(other: Contact<CollectibleObject>)
      modifies if other.component.Some? then {other.component.value} else {}
      modifies hookSystem`currentState, hookSystem`calls
      ensures hookSystem.currentState == old(hookSystem.currentState)
      ensures hookSystem.calls == old(hookSystem.calls)
      ensures other.tag != CollectibleTag && other.component.Some? ==>
                other.component.value.currentState == old(other.component.value.currentState)
      ensures other.tag == CollectibleTag && other.component.Some? ==>
                var c := other.component.value;
                c.currentState == HookCollided(old(c.currentState),
                                               TipMomentum(hookSystem.currentLaunchSpeed, tipMass),
                                               c.destroyedMomentum)
    {
      if other.tag == CollectibleTag {
        if other.component.Some? {
          var collectible := other.component.value;
          collectible.OnHookCollision(hookSystem, tipMass);
          var grabbed := collectible.OnGrabbed();
          // The source calls `RetrieveHook` when the grab is accepted; that never happens.
          assert !grabbed;
        }
      }
    }

    /** `OnCollisionEnter2D`: an obstacle takes the tip's momentum as damage, and a hit of at
        least 70% of its destroying momentum sends the hook back. */
    method OnCollisionEnter2D(other: Contact<MovingObstacle>)
      modifies if other.component.Some? then {other.component.value} else {}
      modifies hookSystem`currentState, hookSystem`calls
      ensures other.tag != ObstacleTag || other.component.None? ==>
                hookSystem.currentState == old(hookSystem.currentState) && hookSystem.calls == old(hookSystem.calls)
      ensures other.tag != ObstacleTag && other.component.Some? ==>
                other.component.value.Data() == old(other.component.value.Data())
      ensures other.tag == ObstacleTag && other.component.Some? ==>
                var o := other.component.value;
                var momentum := TipMomentum(hookSystem.currentLaunchSpeed, tipMass);
                && o.Data() == MovingObstacles.Damaged(old(o.Data()), momentum)
                && var r := if BouncesBack(momentum, o.destroyedMomentum)
                            then HookRetrieved(old(hookSystem.Data())) else old(hookSystem.Data());
                   hookSystem.currentState == r.state && hookSystem.calls == r.calls
    {
      if other.tag == ObstacleTag {
        if other.component.Some? {
          var obstacle := other.component.value;
          var hookMomentum := TipMomentum(hookSystem.currentLaunchSpeed, tipMass);
          obstacle.TakeDamage(hookMomentum);
          if hookMomentum >= obstacle.destroyedMomentum * RetrieveMomentumShare {
            hookSystem.RetrieveHook();
          }
        }
      }
    }

    /** `OnRetrieveComplete`: every collectible carried under the tip is harvested once, in order. */
    method OnRetrieveComplete(collectibles: seq<CollectibleObject>)
      requires forall i, j :: 0 <= i < j < |collectibles| ==> collectibles[i] != collectibles[j]
      modifies collectibles, hookSystem`currentScore
      ensures forall c :: c in collectibles ==> c.currentState == Harvested
      ensures forall c :: c in collectibles ==>
                c.calls == old(c.calls) + HarvestCalls(c.subType, c.propTag, c.energyValue)
      ensures hookSystem.currentScore == old(hookSystem.currentScore) + TotalScore(collectibles)
    {
      for i := 0 to |collectibles|
        invariant forall j :: 0 <= j < i ==> collectibles[j].currentState == Harvested
        invariant forall j :: 0 <= j < i ==>
                    collectibles[j].calls == old(collectibles[j].calls)
                      + HarvestCalls(collectibles[j].subType, collectibles[j].propTag, collectibles[j].energyValue)
        invariant forall j :: i <= j < |collectibles| ==> collectibles[j].calls == old(collectibles[j].calls)
        invariant hookSystem.currentScore == old(hookSystem.currentScore) + TotalScore(collectibles[..i])
      {
        collectibles[i].OnHarvested(hookSystem);
        assert collectibles[..i + 1][..i] == collectibles[..i];
      }
      assert collectibles[..|collectibles|] == collectibles;
      forall c | c in collectibles
        ensures c.currentState == Harvested
        ensures c.calls == old(c.calls) + HarvestCalls(c.subType, c.propTag, c.energyValue)
      {
        var j :| 0 <= j < |collectibles| && collectibles[j] == c;
      }
    }
  }
}
