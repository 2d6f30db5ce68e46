/** A drifting obstacle (Assets/Scripts/MapObject/MovingObstacle.cs): it loses health to the
    player's ship and to the hook, and is destroyed once its health runs out or a single hook hit
    is hard enough. */
module MovingObstacles {
  import opened UnityMath
  import Hook

  /** The tag of the collider that hit the obstacle. */
  datatype Hitter = PlayerTag | HookTag | OtherTag

  /** The obstacle's mutable fields; `destroyCount` counts the runs of `DestroyObstacle`, each of
      which spawns fragments and asks the engine to destroy the object. */
  datatype ObstacleData = ObstacleData(health: real, isDestroyed: bool, destroyCount: nat)

  /** `DestroyObstacle`. */
  function Destroyed(o: ObstacleData): (r: ObstacleData)
    ensures r.isDestroyed && r.health == o.health && r.destroyCount == o.destroyCount + 1
  {
    o.(isDestroyed := true, destroyCount := o.destroyCount + 1)
  }

  /** `TakeDamage`: health drops by exactly the amount, with no floor; the first time it is
      at or below zero the obstacle is destroyed. */
  function Damaged(o: ObstacleData, amount: real): (r: ObstacleData)
    ensures r.health == o.health - amount
    ensures r.isDestroyed <==> o.isDestroyed || o.health - amount <= 0.0
    ensures r.destroyCount == o.destroyCount + (if !o.isDestroyed && o.health - amount <= 0.0 then 1 else 0)
  {
    var o1 := o.(health := o.health - amount);
    if o1.health <= 0.0 && !o1.isDestroyed then Destroyed(o1) else o1
  }

  /** The hook branch of `OnCollisionEnter2D`, and `OnHookCollision`: damage by the momentum,
      then destroy outright if the momentum reaches the threshold, whether or not the damage
      has already destroyed the obstacle. */
  function HookHit(o: ObstacleData, momentum: real, destroyedMomentum: real): (r: ObstacleData)
    requires !o.isDestroyed
    ensures r.health == o.health - momentum
    ensures r.isDestroyed <==> o.health - momentum <= 0.0 || momentum >= destroyedMomentum
  {
    var o1 := Damaged(o, momentum);
    if momentum >= destroyedMomentum then Destroyed(o1) else o1
  }

  class MovingObstacle {
    const damage: real
    const mass: real
    const destroyedMomentum: real

    var health: real
    var isDestroyed: bool
    var destroyCount: nat

    function Data(): ObstacleData
      reads this
    {
      ObstacleData(health, isDestroyed, destroyCount)
    }

    constructor (health: real, damage: real, mass: real, destroyedMomentum: real)
      ensures this.damage == damage && this.mass == mass && this.destroyedMomentum == destroyedMomentum
      ensures Data() == ObstacleData(health, false, 0)
    {
      this.damage := damage;
      this.mass := mass;
      this.destroyedMomentum := destroyedMomentum;
      this.health := health;
      isDestroyed := false;
      destroyCount := 0;
    }

    method TakeDamage(damageAmount: real)
      modifies this
      ensures Data() == Damaged(old(Data()), damageAmount)
    {
      health := health - damageAmount;
      if health <= 0.0 && !isDestroyed {
        DestroyObstacle();
      }
    }

    method DestroyObstacle()
      modifies this
      ensures Data() == Destroyed(old(Data()))
    {
      isDestroyed := true;
      destroyCount := destroyCount + 1;
    }

    /** `OnCollisionEnter2D`. A ship collision hurts the ship by `damage` and the obstacle by the
        impact speed times its mass; a hook collision is `OnHookCollision`. A destroyed obstacle
        ignores every collision. */
    method OnCollisionEnter2D(hitter: Hitter, relativeSpeed: real, hook: Hook.HookSystem, tipMass: real)
      modifies this, hook`currentHealth, hook`calls
      ensures old(isDestroyed) ==>
                Data() == old(Data()) && hook.currentHealth == old(hook.currentHealth) && hook.calls == old(hook.calls)
      ensures !old(isDestroyed) && hitter == PlayerTag ==>
                Data() == Damaged(old(Data()), relativeSpeed * mass)
                && hook.currentHealth == Hook.Damaged(old(hook.Data()), damage).health
                && hook.calls == Hook.Damaged(old(hook.Data()), damage).calls
      ensures !old(isDestroyed) && hitter == HookTag ==>
                Data() == HookHit(old(Data()), Hook.TipMomentum(old(hook.currentLaunchSpeed), tipMass), destroyedMomentum)
                && hook.currentHealth == old(hook.currentHealth) && hook.calls == old(hook.calls)
      ensures !old(isDestroyed) && hitter == OtherTag ==>
                Data() == old(Data()) && hook.currentHealth == old(hook.currentHealth) && hook.calls == old(hook.calls)
    {
      if isDestroyed {
        return;
      }
      if hitter == PlayerTag {
        hook.TakeDamage(damage);
        TakeDamage(relativeSpeed * mass);
      } else if hitter == HookTag {
        OnHookCollision(hook, tipMass);
      }
    }

    /** `OnHookCollision`. */
    method OnHookCollision(hook: Hook.HookSystem, tipMass: real)
      modifies this
      ensures old(isDestroyed) ==> Data() == old(Data())
      ensures !old(isDestroyed) ==>
                Data() == HookHit(old(Data()), Hook.TipMomentum(hook.currentLaunchSpeed, tipMass), destroyedMomentum)
    {
      if isDestroyed {
        return;
      }
      var hookMomentum := Hook.TipMomentum(hook.currentLaunchSpeed, tipMass);
      TakeDamage(hookMomentum);
      if hookMomentum >= destroyedMomentum {
        DestroyObstacle();
      }
    }
  }

  /** A destroyed obstacle stays destroyed, whatever damage follows. */
  lemma DestructionIsFinal(o: ObstacleData, amount: real)
    requires o.isDestroyed
    ensures Damaged(o, amount).isDestroyed && Damaged(o, amount).destroyCount == o.destroyCount
  {
  }

  /** The momentum check after the damage is not guarded by `isDestroyed`: a hit that both
      drains the health and reaches the threshold runs `DestroyObstacle` twice. */
  lemma HardHitDestroysTwice(o: ObstacleData, momentum: real, destroyedMomentum: real)
    requires !o.isDestroyed
    ensures HookHit(o, momentum, destroyedMomentum).destroyCount ==
              o.destroyCount + (if o.health - momentum <= 0.0 then 1 else 0)
                             + (if momentum >= destroyedMomentum then 1 else 0)
  {
  }
}
