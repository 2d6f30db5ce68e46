/** A collectible map object (Assets/Scripts/MapObject/CollectibleObject.cs): its life cycle
    FreeFloating -> Colliding / Grabbed -> Harvested / Destroyed, and the reward it pays out
    when the hook brings it home. */
module Collectible {
  import opened UnityMath
  import opened Hook

  datatype SubType = Resource | Prop | Garbage | CollectibleObstacle
  datatype CollectibleState = FreeFloating | Colliding | Grabbed | Harvested | Destroyed

  /** Calls the object makes that the model does not follow further: `GrabEnergy` on the hook
      (a member the heat-driven hook does not declare) and the engine's `Destroy(gameObject)`. */
  datatype CollectibleCall = GrabEnergy(amount: real) | DestroyGameObject

  /** The tag of a prop that also refills energy. */
  const EnergyPropTag: string := "Energy"

  /** `OnHookCollision`: any object not yet destroyed starts colliding, and a hard enough hit
      destroys it. */
  function HookCollided(s: CollectibleState, momentum: real, destroyedMomentum: real): (r: CollectibleState)
    ensures s == Destroyed ==> r == Destroyed
    ensures s != Destroyed ==> (r == Destroyed <==> momentum >= destroyedMomentum)
    ensures r == Destroyed || r == Colliding
  {
    if s == Destroyed then Destroyed
    else if momentum >= destroyedMomentum then Destroyed
    else Colliding
  }

  /** `OnGrabbed`: only a free-floating object can be grabbed. */
  predicate Grabbable(s: CollectibleState) {
    s == FreeFloating
  }

  /** Whether harvesting this kind of object adds its score. */
  predicate AwardsScore(subType: SubType) {
    subType != CollectibleObstacle
  }

  /** Whether harvesting this kind of object refills the hook's energy. */
  predicate GrantsEnergy(subType: SubType, propTag: string) {
    subType == Resource || (subType == Prop && propTag == EnergyPropTag)
  }

  /** The score a harvest adds. */
  function HarvestScore(subType: SubType, scoreValue: int): (r: int)
    ensures AwardsScore(subType) ==> r == scoreValue
    ensures !AwardsScore(subType) ==> r == 0
  {
    match subType
    case Resource => scoreValue
    case Prop => scoreValue
    case Garbage => scoreValue
    case CollectibleObstacle => 0
  }

  /** The calls a harvest makes, in order. */
  function HarvestCalls(subType: SubType, propTag: string, energyValue: real): (r: seq<CollectibleCall>)
    ensures |r| >= 1 && r[|r| - 1] == DestroyGameObject
    ensures GrantsEnergy(subType, propTag) <==> r == [GrabEnergy(energyValue), DestroyGameObject]
    ensures !GrantsEnergy(subType, propTag) <==> r == [DestroyGameObject]
  {
    var grab := match subType
      case Resource => [GrabEnergy(energyValue)]
      case Prop => if propTag == EnergyPropTag then [GrabEnergy(energyValue)] else []
      case Garbage => []
      case CollectibleObstacle => [];
    grab + [DestroyGameObject]
  }

  class CollectibleObject {
    const subType: SubType
    const scoreValue: int
    const energyValue: real
    const propTag: string
    const mass: real
    const destroyedMomentum: real

    var currentState: CollectibleState
    /** The calls made so far. */
    var calls: seq<CollectibleCall>

    /** The component as placed in the scene; the enum field starts at its first value. */
    constructor (subType: SubType, scoreValue: int, energyValue: real, propTag: string,
                 mass: real, destroyedMomentum: real)
      ensures this.subType == subType && this.scoreValue == scoreValue
      ensures this.energyValue == energyValue && this.propTag == propTag
      ensures this.mass == mass && this.destroyedMomentum == destroyedMomentum
      ensures currentState == FreeFloating && calls == []
    {
      this.subType := subType;
      this.scoreValue := scoreValue;
      this.energyValue := energyValue;
      this.propTag := propTag;
      this.mass := mass;
      this.destroyedMomentum := destroyedMomentum;
      currentState := FreeFloating;
      calls := [];
    }

    /** `Start`: the rigid-body set-up is physics; the state always becomes FreeFloating. */
    method Start()
      modifies this`currentState
      ensures currentState == FreeFloating
    {
      currentState := FreeFloating;
    }

    /** `OnHookCollision`: the hook's momentum is its current launch speed times its tip mass. */
    method OnHookCollision(hook: HookSystem, tipMass: real)
      modifies this`currentState, this`calls
      ensures currentState == HookCollided(old(currentState), TipMomentum(hook.currentLaunchSpeed, tipMass), destroyedMomentum)
      ensures calls == old(calls) + (if currentState == Destroyed && old(currentState) != Destroyed
                                     then [DestroyGameObject] else [])
    {
      if currentState != Destroyed {
        currentState := Colliding;
        var hookMomentum := TipMomentum(hook.currentLaunchSpeed, tipMass);
        if hookMomentum >= destroyedMomentum {
          DestroyObject();
        }
      }
    }

    /** `OnGrabbed`: reparenting to the tip and freezing the body are scene operations. */
    method OnGrabbed() returns (grabbed: bool)
      modifies this`currentState
      ensures grabbed <==> Grabbable(old(currentState))
      ensures currentState == if grabbed then Grabbed else old(currentState)
    {
      if currentState == FreeFloating {
        currentState := Grabbed;
        return true;
      }
      return false;
    }

    /** `OnHarvested`: from any state, pay out by kind and remove the object. */
    method OnHarvested(hook: HookSystem)
      modifies this`currentState, this`calls, hook`currentScore
      ensures currentState == Harvested
      ensures hook.currentScore == old(hook.currentScore) + HarvestScore(subType, scoreValue)
      ensures calls == old(calls) + HarvestCalls(subType, propTag, energyValue)
    {
      currentState := Harvested;
      match subType {
        case Resource =>
          hook.AddScore(scoreValue);
          calls := calls + [GrabEnergy(energyValue)];
        case Prop =>
          hook.AddScore(scoreValue);
          if propTag == EnergyPropTag {
            calls := calls + [GrabEnergy(energyValue)];
          }
        case Garbage =>
          hook.AddScore(scoreValue);
        case CollectibleObstacle =>
      }
      calls := calls + [DestroyGameObject];
    }

    method DestroyObject()
      modifies this`currentState, this`calls
      ensures currentState == Destroyed
      ensures calls == old(calls) + [DestroyGameObject]
    {
      currentState := Destroyed;
      calls := calls + [DestroyGameObject];
    }
  }

  /** A hook collision always leaves the object colliding or destroyed, never free-floating,
      so the grab that follows it in the tip's trigger handler is always refused. */
  lemma GrabAfterCollisionRefused(s: CollectibleState, momentum: real, destroyedMomentum: real)
    ensures !Grabbable(HookCollided(s, momentum, destroyedMomentum))
  {
  }

  /** A destroyed object stays destroyed under hook collisions, whatever the momentum. */
  lemma DestroyedIsFinal(momentum: real, destroyedMomentum: real)
    ensures HookCollided(Destroyed, momentum, destroyedMomentum) == Destroyed
  {
  }
}
