/** The energy-draining shield of Assets/Sprites/ShieldController.cs: Closed, Active and Cooldown.
    Opening pays a fixed energy cost, every Active frame drains the hook's energy, and a frame whose
    drain cannot be paid takes the shield down. The shield object's own collision handling and the
    periodic debug log are not modelled. */
module EnergyShield {
  import opened UnityMath
  import EnergyHook

  datatype EnergyShieldState = Closed | Active | Cooldown

  /** Inspector settings; `hasPrefab` says whether `shieldPrefab` is assigned. */
  datatype EnergyShieldConfig = EnergyShieldConfig(
    initialEnergyCost: real,
    energyDrainPerSecond: real,
    cooldownDuration: real,
    hasPrefab: bool)

  function DefaultEnergyShieldConfig(): EnergyShieldConfig
  {
    EnergyShieldConfig(10.0, 5.0, 3.0, true)
  }

  /** The controller's state; `hasShield` stands for `currentShield != null`. */
  datatype EnergyShieldData = EnergyShieldData(state: EnergyShieldState, cooldownTimer: real, hasShield: bool)

  /** The controller together with the hook's energy (None when the object has no hook). */
  datatype ShieldWorld = ShieldWorld(shield: EnergyShieldData, energy: Option<real>)

  /** The Closed-state gate of `Update`. */
  predicate CanOpen(cfg: EnergyShieldConfig, energy: Option<real>)
  {
    energy.Some? && energy.value >= cfg.initialEnergyCost
  }

  /** `ActivateShield`: the cost is paid first; with no prefab `Instantiate` throws and the state
      stays as it was. */
  function Activated(cfg: EnergyShieldConfig, w: ShieldWorld): ShieldWorld
    requires w.energy.Some?
  {
    var e := Some(w.energy.value - cfg.initialEnergyCost);
    if cfg.hasPrefab then ShieldWorld(w.shield.(state := Active, hasShield := true), e)
    else w.(energy := e)
  }

  /** `DeactivateShield`: the shield goes away and the cooldown starts at its full duration. */
  function Deactivated(cfg: EnergyShieldConfig, s: EnergyShieldData): EnergyShieldData
  {
    EnergyShieldData(Cooldown, cfg.cooldownDuration, false)
  }

  /** `DrainEnergy`: the frame's drain is paid when the energy covers it; otherwise the shield is
      taken down and nothing is paid. Without a hook nothing happens. */
  function Drained(cfg: EnergyShieldConfig, w: ShieldWorld, dt: real): ShieldWorld
  {
    if w.energy.None? then w
    else
      var drain := PerFrame(cfg.energyDrainPerSecond, dt);
      if w.energy.value >= drain then w.(energy := Some(w.energy.value - drain))
      else w.(shield := Deactivated(cfg, w.shield))
  }

  /** One `Update`. */
  function EnergyShieldStep(cfg: EnergyShieldConfig, w: ShieldWorld, dt: real, toggleDown: bool): ShieldWorld
  {
    match w.shield.state
    case Closed => if toggleDown && CanOpen(cfg, w.energy) then Activated(cfg, w) else w
    case Active => if toggleDown then w.(shield := Deactivated(cfg, w.shield)) else Drained(cfg, w, dt)
    case Cooldown =>
      var c := w.shield.cooldownTimer - dt;
      w.(shield := w.shield.(cooldownTimer := c, state := if c <= 0.0 then Closed else Cooldown))
  }

  class ShieldController {
    const cfg: EnergyShieldConfig
    const hookSystem: EnergyHook.HookSystem?
    var state: EnergyShieldState
    var cooldownTimer: real
    var hasShield: bool

    function Data(): EnergyShieldData
      reads this
    {
      EnergyShieldData(state, cooldownTimer, hasShield)
    }

    function HookEnergy(): Option<real>
      reads hookSystem
    {
      if hookSystem == null then None else Some(hookSystem.currentEnergy)
    }

    function World(): ShieldWorld
      reads this, hookSystem
    {
      ShieldWorld(Data(), HookEnergy())
    }

    /** The hook, when there is one, as a frame. */
    function HookSet(): set<EnergyHook.HookSystem>
    {
      if hookSystem == null then {} else {hookSystem}
    }

    /** Field initialisers plus `Start`, which looks up the hook component on the same object. */
    constructor (config: EnergyShieldConfig, hook: EnergyHook.HookSystem?)
      ensures cfg == config && hookSystem == hook
      ensures Data() == EnergyShieldData(Closed, 0.0, false)
    {
      cfg := config;
      hookSystem := hook;
      state := Closed;
      cooldownTimer := 0.0;
      hasShield := false;
    }

    /** `ActivateShield`; the caller has checked that the hook exists. */
    method ActivateShield()
      requires hookSystem != null
      modifies this`state, this`hasShield, hookSystem`currentEnergy
      ensures World() == Activated(cfg, old(World()))
    {
      hookSystem.currentEnergy := hookSystem.currentEnergy - cfg.initialEnergyCost;
      if !cfg.hasPrefab {
        return;
      }
      hasShield := true;
      state := Active;
    }

    /** `DeactivateShield`. */
    method DeactivateShield()
      modifies this`hasShield, this`cooldownTimer, this`state
      ensures Data() == Deactivated(cfg, old(Data()))
    {
      if hasShield {
        hasShield := false;
      }
      cooldownTimer := cfg.cooldownDuration;
      state := Cooldown;
    }

    /** `DrainEnergy`. */
    method DrainEnergy(dt: real)
      modifies this`hasShield, this`cooldownTimer, this`state, HookSet()`currentEnergy
      ensures World() == Drained(cfg, old(World()), dt)
    {
      if hookSystem == null {
        return;
      }
      var drainAmount := PerFrame(cfg.energyDrainPerSecond, dt);
      if hookSystem.currentEnergy >= drainAmount {
        hookSystem.currentEnergy := hookSystem.currentEnergy - drainAmount;
      } else {
        DeactivateShield();
      }
    }

    /** One frame. */
    method Update(dt: real, toggleDown: bool)
      modifies this, HookSet()`currentEnergy
      ensures World() == EnergyShieldStep(cfg, old(World()), dt, toggleDown)
    {
      match state
      case Closed =>
        if toggleDown && hookSystem != null && hookSystem.currentEnergy >= cfg.initialEnergyCost {
          ActivateShield();
        }
      case Active =>
        if toggleDown {
          DeactivateShield();
        } else {
          DrainEnergy(dt);
        }
      case Cooldown =>
        cooldownTimer := cooldownTimer - dt;
        if cooldownTimer <= 0.0 {
          state := Closed;
        }
    }
  }

  // ---------------------------------------------------------------- properties

  /** From Closed the shield opens exactly on the toggle key with a hook holding at least the
      opening cost (and a prefab to instantiate); the cost is then paid. */
  lemma OpeningPaysCost(cfg: EnergyShieldConfig, w: ShieldWorld, dt: real, toggleDown: bool)
    requires w.shield.state == Closed && cfg.hasPrefab
    ensures var r := EnergyShieldStep(cfg, w, dt, toggleDown);
      (r.shield.state == Active <==> toggleDown && w.energy.Some? && w.energy.value >= cfg.initialEnergyCost) &&
      (r.shield.state == Active ==> r.energy == Some(w.energy.value - cfg.initialEnergyCost) && r.shield.hasShield) &&
      (r.shield.state != Active ==> r == w)
  {
  }

  /** Without a prefab the opening cost is still paid, but the shield never opens. */
  lemma MissingPrefabStillCharges(cfg: EnergyShieldConfig, w: ShieldWorld, dt: real)
    requires w.shield.state == Closed && !cfg.hasPrefab && CanOpen(cfg, w.energy)
    ensures var r := EnergyShieldStep(cfg, w, dt, true);
      r.shield == w.shield && r.energy == Some(w.energy.value - cfg.initialEnergyCost)
  {
  }

  /** An Active frame without the toggle either pays exactly `energyDrainPerSecond * dt` or, when
      the energy does not cover that, closes into a full cooldown and pays nothing. */
  lemma ActiveFrameDrainsOrCloses(cfg: EnergyShieldConfig, w: ShieldWorld, dt: real)
    requires w.shield.state == Active && w.energy.Some?
    ensures var r := EnergyShieldStep(cfg, w, dt, false);
      var drain := PerFrame(cfg.energyDrainPerSecond, dt);
      (w.energy.value >= drain ==> r.shield == w.shield && r.energy == Some(w.energy.value - drain)) &&
      (w.energy.value < drain ==> r.energy == w.energy && r.shield == Deactivated(cfg, w.shield))
  {
  }

  /** The toggle key while Active enters Cooldown with the full timer. */
  lemma ToggleWhileActiveCools(cfg: EnergyShieldConfig, w: ShieldWorld, dt: real)
    requires w.shield.state == Active
    ensures var r := EnergyShieldStep(cfg, w, dt, true);
      r.shield.state == Cooldown && r.shield.cooldownTimer == cfg.cooldownDuration && !r.shield.hasShield &&
      r.energy == w.energy
  {
  }

  /** Cooldown returns to Closed exactly when the decremented timer is at or below 0. */
  lemma EnergyShieldCooldownEnds(cfg: EnergyShieldConfig, w: ShieldWorld, dt: real, toggleDown: bool)
    requires w.shield.state == Cooldown
    ensures var r := EnergyShieldStep(cfg, w, dt, toggleDown);
      r.energy == w.energy && r.shield.cooldownTimer == w.shield.cooldownTimer - dt &&
      (r.shield.state == Closed <==> r.shield.cooldownTimer <= 0.0)
  {
  }

  /** The shield never drives the hook's energy below 0: both the opening cost and the drain are
      paid only when covered. The shield object exists exactly while Active. */
  predicate ShieldWorldInv(w: ShieldWorld)
  {
    (w.energy.Some? ==> w.energy.value >= 0.0) && (w.shield.hasShield <==> w.shield.state == Active)
  }

  lemma EnergyShieldStepKeepsInv(cfg: EnergyShieldConfig, w: ShieldWorld, dt: real, toggleDown: bool)
    requires ShieldWorldInv(w)
    ensures ShieldWorldInv(EnergyShieldStep(cfg, w, dt, toggleDown))
    ensures EnergyShieldStep(cfg, w, dt, toggleDown).energy.Some? == w.energy.Some?
  {
  }
}
