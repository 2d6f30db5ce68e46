/** The earlier three-state shield of Assets/Scripts/ShieldController.cs: Closed, Active and
    Cooldown, heating the hook on activation and on every Active frame. */
module SimpleShield {
  import opened UnityMath
  import Hook

  datatype SimpleShieldState = Closed | Active | Cooldown

  datatype SimpleShieldConfig = SimpleShieldConfig(cooldownDuration: real, activateHeat: real, heatPerSecond: real)

  /** The controller's state; `hasShield` stands for `currentShield != null`. */
  datatype SimpleShieldData = SimpleShieldData(state: SimpleShieldState, cooldownTimer: real, hasShield: bool)

  function DefaultSimpleShieldConfig(): SimpleShieldConfig
  {
    SimpleShieldConfig(3.0, 20.0, 5.0)
  }

  /** `CanActivateShield`; `phase` is None when the object has no hook component. */
  predicate CanActivate(s: SimpleShieldData, phase: Option<Hook.OverheatState>)
  {
    phase == Some(Hook.Normal) && s.cooldownTimer <= 0.0
  }

  /** `DeactivateShield`: the shield goes away and the cooldown starts at its full duration. */
  function Deactivated(cfg: SimpleShieldConfig, s: SimpleShieldData): SimpleShieldData
  {
    SimpleShieldData(Cooldown, cfg.cooldownDuration, false)
  }

  /** One `Update` of the controller's own state. */
  function SimpleShieldStep(cfg: SimpleShieldConfig, s: SimpleShieldData, dt: real, toggleDown: bool,
                            phase: Option<Hook.OverheatState>): SimpleShieldData
  {
    match s.state
    case Closed => if toggleDown && CanActivate(s, phase) then s.(state := Active, hasShield := true) else s
    case Active => if toggleDown then Deactivated(cfg, s) else s
    case Cooldown =>
      var c := s.cooldownTimer - dt;
      s.(cooldownTimer := c, state := if c <= 0.0 then Closed else Cooldown)
  }

  /** Heat one `Update` adds to the hook. */
  function SimpleShieldHeat(cfg: SimpleShieldConfig, s: SimpleShieldData, dt: real, toggleDown: bool,
                            phase: Option<Hook.OverheatState>): real
  {
    match s.state
    case Closed => if toggleDown && CanActivate(s, phase) then cfg.activateHeat else 0.0
    case Active => if !toggleDown && phase.Some? then PerFrame(cfg.heatPerSecond, dt) else 0.0
    case Cooldown => 0.0
  }

  class ShieldController {
    const cfg: SimpleShieldConfig
    const hookSystem: Hook.HookSystem?
    var state: SimpleShieldState
    var cooldownTimer: real
    var hasShield: bool

    function Data(): SimpleShieldData
      reads this
    {
      SimpleShieldData(state, cooldownTimer, hasShield)
    }

    function HookPhase(): Option<Hook.OverheatState>
      reads hookSystem
    {
      if hookSystem == null then None else Some(hookSystem.currentOverheatState)
    }

    /** The hook, when there is one, as a frame. */
    function HookSet(): set<Hook.HookSystem>
    {
      if hookSystem == null then {} else {hookSystem}
    }

    /** Field initialisers plus `Start`, which looks up the hook component on the same object. */
    constructor (config: SimpleShieldConfig, hook: Hook.HookSystem?)
      ensures cfg == config && hookSystem == hook
      ensures Data() == SimpleShieldData(Closed, 0.0, false)
    {
      cfg := config;
      hookSystem := hook;
      state := Closed;
      cooldownTimer := 0.0;
      hasShield := false;
    }

    /** `CanActivateShield`. */
    predicate CanActivateShield()
      reads this, hookSystem
      ensures CanActivateShield() <==> CanActivate(Data(), HookPhase())
    {
      hookSystem != null && hookSystem.currentOverheatState == Hook.Normal && cooldownTimer <= 0.0
    }

    /** `ActivateShield`: the shield appears, the state becomes Active and the hook heats. */
    method ActivateShield()
      modifies this`state, this`hasShield, HookSet()`currentTemperature
      ensures Data() == old(Data()).(state := Active, hasShield := true)
      ensures hookSystem != null ==> hookSystem.currentTemperature == old(hookSystem.currentTemperature) + cfg.activateHeat
    {
      hasShield := true;
      state := Active;
      if hookSystem != null {
        hookSystem.currentTemperature := hookSystem.currentTemperature + cfg.activateHeat;
      }
    }

    /** `DeactivateShield`. */
    method DeactivateShield()
      modifies this
      ensures Data() == Deactivated(cfg, old(Data()))
    {
      if hasShield {
        hasShield := false;
      }
      cooldownTimer := cfg.cooldownDuration;
      state := Cooldown;
    }

    /** One frame. */
    method Update(dt: real, toggleDown: bool)
      modifies this, HookSet()`currentTemperature
      ensures Data() == SimpleShieldStep(cfg, old(Data()), dt, toggleDown, old(HookPhase()))
      ensures hookSystem != null ==>
        hookSystem.currentTemperature == old(hookSystem.currentTemperature) + SimpleShieldHeat(cfg, old(Data()), dt, toggleDown, old(HookPhase()))
    {
      match state
      case Closed =>
        if toggleDown && CanActivateShield() {
          ActivateShield();
        }
      case Active =>
        if toggleDown {
          DeactivateShield();
        } else if hookSystem != null {
          hookSystem.currentTemperature := hookSystem.currentTemperature + PerFrame(cfg.heatPerSecond, dt);
        }
      case Cooldown =>
        cooldownTimer := cooldownTimer - dt;
        if cooldownTimer <= 0.0 {
          state := Closed;
        }
    }
  }

  // ---------------------------------------------------------------- properties

  /** From Closed the shield comes up exactly on the toggle key with a Normal-phase hook and an
      elapsed cooldown, heating the hook by `activateHeat`; otherwise nothing changes. */
  lemma SimpleActivationGate(cfg: SimpleShieldConfig, s: SimpleShieldData, dt: real, toggleDown: bool,
                             phase: Option<Hook.OverheatState>)
    requires s.state == Closed
    ensures var r := SimpleShieldStep(cfg, s, dt, toggleDown, phase);
      (r.state == Active <==> toggleDown && phase == Some(Hook.Normal) && s.cooldownTimer <= 0.0) &&
      (r.state == Active ==> r.hasShield && SimpleShieldHeat(cfg, s, dt, toggleDown, phase) == cfg.activateHeat) &&
      (r.state != Active ==> r == s && SimpleShieldHeat(cfg, s, dt, toggleDown, phase) == 0.0)
  {
  }

  /** An Active frame either takes the shield down into a full cooldown (toggle key) or keeps it
      up and heats the hook by `heatPerSecond * dt`. */
  lemma SimpleActiveFrame(cfg: SimpleShieldConfig, s: SimpleShieldData, dt: real, toggleDown: bool,
                          phase: Option<Hook.OverheatState>)
    requires s.state == Active
    ensures var r := SimpleShieldStep(cfg, s, dt, toggleDown, phase);
      toggleDown ==> r.state == Cooldown && r.cooldownTimer == cfg.cooldownDuration && !r.hasShield
    ensures !toggleDown ==> SimpleShieldStep(cfg, s, dt, toggleDown, phase) == s
    ensures phase.Some? ==>
      SimpleShieldHeat(cfg, s, dt, toggleDown, phase) == (if toggleDown then 0.0 else PerFrame(cfg.heatPerSecond, dt))
  {
  }

  /** Cooldown returns to Closed exactly when the decremented timer is at or below 0. */
  lemma SimpleCooldownEnds(cfg: SimpleShieldConfig, s: SimpleShieldData, dt: real, toggleDown: bool,
                           phase: Option<Hook.OverheatState>)
    requires s.state == Cooldown
    ensures var r := SimpleShieldStep(cfg, s, dt, toggleDown, phase);
      r.cooldownTimer == s.cooldownTimer - dt && (r.state == Closed <==> r.cooldownTimer <= 0.0)
  {
  }

  /** A shield object exists exactly while the state is Active. */
  predicate SimpleInv(s: SimpleShieldData)
  {
    s.hasShield <==> s.state == Active
  }

  lemma SimpleStepKeepsInv(cfg: SimpleShieldConfig, s: SimpleShieldData, dt: real, toggleDown: bool,
                           phase: Option<Hook.OverheatState>)
    requires SimpleInv(s)
    ensures SimpleInv(SimpleShieldStep(cfg, s, dt, toggleDown, phase))
  {
  }
}
