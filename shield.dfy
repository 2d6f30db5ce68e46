/** The arc shield of Assets/Scripts/Shield/ShieldController.cs: a four-state machine
    (Closed, Active, Closing, Cooldown) that heats the hook while it is up, closes on the toggle key,
    on exhaustion, on destruction or on the hook's overheat-cooling event, and rebuilds a fan-shaped
    polygon collider. Visual animation (radius, intensity, mouse following) is not modelled; the
    collider path keeps the angle of each rim point, not its trigonometric position. */
module Shield {
  import opened UnityMath
  import Hook

  datatype ShieldState = Closed | Active | Closing | Cooldown

  /** A point of the collider path: the fan's centre, or a rim point at `angle` degrees. */
  datatype PathPoint = Centre | Rim(angle: real)

  /** Inspector settings. `prefabHasRenderer` says whether the shield prefab carries a Renderer,
      which decides whether a shield material exists while the shield is up. */
  datatype ShieldConfig = ShieldConfig(
    cooldownDuration: real,
    activateHeat: real,
    heatPerSecond: real,
    closeAnimationDuration: real,
    shieldAngle: real,
    angleOffset: real,
    collisionSegments: int,
    maxShieldHealth: real,
    prefabHasRenderer: bool)

  /** The controller's changing state; `hasShield` and `hasMaterial` stand for
      `currentShield != null` and `shieldMaterial != null`. */
  datatype ShieldData = ShieldData(
    state: ShieldState,
    cooldownTimer: real,
    closeAnimationTimer: real,
    health: real,
    hasShield: bool,
    hasMaterial: bool,
    path: seq<PathPoint>)

  /** The inspector defaults. */
  function DefaultShieldConfig(): ShieldConfig
  {
    ShieldConfig(3.0, 20.0, 5.0, 0.5, 180.0, 0.0, 12, 100.0, true)
  }

  /** Number of rim segments: `max(3, ceil(collisionSegments * shieldAngle / 360))`. */
  function Segments(cfg: ShieldConfig): (r: int)
    ensures r >= 3
    ensures r as real >= cfg.collisionSegments as real * cfg.shieldAngle / 360.0
  {
    MaxInt(3, CeilToInt(cfg.collisionSegments as real * cfg.shieldAngle / 360.0))
  }

  /** The share `i / segments` of the arc swept by rim point `i`. */
  function ArcShare(i: int, segments: int, shieldAngle: real): (r: real)
    requires segments > 0
    ensures i == 0 ==> r == 0.0
    ensures i == segments ==> r == shieldAngle
  {
    i as real / segments as real * shieldAngle
  }

  /** Angle of rim point `i`: `angleOffset - shieldAngle / 2 + i / segments * shieldAngle`. */
  function RimAngle(cfg: ShieldConfig, i: int, segments: int): real
    requires segments > 0
  {
    cfg.angleOffset - cfg.shieldAngle * 0.5 + ArcShare(i, segments, cfg.shieldAngle)
  }

  /** The collider path: the centre, then rim points 0 through `segments` inclusive. */
  function ColliderPath(cfg: ShieldConfig): (r: seq<PathPoint>)
    ensures |r| == Segments(cfg) + 2
    ensures r[0] == Centre
    ensures forall k :: 1 <= k < |r| ==> r[k] == Rim(RimAngle(cfg, k - 1, Segments(cfg)))
  {
    var n := Segments(cfg);
    [Centre] + seq(n + 1, i requires 0 <= i => Rim(RimAngle(cfg, i, n)))
  }

  /** `CanActivateShield`: a hook exists and is in the Normal phase, the cooldown has elapsed and
      the shield has health left. `phase` is None when there is no hook. */
  predicate CanActivate(s: ShieldData, phase: Option<Hook.OverheatState>)
  {
    phase == Some(Hook.Normal) && s.cooldownTimer <= 0.0 && s.health > 0.0
  }

  /** `ActivateShield`: a shield (and a material when the prefab renders) appears, the collider
      path is built, and the state becomes Active. */
  function Activated(cfg: ShieldConfig, s: ShieldData): (r: ShieldData)
    ensures r.state == Active && r.hasShield && r.hasMaterial == cfg.prefabHasRenderer
    ensures r.path == ColliderPath(cfg)
    ensures r.health == s.health && r.cooldownTimer == s.cooldownTimer
  {
    s.(state := Active, hasShield := true, hasMaterial := cfg.prefabHasRenderer, path := ColliderPath(cfg))
  }

  /** `StartCloseAnimation`: without a shield nothing happens; otherwise the state becomes
      Closing with the animation timer at 0. */
  function CloseStarted(s: ShieldData): (r: ShieldData)
    ensures !s.hasShield ==> r == s
    ensures s.hasShield ==> r.state == Closing && r.closeAnimationTimer == 0.0
    ensures r.health == s.health && r.hasShield == s.hasShield && r.hasMaterial == s.hasMaterial
  {
    if !s.hasShield then s else s.(state := Closing, closeAnimationTimer := 0.0)
  }

  /** `UpdateShieldAnimation`: skipped entirely without a material; otherwise the collider is
      rebuilt and an exhausted Active shield starts closing. */
  function AnimationStep(cfg: ShieldConfig, s: ShieldData): (r: ShieldData)
    ensures !s.hasMaterial ==> r == s
    ensures s.hasMaterial && s.health <= 0.0 && s.state == Active ==> r == CloseStarted(s.(path := ColliderPath(cfg)))
    ensures s.hasMaterial && !(s.health <= 0.0 && s.state == Active) ==> r == s.(path := ColliderPath(cfg))
  {
    if !s.hasMaterial then s
    else
      var s1 := s.(path := ColliderPath(cfg));
      if s1.health <= 0.0 && s1.state == Active then CloseStarted(s1) else s1
  }

  /** The test `closeAnimationTimer / closeAnimationDuration >= 1` on floats; a zero duration
      divides to +infinity for a positive timer and to NaN for a zero one. */
  predicate CloseFinished(timer: real, duration: real)
  {
    if duration == 0.0 then timer > 0.0 else timer / duration >= 1.0
  }

  /** For a positive duration the close test is simply "the timer has reached the duration". */
  lemma CloseFinishedIff(timer: real, duration: real)
    requires duration > 0.0
    ensures CloseFinished(timer, duration) <==> timer >= duration
  {
    if timer >= duration {
      assert timer / duration >= 1.0 by { DivAtLeastOne(timer, duration); }
    } else {
      assert timer / duration < 1.0 by { DivBelowOne(timer, duration); }
    }
  }

  lemma DivAtLeastOne(x: real, d: real)
    requires d > 0.0 && x >= d
    ensures x / d >= 1.0
  {
    assert x / d * d == x;
  }

  lemma DivBelowOne(x: real, d: real)
    requires d > 0.0 && x < d
    ensures x / d < 1.0
  {
    assert x / d * d == x;
  }

  /** The Closing branch of `Update`: the animation timer advances; without a material the
      visual update throws before anything else happens, so only the timer moves; otherwise the
      collider is rebuilt and a finished animation removes the shield and starts the cooldown. */
  function ClosingStep(cfg: ShieldConfig, s: ShieldData, dt: real): (r: ShieldData)
    ensures r.closeAnimationTimer == s.closeAnimationTimer + dt
    ensures !s.hasMaterial ==> r == s.(closeAnimationTimer := r.closeAnimationTimer)
    ensures s.hasMaterial && CloseFinished(r.closeAnimationTimer, cfg.closeAnimationDuration) ==>
      r.state == Cooldown && r.cooldownTimer == cfg.cooldownDuration && !r.hasShield && !r.hasMaterial
    ensures s.hasMaterial && !CloseFinished(r.closeAnimationTimer, cfg.closeAnimationDuration) ==>
      r == s.(closeAnimationTimer := r.closeAnimationTimer, path := ColliderPath(cfg))
  {
    var t := s.closeAnimationTimer + dt;
    if !s.hasMaterial then s.(closeAnimationTimer := t)
    else if CloseFinished(t, cfg.closeAnimationDuration) then
      s.(closeAnimationTimer := t, path := ColliderPath(cfg), hasShield := false, hasMaterial := false,
         cooldownTimer := cfg.cooldownDuration, state := Cooldown)
    else s.(closeAnimationTimer := t, path := ColliderPath(cfg))
  }

  /** The Cooldown branch of `Update`: the timer counts down and the shield closes at or below 0. */
  function CooldownStep(s: ShieldData, dt: real): (r: ShieldData)
    ensures r.cooldownTimer == s.cooldownTimer - dt
    ensures r.state == (if r.cooldownTimer <= 0.0 then Closed else Cooldown)
    ensures r == s.(cooldownTimer := r.cooldownTimer, state := r.state)
  {
    var c := s.cooldownTimer - dt;
    s.(cooldownTimer := c, state := if c <= 0.0 then Closed else Cooldown)
  }

  /** One `Update` of the controller's own state. */
  function ShieldStep(cfg: ShieldConfig, s: ShieldData, dt: real, toggleDown: bool,
                      phase: Option<Hook.OverheatState>): ShieldData
  {
    match s.state
    case Closed => if toggleDown && CanActivate(s, phase) then Activated(cfg, s) else s
    case Active =>
      var s1 := AnimationStep(cfg, s);
      if toggleDown then CloseStarted(s1) else s1
    case Closing => ClosingStep(cfg, s, dt)
    case Cooldown => CooldownStep(s, dt)
  }

  /** Heat one `Update` adds to the hook: `activateHeat` on activation, `heatPerSecond * dt` on an
      Active frame without the toggle key (even one in which exhaustion started the close). */
  function ShieldHeat(cfg: ShieldConfig, s: ShieldData, dt: real, toggleDown: bool,
                      phase: Option<Hook.OverheatState>): real
  {
    match s.state
    case Closed => if toggleDown && CanActivate(s, phase) then cfg.activateHeat else 0.0
    case Active => if !toggleDown && phase.Some? then PerFrame(cfg.heatPerSecond, dt) else 0.0
    case _ => 0.0
  }

  /** `ForceCloseShieldOnOverheat` and `OnShieldDestroyed`: an Active shield starts closing. */
  function ForcedClosed(s: ShieldData): (r: ShieldData)
    ensures s.state != Active ==> r == s
    ensures s.state == Active ==> r == CloseStarted(s)
  {
    if s.state == Active then CloseStarted(s) else s
  }

  /** `RestoreShieldHealth`: health grows by `amount` up to the maximum; a shield in Cooldown
      that now has health skips the rest of its cooldown. */
  function HealthRestored(cfg: ShieldConfig, s: ShieldData, amount: real): (r: ShieldData)
    ensures r.health == Min(cfg.maxShieldHealth, s.health + amount)
    ensures s.state == Cooldown && r.health > 0.0 ==> r.state == Closed && r.cooldownTimer == 0.0
    ensures !(s.state == Cooldown && r.health > 0.0) ==> r == s.(health := r.health)
  {
    var h := Min(cfg.maxShieldHealth, s.health + amount);
    if s.state == Cooldown && h > 0.0 then s.(health := h, cooldownTimer := 0.0, state := Closed)
    else s.(health := h)
  }

  /** Fresh controller after `Start`. */
  function Started(cfg: ShieldConfig): ShieldData
  {
    ShieldData(Closed, 0.0, 0.0, cfg.maxShieldHealth, false, false, [])
  }

  /** A shield object exists exactly while the state is Active or Closing, and a material only
      with a shield. */
  predicate Inv(s: ShieldData)
  {
    (s.hasShield <==> s.state == Active || s.state == Closing) && (s.hasMaterial ==> s.hasShield)
  }

  class ShieldController {
    const cfg: ShieldConfig
    const hookSystem: Hook.HookSystem?
    var state: ShieldState
    var cooldownTimer: real
    var closeAnimationTimer: real
    var currentShieldHealth: real
    var hasShield: bool
    var hasMaterial: bool
    var colliderPath: seq<PathPoint>

    function Data(): ShieldData
      reads this
    {
      ShieldData(state, cooldownTimer, closeAnimationTimer, currentShieldHealth, hasShield, hasMaterial, colliderPath)
    }

    /** The hook's overheat phase as this controller sees it (None without a hook). */
    function HookPhase(): Option<Hook.OverheatState>
      reads hookSystem
    {
      if hookSystem == null then None else Some(hookSystem.currentOverheatState)
    }

    /** The hook, when there is one, as a frame. */
    function HookSet(): set<Hook.HookSystem>
    {
      if hookSystem == null then {} else {hookSystem}
    }

    /** Field initialisers plus `Start`: the hook singleton is looked up and health is full. */
    constructor (config: ShieldConfig, hook: Hook.HookSystem?)
      ensures cfg == config && hookSystem == hook
      ensures Data() == Started(config)
    {
      cfg := config;
      hookSystem := hook;
      state := Closed;
      cooldownTimer := 0.0;
      closeAnimationTimer := 0.0;
      currentShieldHealth := config.maxShieldHealth;
      hasShield := false;
      hasMaterial := false;
      colliderPath := [];
    }

    /** `CanActivateShield`. */
    predicate CanActivateShield()
      reads this, hookSystem
      ensures CanActivateShield() <==> CanActivate(Data(), HookPhase())
    {
      hookSystem != null && hookSystem.currentOverheatState == Hook.Normal &&
      cooldownTimer <= 0.0 && currentShieldHealth > 0.0
    }

    /** `UpdateShieldCollider`: the path is the centre followed by `segments + 1` rim points.
        The collider always exists when this runs (it is attached on activation). */
    method UpdateShieldCollider()
      modifies this`colliderPath
      ensures colliderPath == ColliderPath(cfg)
    {
      var points := [Centre];
      var segments := MaxInt(3, CeilToInt(cfg.collisionSegments as real * cfg.shieldAngle / 360.0));
      var i := 0;
      while i <= segments
        invariant 0 <= i <= segments + 1
        invariant |points| == i + 1 && points[0] == Centre
        invariant forall k :: 1 <= k < |points| ==> points[k] == Rim(RimAngle(cfg, k - 1, segments))
      {
        var angle := cfg.angleOffset - cfg.shieldAngle * 0.5 + ArcShare(i, segments, cfg.shieldAngle);
        points := points + [Rim(angle)];
        i := i + 1;
      }
      colliderPath := points;
    }

    /** `StartCloseAnimation`. */
    method StartCloseAnimation()
      modifies this`state, this`closeAnimationTimer
      ensures Data() == CloseStarted(old(Data()))
    {
      if !hasShield {
        return;
      }
      state := Closing;
      closeAnimationTimer := 0.0;
    }

    /** `ActivateShield`: the shield appears and the hook heats by `activateHeat`. */
    method ActivateShield()
      modifies this`state, this`hasShield, this`hasMaterial, this`colliderPath, HookSet()`currentTemperature
      ensures Data() == Activated(cfg, old(Data()))
      ensures hookSystem != null ==> hookSystem.currentTemperature == old(hookSystem.currentTemperature) + cfg.activateHeat
    {
      hasShield := true;
      hasMaterial := cfg.prefabHasRenderer;
      UpdateShieldCollider();
      state := Active;
      if hookSystem != null {
        hookSystem.currentTemperature := hookSystem.currentTemperature + cfg.activateHeat;
      }
    }

    /** `UpdateShieldAnimation`, keeping only the collider rebuild and the exhaustion check. */
    method UpdateShieldAnimation()
      modifies this`state, this`closeAnimationTimer, this`colliderPath
      ensures Data() == AnimationStep(cfg, old(Data()))
    {
      if !hasMaterial {
        return;
      }
      UpdateShieldCollider();
      if currentShieldHealth <= 0.0 && state == Active {
        StartCloseAnimation();
      }
    }

    /** One frame. `toggleDown` is `Input.GetKeyDown(toggleKey)`, `dt` is `Time.deltaTime`. */
    method Update(dt: real, toggleDown: bool)
      modifies this, HookSet()`currentTemperature
      ensures Data() == ShieldStep(cfg, old(Data()), dt, toggleDown, old(HookPhase()))
      ensures hookSystem != null ==>
        hookSystem.currentTemperature == old(hookSystem.currentTemperature) + ShieldHeat(cfg, old(Data()), dt, toggleDown, old(HookPhase()))
    {
      match state
      case Closed =>
        if toggleDown && CanActivateShield() {
          ActivateShield();
        }
      case Active =>
        UpdateShieldAnimation();
        if toggleDown {
          StartCloseAnimation();
        } else if hookSystem != null {
          hookSystem.currentTemperature := hookSystem.currentTemperature + PerFrame(cfg.heatPerSecond, dt);
        }
      case Closing =>
        closeAnimationTimer := closeAnimationTimer + dt;
        // UpdateShieldVisualAndCollision writes to the material first: without one the frame
        // ends with a null-reference exception here.
        if hasMaterial {
          UpdateShieldCollider();
          if CloseFinished(closeAnimationTimer, cfg.closeAnimationDuration) {
            hasShield := false;
            hasMaterial := false;
            cooldownTimer := cfg.cooldownDuration;
            state := Cooldown;
          }
        }
      case Cooldown =>
        cooldownTimer := cooldownTimer - dt;
        if cooldownTimer <= 0.0 {
          state := Closed;
        }
    }

    /** `ForceCloseShieldOnOverheat`, run when the hook raises its overheat-cooling event. */
    method ForceCloseShieldOnOverheat()
      modifies this`state, this`closeAnimationTimer
      ensures Data() == ForcedClosed(old(Data()))
    {
      if state == Active {
        StartCloseAnimation();
      }
    }

    /** `OnShieldDestroyed`, run when the shield's collision handler reports it destroyed. */
    method OnShieldDestroyed()
      modifies this`state, this`closeAnimationTimer
      ensures Data() == ForcedClosed(old(Data()))
    {
      if state == Active {
        StartCloseAnimation();
      }
    }

    /** `OnShieldHealthChanged`: the collision handler reports the new health. */
    method OnShieldHealthChanged(newHealth: real)
      modifies this`currentShieldHealth
      ensures Data() == old(Data()).(health := newHealth)
    {
      currentShieldHealth := newHealth;
    }

    /** `RestoreShieldHealth`. */
    method RestoreShieldHealth(amount: real)
      modifies this`currentShieldHealth, this`cooldownTimer, this`state
      ensures Data() == HealthRestored(cfg, old(Data()), amount)
    {
      currentShieldHealth := Min(cfg.maxShieldHealth, currentShieldHealth + amount);
      if state == Cooldown && currentShieldHealth > 0.0 {
        cooldownTimer := 0.0;
        state := Closed;
      }
    }
  }

  // ---------------------------------------------------------------- properties

  /** From Closed the shield comes up exactly when the toggle key meets an open gate, and the
      hook then heats by `activateHeat`. */
  lemma ActivationGate(cfg: ShieldConfig, s: ShieldData, dt: real, toggleDown: bool,
                       phase: Option<Hook.OverheatState>)
    requires s.state == Closed
    ensures ShieldStep(cfg, s, dt, toggleDown, phase).state == Active <==>
      toggleDown && phase == Some(Hook.Normal) && s.cooldownTimer <= 0.0 && s.health > 0.0
    ensures ShieldStep(cfg, s, dt, toggleDown, phase).state != Active ==>
      ShieldStep(cfg, s, dt, toggleDown, phase) == s && ShieldHeat(cfg, s, dt, toggleDown, phase) == 0.0
    ensures ShieldStep(cfg, s, dt, toggleDown, phase).state == Active ==>
      ShieldHeat(cfg, s, dt, toggleDown, phase) == cfg.activateHeat
  {
  }

  /** Each state moves only to itself or to its successor in Closed, Active, Closing, Cooldown. */
  lemma StepFollowsCycle(cfg: ShieldConfig, s: ShieldData, dt: real, toggleDown: bool,
                         phase: Option<Hook.OverheatState>)
    ensures var r := ShieldStep(cfg, s, dt, toggleDown, phase);
      r.state == s.state || r.state == Next(s.state)
  {
  }

  function Next(st: ShieldState): ShieldState
  {
    match st
    case Closed => Active
    case Active => Closing
    case Closing => Cooldown
    case Cooldown => Closed
  }

  /** An Active shield with a shield object starts closing on the toggle key, and on exhaustion
      when it has a material; the hook is heated on exactly the Active frames without the key. */
  lemma ActiveFrame(cfg: ShieldConfig, s: ShieldData, dt: real, toggleDown: bool,
                    phase: Option<Hook.OverheatState>)
    requires s.state == Active && Inv(s)
    ensures var r := ShieldStep(cfg, s, dt, toggleDown, phase);
      (r.state == Closing <==> toggleDown || (s.hasMaterial && s.health <= 0.0)) &&
      (r.state == Closing ==> r.closeAnimationTimer == 0.0)
    ensures phase.Some? ==>
      ShieldHeat(cfg, s, dt, toggleDown, phase) == (if toggleDown then 0.0 else PerFrame(cfg.heatPerSecond, dt))
  {
  }

  /** Without a material, an exhausted Active shield is not closed by `Update`. */
  lemma NoMaterialIgnoresExhaustion(cfg: ShieldConfig, s: ShieldData, dt: real,
                                    phase: Option<Hook.OverheatState>)
    requires s.state == Active && !s.hasMaterial
    ensures ShieldStep(cfg, s, dt, false, phase) == s
  {
  }

  /** The overheat and destroyed callbacks close an Active shield (which always has a shield
      object under `Inv`) and leave every other state alone. */
  lemma ForcedCloseCloses(s: ShieldData)
    requires Inv(s)
    ensures s.state == Active ==> ForcedClosed(s).state == Closing && ForcedClosed(s).closeAnimationTimer == 0.0
    ensures s.state != Active ==> ForcedClosed(s) == s
  {
  }

  /** Closing with a material and a positive duration ends exactly when the timer reaches the
      duration, and the cooldown then starts at `cooldownDuration`. */
  lemma ClosingEndsOnTime(cfg: ShieldConfig, s: ShieldData, dt: real, toggleDown: bool,
                          phase: Option<Hook.OverheatState>)
    requires s.state == Closing && s.hasMaterial && cfg.closeAnimationDuration > 0.0
    ensures var r := ShieldStep(cfg, s, dt, toggleDown, phase);
      (r.state == Cooldown <==> s.closeAnimationTimer + dt >= cfg.closeAnimationDuration) &&
      (r.state == Cooldown ==> r.cooldownTimer == cfg.cooldownDuration && !r.hasShield)
  {
    CloseFinishedIff(s.closeAnimationTimer + dt, cfg.closeAnimationDuration);
  }

  /** Without a material the Closing state is never left: only the timer moves. */
  lemma ClosingWithoutMaterialStays(cfg: ShieldConfig, s: ShieldData, dt: real, toggleDown: bool,
                                    phase: Option<Hook.OverheatState>)
    requires s.state == Closing && !s.hasMaterial
    ensures ShieldStep(cfg, s, dt, toggleDown, phase).state == Closing
  {
  }

  /** Cooldown returns to Closed exactly when the decremented timer is at or below 0. */
  lemma CooldownEnds(cfg: ShieldConfig, s: ShieldData, dt: real, toggleDown: bool,
                     phase: Option<Hook.OverheatState>)
    requires s.state == Cooldown
    ensures ShieldStep(cfg, s, dt, toggleDown, phase).state == Closed <==> s.cooldownTimer - dt <= 0.0
  {
  }

  /** Restoring health never exceeds the maximum when starting at or below it, and never
      lowers health for a non-negative amount below the maximum. */
  lemma RestoreBounds(cfg: ShieldConfig, s: ShieldData, amount: real)
    requires s.health <= cfg.maxShieldHealth && amount >= 0.0
    ensures s.health <= HealthRestored(cfg, s, amount).health <= cfg.maxShieldHealth
  {
  }

  /** The shield heats the hook by a non-negative amount when its rates and the frame time are. */
  lemma HeatNonnegative(cfg: ShieldConfig, s: ShieldData, dt: real, toggleDown: bool,
                        phase: Option<Hook.OverheatState>)
    requires cfg.activateHeat >= 0.0 && cfg.heatPerSecond >= 0.0 && dt >= 0.0
    ensures ShieldHeat(cfg, s, dt, toggleDown, phase) >= 0.0
  {
  }

  /** The shield object exists exactly in Active and Closing, whatever happens. */
  lemma StartedInv(cfg: ShieldConfig)
    ensures Inv(Started(cfg))
  {
  }

  lemma StepKeepsInv(cfg: ShieldConfig, s: ShieldData, dt: real, toggleDown: bool,
                     phase: Option<Hook.OverheatState>)
    requires Inv(s)
    ensures Inv(ShieldStep(cfg, s, dt, toggleDown, phase))
  {
  }

  lemma CallbacksKeepInv(cfg: ShieldConfig, s: ShieldData, amount: real, newHealth: real)
    requires Inv(s)
    ensures Inv(ForcedClosed(s))
    ensures Inv(HealthRestored(cfg, s, amount))
    ensures Inv(s.(health := newHealth))
  {
  }

  /** The rim runs from `angleOffset - shieldAngle / 2` to `angleOffset + shieldAngle / 2`,
      with strictly increasing angles for a positive arc. */
  lemma ColliderPathSpansArc(cfg: ShieldConfig)
    ensures var p := ColliderPath(cfg); var n := Segments(cfg);
      p[1] == Rim(cfg.angleOffset - cfg.shieldAngle * 0.5) &&
      p[n + 1] == Rim(cfg.angleOffset + cfg.shieldAngle * 0.5)
    ensures cfg.shieldAngle > 0.0 ==> var p := ColliderPath(cfg);
      forall k :: 1 <= k < |p| - 1 ==> p[k].angle < p[k + 1].angle
  {
    var n := Segments(cfg);
    if cfg.shieldAngle > 0.0 {
      forall k | 0 <= k < n
        ensures RimAngle(cfg, k, n) < RimAngle(cfg, k + 1, n)
      {
        ArcShareIncreasing(k, n, cfg.shieldAngle);
      }
    }
  }

  lemma ArcShareIncreasing(i: int, segments: int, shieldAngle: real)
    requires segments > 0 && shieldAngle > 0.0
    ensures ArcShare(i, segments, shieldAngle) < ArcShare(i + 1, segments, shieldAngle)
  {
    var n := segments as real;
    assert (i + 1) as real / n == i as real / n + 1.0 / n;
    assert (i as real / n + 1.0 / n) * shieldAngle == i as real / n * shieldAngle + 1.0 / n * shieldAngle;
    assert 1.0 / n * shieldAngle > 0.0;
  }
}
