/** The missile launcher of Assets/Sprites/Missile/MissileLauncher.cs: the energy-budget version.
    Aiming needs only an elapsed cooldown and a missile in stock; firing also needs the hook to
    hold at least `energyCost`, which each missile then takes from it. The missile's flight, the
    aiming line and the mouse position are not modelled. */
module EnergyMissiles {
  import opened UnityMath
  import EnergyHook

  /** `float.MinValue`, the initial `lastFireTime` ("never fired"). */
  const FloatMinValue: real := -340282346638528859811704183484516925440.0

  /** Inspector settings; `hasPrefab` says whether `missilePrefab` is assigned. */
  datatype EnergyMissileConfig = EnergyMissileConfig(
    maxMissileCount: int,
    cooldown: real,
    energyCost: int,
    aimCancelTime: real,
    hasPrefab: bool)

  function DefaultEnergyMissileConfig(): EnergyMissileConfig
  {
    EnergyMissileConfig(10, 2.0, 5, 3.0, true)
  }

  /** The launcher's changing state. */
  datatype LauncherData = LauncherData(count: int, lastFireTime: real, isAiming: bool, aimingTimer: real)

  /** The launcher together with the hook's energy (None when the object has no hook). */
  datatype LauncherWorld = LauncherWorld(launcher: LauncherData, energy: Option<real>)

  /** `CanStartAim`. */
  predicate CanAim(cfg: EnergyMissileConfig, d: LauncherData, now: real)
  {
    now - d.lastFireTime >= cfg.cooldown && d.count > 0
  }

  /** Whether the hook can pay for one shot. */
  predicate Affordable(cfg: EnergyMissileConfig, energy: Option<real>)
  {
    energy.Some? && energy.value >= cfg.energyCost as real
  }

  /** `CanFire`. */
  predicate CanShoot(cfg: EnergyMissileConfig, w: LauncherWorld, now: real)
  {
    CanAim(cfg, w.launcher, now) && Affordable(cfg, w.energy)
  }

  /** `FireMissile`: with a prefab, one missile is spent, the hook pays `energyCost` and the time
      is stamped; nothing else is checked. */
  function Shot(cfg: EnergyMissileConfig, w: LauncherWorld, now: real): LauncherWorld
  {
    if !cfg.hasPrefab then w
    else
      LauncherWorld(w.launcher.(count := w.launcher.count - 1, lastFireTime := now),
                    if w.energy.Some? then Some(w.energy.value - cfg.energyCost as real) else None)
  }

  /** `Update` with `HandleAimAndFire`. */
  function EnergyMissileFrame(cfg: EnergyMissileConfig, w: LauncherWorld, dt: real, now: real, keyDown: bool,
                              keyUp: bool): LauncherWorld
  {
    var d := w.launcher;
    var d1 := if keyDown && !d.isAiming && CanAim(cfg, d, now) then d.(isAiming := true, aimingTimer := 0.0) else d;
    if !d1.isAiming then w.(launcher := d1)
    else
      var d2 := d1.(aimingTimer := d1.aimingTimer + dt);
      var d3 := if d2.aimingTimer >= cfg.aimCancelTime then d2.(isAiming := false) else d2;
      if !keyUp then w.(launcher := d3)
      else
        var w3 := w.(launcher := d3);
        var w4 := if CanShoot(cfg, w3, now) then Shot(cfg, w3, now) else w3;
        w4.(launcher := w4.launcher.(isAiming := false))
  }

  /** Whether `Update` calls `FireMissile`. */
  predicate ShootsOnFrame(cfg: EnergyMissileConfig, w: LauncherWorld, now: real, keyDown: bool, keyUp: bool)
  {
    (w.launcher.isAiming || keyDown) && keyUp && CanShoot(cfg, w, now)
  }

  class MissileLauncher {
    const cfg: EnergyMissileConfig
    const hookSystem: EnergyHook.HookSystem?
    var currentMissileCount: int
    var lastFireTime: real
    var isAiming: bool
    var aimingTimer: real

    function Data(): LauncherData
      reads this
    {
      LauncherData(currentMissileCount, lastFireTime, isAiming, aimingTimer)
    }

    function HookEnergy(): Option<real>
      reads hookSystem
    {
      if hookSystem == null then None else Some(hookSystem.currentEnergy)
    }

    function World(): LauncherWorld
      reads this, hookSystem
    {
      LauncherWorld(Data(), HookEnergy())
    }

    /** The hook, when there is one, as a frame. */
    function HookSet(): set<EnergyHook.HookSystem>
    {
      if hookSystem == null then {} else {hookSystem}
    }

    /** Field initialisers plus `Awake`, which clamps the inspector count into range. */
    constructor (config: EnergyMissileConfig, initialCount: int, hook: EnergyHook.HookSystem?)
      ensures cfg == config && hookSystem == hook
      ensures Data() == LauncherData(ClampInt(initialCount, 0, config.maxMissileCount), FloatMinValue, false, 0.0)
    {
      cfg := config;
      hookSystem := hook;
      currentMissileCount := ClampInt(initialCount, 0, config.maxMissileCount);
      lastFireTime := FloatMinValue;
      isAiming := false;
      aimingTimer := 0.0;
    }

    /** `CanStartAim`. */
    predicate CanStartAim(now: real)
      reads this
      ensures CanStartAim(now) <==> CanAim(cfg, Data(), now)
    {
      now - lastFireTime >= cfg.cooldown && currentMissileCount > 0
    }

    /** `CanFire`. */
    predicate CanFire(now: real)
      reads this, hookSystem
      ensures CanFire(now) <==> CanShoot(cfg, World(), now)
    {
      now - lastFireTime >= cfg.cooldown && hookSystem != null &&
      hookSystem.currentEnergy >= cfg.energyCost as real && currentMissileCount > 0
    }

    /** `FireMissile`. */
    method FireMissile(now: real)
      modifies this`currentMissileCount, this`lastFireTime, HookSet()`currentEnergy
      ensures World() == Shot(cfg, old(World()), now)
    {
      if !cfg.hasPrefab {
        return;
      }
      currentMissileCount := currentMissileCount - 1;
      if hookSystem != null {
        hookSystem.currentEnergy := hookSystem.currentEnergy - cfg.energyCost as real;
      }
      lastFireTime := now;
    }

    /** `Update` with `HandleAimAndFire`; `now` is `Time.time`, `dt` is `Time.deltaTime`. */
    method Update(dt: real, now: real, keyDown: bool, keyUp: bool)
      modifies this, HookSet()`currentEnergy
      ensures World() == EnergyMissileFrame(cfg, old(World()), dt, now, keyDown, keyUp)
    {
      if keyDown && !isAiming && CanStartAim(now) {
        isAiming := true;
        aimingTimer := 0.0;
      }
      if isAiming {
        aimingTimer := aimingTimer + dt;
        if aimingTimer >= cfg.aimCancelTime {
          isAiming := false;
        }
        if keyUp {
          if CanFire(now) {
            FireMissile(now);
          }
          isAiming := false;
        }
      }
    }
  }

  // ---------------------------------------------------------------- properties

  /** A missile is spent on a frame exactly when `FireMissile` runs with a prefab; it then costs
      one missile and `energyCost` of the hook's energy and stamps the time. Otherwise neither the
      count nor the energy changes. */
  lemma EnergyFrameFiresOnlyWhenReady(cfg: EnergyMissileConfig, w: LauncherWorld, dt: real, now: real,
                                      keyDown: bool, keyUp: bool)
    ensures var r := EnergyMissileFrame(cfg, w, dt, now, keyDown, keyUp);
      (r.launcher.count != w.launcher.count <==> ShootsOnFrame(cfg, w, now, keyDown, keyUp) && cfg.hasPrefab) &&
      (r.launcher.count != w.launcher.count ==>
        r.launcher.count == w.launcher.count - 1 && r.launcher.lastFireTime == now &&
        r.energy == Some(w.energy.value - cfg.energyCost as real)) &&
      (r.launcher.count == w.launcher.count ==> r.energy == w.energy)
    ensures ShootsOnFrame(cfg, w, now, keyDown, keyUp) ==>
      keyUp && w.launcher.count > 0 && w.energy.Some? && w.energy.value >= cfg.energyCost as real &&
      now - w.launcher.lastFireTime >= cfg.cooldown
  {
  }

  /** Aiming starts only on key-down with the cooldown elapsed and a missile in stock; the energy
      is not consulted until the key comes up. */
  lemma EnergyAimIgnoresEnergy(cfg: EnergyMissileConfig, w: LauncherWorld, dt: real, now: real)
    requires !w.launcher.isAiming && CanAim(cfg, w.launcher, now) && dt < cfg.aimCancelTime
    ensures EnergyMissileFrame(cfg, w, dt, now, true, false).launcher.isAiming
    ensures EnergyMissileFrame(cfg, w.(energy := None), dt, now, true, false).launcher.isAiming
  {
  }

  /** Key-up always ends aiming, and so does reaching `aimCancelTime`. */
  lemma EnergyAimEnds(cfg: EnergyMissileConfig, w: LauncherWorld, dt: real, now: real, keyDown: bool, keyUp: bool)
    ensures keyUp ==> !EnergyMissileFrame(cfg, w, dt, now, keyDown, keyUp).launcher.isAiming
    ensures w.launcher.isAiming && w.launcher.aimingTimer + dt >= cfg.aimCancelTime ==>
      !EnergyMissileFrame(cfg, w, dt, now, keyDown, keyUp).launcher.isAiming
  {
  }

  /** The count stays in `[0, maxMissileCount]`, and the launcher never drives a non-negative
      energy below 0, since a shot is paid only when the energy covers it. */
  lemma EnergyFrameKeepsRanges(cfg: EnergyMissileConfig, w: LauncherWorld, dt: real, now: real,
                               keyDown: bool, keyUp: bool)
    requires 0 <= w.launcher.count <= cfg.maxMissileCount
    ensures var r := EnergyMissileFrame(cfg, w, dt, now, keyDown, keyUp);
      0 <= r.launcher.count <= cfg.maxMissileCount &&
      (w.energy.Some? && w.energy.value >= 0.0 ==> r.energy.Some? && r.energy.value >= 0.0)
  {
  }
}
