/** The missile launcher of Assets/Scripts/Missile/MissileLauncher.cs: key-down starts aiming,
    key-up fires if the launcher is ready, aiming times out, and every missile heats the hook.
    The missile's flight, the aiming line and the UI are not modelled; the mouse position only
    steers the missile and is left out. */
module MissileLaunchers {
  import opened UnityMath
  import Hook

  /** `float.MinValue`, the initial `lastFireTime` ("never fired"). */
  const FloatMinValue: real := -340282346638528859811704183484516925440.0

  /** Inspector settings; `hasPrefab` says whether `missilePrefab` is assigned. */
  datatype MissileConfig = MissileConfig(
    maxMissileCount: int,
    cooldown: real,
    aimCancelTime: real,
    launchHeat: real,
    hasPrefab: bool)

  /** The launcher's changing state. */
  datatype MissileData = MissileData(count: int, lastFireTime: real, isAiming: bool, aimingTimer: real)

  /** `CanStartAim` and `CanFire`, which test the same four conditions; `cool` is
      `currentTemperature < overheatThreshold` on the hook. */
  predicate Ready(cfg: MissileConfig, d: MissileData, now: real, canUse: bool, cool: bool)
  {
    canUse && now - d.lastFireTime >= cfg.cooldown && d.count > 0 && cool
  }

  /** `FireMissile`: with the launcher usable and a prefab, one missile is spent and the time
      stamped; nothing else is checked, not even the count. */
  function Fired(cfg: MissileConfig, d: MissileData, now: real, canUse: bool): (r: MissileData)
    ensures !canUse || !cfg.hasPrefab ==> r == d
    ensures canUse && cfg.hasPrefab ==> r.count == d.count - 1 && r.lastFireTime == now
    ensures r.isAiming == d.isAiming && r.aimingTimer == d.aimingTimer
  {
    if !canUse || !cfg.hasPrefab then d else d.(count := d.count - 1, lastFireTime := now)
  }

  /** Heat `FireMissile` adds to the hook. */
  function FireHeat(cfg: MissileConfig, canUse: bool): real
  {
    if !canUse || !cfg.hasPrefab then 0.0 else cfg.launchHeat
  }

  /** One `Update`: when unusable only the aim is dropped; otherwise `HandleAimAndFire`. */
  function MissileFrame(cfg: MissileConfig, d: MissileData, dt: real, now: real, keyDown: bool, keyUp: bool,
                        canUse: bool, cool: bool): MissileData
  {
    if !canUse then d.(isAiming := false)
    else
      var d1 := if keyDown && !d.isAiming && Ready(cfg, d, now, canUse, cool) then d.(isAiming := true, aimingTimer := 0.0) else d;
      if !d1.isAiming then d1
      else
        var d2 := d1.(aimingTimer := d1.aimingTimer + dt);
        var d3 := if d2.aimingTimer >= cfg.aimCancelTime then d2.(isAiming := false) else d2;
        if !keyUp then d3
        else (if Ready(cfg, d3, now, canUse, cool) then Fired(cfg, d3, now, canUse) else d3).(isAiming := false)
  }

  /** Whether `Update` calls `FireMissile`: aiming (already, or started this frame) when the key
      comes up, with the launcher ready. */
  predicate FiresOnFrame(cfg: MissileConfig, d: MissileData, now: real, keyDown: bool, keyUp: bool,
                         canUse: bool, cool: bool)
  {
    canUse && (d.isAiming || keyDown) && keyUp && Ready(cfg, d, now, canUse, cool)
  }

  /** Heat one `Update` adds to the hook. */
  function FrameHeat(cfg: MissileConfig, d: MissileData, now: real, keyDown: bool, keyUp: bool,
                     canUse: bool, cool: bool): real
  {
    if FiresOnFrame(cfg, d, now, keyDown, keyUp, canUse, cool) then FireHeat(cfg, canUse) else 0.0
  }

  class MissileLauncher {
    const cfg: MissileConfig
    const hookSystem: Hook.HookSystem
    var canUse: bool
    var currentMissileCount: int
    var lastFireTime: real
    var isAiming: bool
    var aimingTimer: real

    function Data(): MissileData
      reads this
    {
      MissileData(currentMissileCount, lastFireTime, isAiming, aimingTimer)
    }

    /** Whether the hook is below its overheat threshold. */
    predicate HookCool()
      reads hookSystem
    {
      hookSystem.currentTemperature < hookSystem.cfg.overheatThreshold
    }

    /** Field initialisers plus `Awake`, which clamps the inspector count into range. */
    constructor (config: MissileConfig, initialCount: int, hook: Hook.HookSystem)
      ensures cfg == config && hookSystem == hook && canUse
      ensures Data() == MissileData(ClampInt(initialCount, 0, config.maxMissileCount), FloatMinValue, false, 0.0)
    {
      cfg := config;
      hookSystem := hook;
      canUse := true;
      currentMissileCount := ClampInt(initialCount, 0, config.maxMissileCount);
      lastFireTime := FloatMinValue;
      isAiming := false;
      aimingTimer := 0.0;
    }

    /** `CanStartAim` and `CanFire`. */
    predicate CanFire(now: real)
      reads this, hookSystem
      ensures CanFire(now) <==> Ready(cfg, Data(), now, canUse, HookCool())
    {
      canUse && now - lastFireTime >= cfg.cooldown && currentMissileCount > 0 &&
      hookSystem.currentTemperature < hookSystem.cfg.overheatThreshold
    }

    /** `FireMissile`. */
    method FireMissile(now: real)
      modifies this`currentMissileCount, this`lastFireTime, hookSystem`currentTemperature
      ensures Data() == Fired(cfg, old(Data()), now, canUse)
      ensures hookSystem.currentTemperature == old(hookSystem.currentTemperature) + FireHeat(cfg, canUse)
    {
      if !canUse || !cfg.hasPrefab {
        return;
      }
      currentMissileCount := currentMissileCount - 1;
      lastFireTime := now;
      hookSystem.AddHeat(cfg.launchHeat);
    }

    /** `Update` with `HandleAimAndFire`; `now` is `Time.time`, `dt` is `Time.deltaTime`. */
    method Update(dt: real, now: real, keyDown: bool, keyUp: bool)
      modifies this`currentMissileCount, this`lastFireTime, this`isAiming, this`aimingTimer, hookSystem`currentTemperature
      ensures Data() == MissileFrame(cfg, old(Data()), dt, now, keyDown, keyUp, canUse, old(HookCool()))
      ensures hookSystem.currentTemperature ==
        old(hookSystem.currentTemperature) + FrameHeat(cfg, old(Data()), now, keyDown, keyUp, canUse, old(HookCool()))
    {
      if !canUse {
        if isAiming {
          isAiming := false;
        }
        return;
      }
      if keyDown && !isAiming && CanFire(now) {
        isAiming := true;
        aimingTimer := 0.0;
      }
      if isAiming {
        aimingTimer := aimingTimer + dt;
        if aimingTimer >= cfg.aimCancelTime {
          isAiming := false;
        }
        if keyUp {
          if CanFire(now) {
            FireMissile(now);
          }
          isAiming := false;
        }
      }
    }

    /** `AddcurrentMissileCount`: the count moves by `count`, clamped into `[0, maxMissileCount]`. */
    method AddMissiles(count: int)
      modifies this`currentMissileCount
      ensures currentMissileCount == ClampInt(old(currentMissileCount) + count, 0, cfg.maxMissileCount)
    {
      currentMissileCount := ClampInt(currentMissileCount + count, 0, cfg.maxMissileCount);
    }
  }

  // ---------------------------------------------------------------- properties

  /** A missile is spent on a frame exactly when `FireMissile` runs with a prefab; it then costs
      one missile, stamps the time and heats the hook by `launchHeat`. */
  lemma FrameFiresOnlyWhenReady(cfg: MissileConfig, d: MissileData, dt: real, now: real, keyDown: bool,
                                keyUp: bool, canUse: bool, cool: bool)
    ensures var r := MissileFrame(cfg, d, dt, now, keyDown, keyUp, canUse, cool);
      (r.count != d.count <==> FiresOnFrame(cfg, d, now, keyDown, keyUp, canUse, cool) && cfg.hasPrefab) &&
      (r.count != d.count ==>
        r.count == d.count - 1 && r.lastFireTime == now &&
        FrameHeat(cfg, d, now, keyDown, keyUp, canUse, cool) == cfg.launchHeat)
    ensures FiresOnFrame(cfg, d, now, keyDown, keyUp, canUse, cool) ==>
      keyUp && canUse && d.count > 0 && cool && now - d.lastFireTime >= cfg.cooldown
    ensures !FiresOnFrame(cfg, d, now, keyDown, keyUp, canUse, cool) ==>
      FrameHeat(cfg, d, now, keyDown, keyUp, canUse, cool) == 0.0
  {
  }

  /** Aiming starts only on key-down with the launcher ready. */
  lemma AimStartsOnlyWhenReady(cfg: MissileConfig, d: MissileData, dt: real, now: real, keyDown: bool,
                               keyUp: bool, canUse: bool, cool: bool)
    requires !d.isAiming
    ensures MissileFrame(cfg, d, dt, now, keyDown, keyUp, canUse, cool).isAiming ==>
      keyDown && Ready(cfg, d, now, canUse, cool)
  {
  }

  /** Key-up always ends aiming, and so does reaching `aimCancelTime`; an unusable launcher
      changes nothing but dropping the aim. */
  lemma AimEnds(cfg: MissileConfig, d: MissileData, dt: real, now: real, keyDown: bool,
                keyUp: bool, canUse: bool, cool: bool)
    ensures keyUp ==> !MissileFrame(cfg, d, dt, now, keyDown, keyUp, canUse, cool).isAiming
    ensures d.isAiming && d.aimingTimer + dt >= cfg.aimCancelTime ==>
      !MissileFrame(cfg, d, dt, now, keyDown, keyUp, canUse, cool).isAiming
    ensures !canUse ==> MissileFrame(cfg, d, dt, now, keyDown, keyUp, canUse, cool) == d.(isAiming := false)
  {
  }

  /** The frame in which the aim times out still fires if the key comes up in it. */
  lemma TimeoutFrameStillFires(cfg: MissileConfig, d: MissileData, dt: real, now: real, cool: bool)
    requires d.isAiming && d.aimingTimer + dt >= cfg.aimCancelTime
    requires Ready(cfg, d, now, true, cool) && cfg.hasPrefab
    ensures MissileFrame(cfg, d, dt, now, false, true, true, cool).count == d.count - 1
  {
  }

  /** `FireMissile` called from outside with no missiles left still spends one. */
  lemma FireIgnoresCount(cfg: MissileConfig, d: MissileData, now: real)
    requires cfg.hasPrefab && d.count == 0
    ensures Fired(cfg, d, now, true).count == -1
  {
  }

  /** The count stays in `[0, maxMissileCount]` through every `Update`. */
  lemma FrameKeepsCountInRange(cfg: MissileConfig, d: MissileData, dt: real, now: real, keyDown: bool,
                               keyUp: bool, canUse: bool, cool: bool)
    requires 0 <= d.count <= cfg.maxMissileCount
    ensures var r := MissileFrame(cfg, d, dt, now, keyDown, keyUp, canUse, cool);
      0 <= r.count <= cfg.maxMissileCount
  {
  }

  /** The first shot is never held back by the cooldown: `now - float.MinValue` exceeds any
      cooldown below `float.MaxValue` for a non-negative time. */
  lemma NeverFiredIsCooledDown(cfg: MissileConfig, now: real)
    requires now >= 0.0 && cfg.cooldown <= -FloatMinValue
    ensures now - FloatMinValue >= cfg.cooldown
  {
  }
}
