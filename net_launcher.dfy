/** The net launcher of Assets/Scripts/Net/NetLauncher.cs: key-down starts aiming,
    key-up fires if the launcher is ready, aiming times out, and every net heats the hook.
    The net's flight, the aiming line and the UI are not modelled; the mouse position only
    steers the net and is left out. */
module NetLaunchers {
  import opened UnityMath
  import Hook

  /** `float.MinValue`, the initial `lastFireTime` ("never fired"). */
  const FloatMinValue: real := -340282346638528859811704183484516925440.0

  /** Inspector settings; `hasPrefab` says whether `netPrefab` is assigned. */
  datatype NetConfig = NetConfig(
    maxNetCount: int,
    cooldown: real,
    aimCancelTime: real,
    launchHeat: real,
    hasPrefab: bool)

  /** The launcher's changing state. */
  datatype NetData = NetData(count: int, lastFireTime: real, isAiming: bool, aimingTimer: real)

  /** `CanStartAim` and `CanFire`, which test the same four conditions; `cool` is
      `currentTemperature < overheatThreshold` on the hook. */
  predicate Ready(cfg: NetConfig, d: NetData, now: real, canUse: bool, cool: bool)
  {
    canUse && now - d.lastFireTime >= cfg.cooldown && d.count > 0 && cool
  }

  /** `FireNet`: with the launcher usable and a prefab, one net is spent and the time
      stamped; nothing else is checked, not even the count. */
  function Fired(cfg: NetConfig, d: NetData, now: real, canUse: bool): (r: NetData)
    ensures !canUse || !cfg.hasPrefab ==> r == d
    ensures canUse && cfg.hasPrefab ==> r.count == d.count - 1 && r.lastFireTime == now
    ensures r.isAiming == d.isAiming && r.aimingTimer == d.aimingTimer
  {
    if !canUse || !cfg.hasPrefab then d else d.(count := d.count - 1, lastFireTime := now)
  }

  /** Heat `FireNet` adds to the hook. */
  function FireHeat(cfg: NetConfig, canUse: bool): real
  {
    if !canUse || !cfg.hasPrefab then 0.0 else cfg.launchHeat
  }

  /** One `Update`: when unusable only the aim is dropped; otherwise `HandleAimAndFire`. */
  function NetFrame(cfg: NetConfig, d: NetData, dt: real, now: real, keyDown: bool, keyUp: bool,
                        canUse: bool, cool: bool): NetData
  {
    if !canUse then d.(isAiming := false)
    else
      var d1 := if keyDown && !d.isAiming && Ready(cfg, d, now, canUse, cool) then d.(isAiming := true, aimingTimer := 0.0) else d;
      if !d1.isAiming then d1
      else
        var d2 := d1.(aimingTimer := d1.aimingTimer + dt);
        var d3 := if d2.aimingTimer >= cfg.aimCancelTime then d2.(isAiming := false) else d2;
        if !keyUp then d3
        else (if Ready(cfg, d3, now, canUse, cool) then Fired(cfg, d3, now, canUse) else d3).(isAiming := false)
  }

  /** Whether `Update` calls `FireNet`: aiming (already, or started this frame) when the key
      comes up, with the launcher ready. */
  predicate FiresOnFrame(cfg: NetConfig, d: NetData, now: real, keyDown: bool, keyUp: bool,
                         canUse: bool, cool: bool)
  {
    canUse && (d.isAiming || keyDown) && keyUp && Ready(cfg, d, now, canUse, cool)
  }

  /** Heat one `Update` adds to the hook. */
  function FrameHeat(cfg: NetConfig, d: NetData, now: real, keyDown: bool, keyUp: bool,
                     canUse: bool, cool: bool): real
  {
    if FiresOnFrame(cfg, d, now, keyDown, keyUp, canUse, cool) then FireHeat(cfg, canUse) else 0.0
  }

  class NetLauncher {
    const cfg: NetConfig
    const hookSystem: Hook.HookSystem
    var canUse: bool
    var currentNetCount: int
    var lastFireTime: real
    var isAiming: bool
    var aimingTimer: real

    function Data(): NetData
      reads this
    {
      NetData(currentNetCount, lastFireTime, isAiming, aimingTimer)
    }

    /** Whether the hook is below its overheat threshold. */
    predicate HookCool()
      reads hookSystem
    {
      hookSystem.currentTemperature < hookSystem.cfg.overheatThreshold
    }

    /** Field initialisers plus `Awake`, which clamps the inspector count into range. */
    constructor (config: NetConfig, initialCount: int, hook: Hook.HookSystem)
      ensures cfg == config && hookSystem == hook && canUse
      ensures Data() == NetData(ClampInt(initialCount, 0, config.maxNetCount), FloatMinValue, false, 0.0)
    {
      cfg := config;
      hookSystem := hook;
      canUse := true;
      currentNetCount := ClampInt(initialCount, 0, config.maxNetCount);
      lastFireTime := FloatMinValue;
      isAiming := false;
      aimingTimer := 0.0;
    }

    /** `CanStartAim` and `CanFire`. */
    predicate CanFire(now: real)
      reads this, hookSystem
      ensures CanFire(now) <==> Ready(cfg, Data(), now, canUse, HookCool())
    {
      canUse && now - lastFireTime >= cfg.cooldown && currentNetCount > 0 &&
      hookSystem.currentTemperature < hookSystem.cfg.overheatThreshold
    }

    /** `FireNet`. */
    method FireNet(now: real)
      modifies this`currentNetCount, this`lastFireTime, hookSystem`currentTemperature
      ensures Data() == Fired(cfg, old(Data()), now, canUse)
      ensures hookSystem.currentTemperature == old(hookSystem.currentTemperature) + FireHeat(cfg, canUse)
    {
      if !canUse || !cfg.hasPrefab {
        return;
      }
      currentNetCount := currentNetCount - 1;
      lastFireTime := now;
      hookSystem.AddHeat(cfg.launchHeat);
    }

    /** `Update` with `HandleAimAndFire`; `now` is `Time.time`, `dt` is `Time.deltaTime`. */
    method Update(dt: real, now: real, keyDown: bool, keyUp: bool)
      modifies this`currentNetCount, this`lastFireTime, this`isAiming, this`aimingTimer, hookSystem`currentTemperature
      ensures Data() == NetFrame(cfg, old(Data()), dt, now, keyDown, keyUp, canUse, old(HookCool()))
      ensures hookSystem.currentTemperature ==
        old(hookSystem.currentTemperature) + FrameHeat(cfg, old(Data()), now, keyDown, keyUp, canUse, old(HookCool()))
    {
      if !canUse {
        if isAiming {
          isAiming := false;
        }
        return;
      }
      if keyDown && !isAiming && CanFire(now) {
        isAiming := true;
        aimingTimer := 0.0;
      }
      if isAiming {
        aimingTimer := aimingTimer + dt;
        if aimingTimer >= cfg.aimCancelTime {
          isAiming := false;
        }
        if keyUp {
          if CanFire(now) {
            FireNet(now);
          }
          isAiming := false;
        }
      }
    }

    /** `AddcurrentNetCount`: the count moves by `count`, clamped into `[0, maxNetCount]`. */
    method AddNets(count: int)
      modifies this`currentNetCount
      ensures currentNetCount == ClampInt(old(currentNetCount) + count, 0, cfg.maxNetCount)
    {
      currentNetCount := ClampInt(currentNetCount + count, 0, cfg.maxNetCount);
    }
  }

  // ---------------------------------------------------------------- properties

  /** A net is spent on a frame exactly when `FireNet` runs with a prefab; it then costs
      one net, stamps the time and heats the hook by `launchHeat`. */
  lemma FrameFiresOnlyWhenReady(cfg: NetConfig, d: NetData, dt: real, now: real, keyDown: bool,
                                keyUp: bool, canUse: bool, cool: bool)
    ensures var r := NetFrame(cfg, d, dt, now, keyDown, keyUp, canUse, cool);
      (r.count != d.count <==> FiresOnFrame(cfg, d, now, keyDown, keyUp, canUse, cool) && cfg.hasPrefab) &&
      (r.count != d.count ==>
        r.count == d.count - 1 && r.lastFireTime == now &&
        FrameHeat(cfg, d, now, keyDown, keyUp, canUse, cool) == cfg.launchHeat)
    ensures FiresOnFrame(cfg, d, now, keyDown, keyUp, canUse, cool) ==>
      keyUp && canUse && d.count > 0 && cool && now - d.lastFireTime >= cfg.cooldown
    ensures !FiresOnFrame(cfg, d, now, keyDown, keyUp, canUse, cool) ==>
      FrameHeat(cfg, d, now, keyDown, keyUp, canUse, cool) == 0.0
  {
  }

  /** Aiming starts only on key-down with the launcher ready. */
  lemma AimStartsOnlyWhenReady(cfg: NetConfig, d: NetData, dt: real, now: real, keyDown: bool,
                               keyUp: bool, canUse: bool, cool: bool)
    requires !d.isAiming
    ensures NetFrame(cfg, d, dt, now, keyDown, keyUp, canUse, cool).isAiming ==>
      keyDown && Ready(cfg, d, now, canUse, cool)
  {
  }

  /** Key-up always ends aiming, and so does reaching `aimCancelTime`; an unusable launcher
      changes nothing but dropping the aim. */
  lemma AimEnds(cfg: NetConfig, d: NetData, dt: real, now: real, keyDown: bool,
                keyUp: bool, canUse: bool, cool: bool)
    ensures keyUp ==> !NetFrame(cfg, d, dt, now, keyDown, keyUp, canUse, cool).isAiming
    ensures d.isAiming && d.aimingTimer + dt >= cfg.aimCancelTime ==>
      !NetFrame(cfg, d, dt, now, keyDown, keyUp, canUse, cool).isAiming
    ensures !canUse ==> NetFrame(cfg, d, dt, now, keyDown, keyUp, canUse, cool) == d.(isAiming := false)
  {
  }

  /** The frame in which the aim times out still fires if the key comes up in it. */
  lemma TimeoutFrameStillFires(cfg: NetConfig, d: NetData, dt: real, now: real, cool: bool)
    requires d.isAiming && d.aimingTimer + dt >= cfg.aimCancelTime
    requires Ready(cfg, d, now, true, cool) && cfg.hasPrefab
    ensures NetFrame(cfg, d, dt, now, false, true, true, cool).count == d.count - 1
  {
  }

  /** `FireNet` called from outside with no nets left still spends one. */
  lemma FireIgnoresCount(cfg: NetConfig, d: NetData, now: real)
    requires cfg.hasPrefab && d.count == 0
    ensures Fired(cfg, d, now, true).count == -1
  {
  }

  /** The count stays in `[0, maxNetCount]` through every `Update`. */
  lemma FrameKeepsCountInRange(cfg: NetConfig, d: NetData, dt: real, now: real, keyDown: bool,
                               keyUp: bool, canUse: bool, cool: bool)
    requires 0 <= d.count <= cfg.maxNetCount
    ensures var r := NetFrame(cfg, d, dt, now, keyDown, keyUp, canUse, cool);
      0 <= r.count <= cfg.maxNetCount
  {
  }

  /** The first shot is never held back by the cooldown: `now - float.MinValue` exceeds any
      cooldown below `float.MaxValue` for a non-negative time. */
  lemma NeverFiredIsCooledDown(cfg: NetConfig, now: real)
    requires now >= 0.0 && cfg.cooldown <= -FloatMinValue
    ensures now - FloatMinValue >= cfg.cooldown
  {
  }
}
