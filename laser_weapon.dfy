/** The laser of Assets/Scripts/LaserWeapon.cs: the same aim-then-fire cycle as the launchers,
    with charges (`fireCount`), and a beam coroutine that grows the beam, heats the hook and
    damages what it hits every frame until the fire duration has elapsed or the weapon is disabled.
    Ray casts, the line renderer and the aiming overlay are not modelled: which collectibles the
    beam hits is physics, so the model reports the damage each hit target takes per frame. */
module LaserWeapons {
  import opened UnityMath
  import Hook

  /** `float.MinValue`, the initial `lastFireTime` ("never fired"). */
  const FloatMinValue: real := -340282346638528859811704183484516925440.0

  /** The beam's length cap (`maxLength` in `KeepFiringLaser`). */
  const MaxBeamLength: real := 100.0

  datatype LaserConfig = LaserConfig(
    cooldown: real,
    fireDuration: real,
    aimCancelTime: real,
    laserGrowSpeed: real,
    fireHeat: real,
    continuousFireHeatRate: real,
    damagePerSecond: real)

  /** The weapon's changing state. */
  datatype LaserData = LaserData(fireCount: int, maxCount: int, lastFireTime: real, isAiming: bool, aimingTimer: real)

  /** One frame of the beam coroutine: its `Time.deltaTime` and the value of `canUse` when the
      loop condition is checked. */
  datatype BeamFrame = BeamFrame(dt: real, canUse: bool)

  /** `CanStartAim` and `CanFire`: usable, cooled down, hook below its threshold, a charge left. */
  predicate Ready(cfg: LaserConfig, d: LaserData, now: real, canUse: bool, cool: bool)
  {
    canUse && now - d.lastFireTime >= cfg.cooldown && cool && d.fireCount > 0
  }

  /** `FireLaser`'s bookkeeping: a usable weapon with a charge spends it and stamps the time.
      (The line renderer it also tests always exists after `Awake`.) */
  function Fired(d: LaserData, now: real, canUse: bool): (r: LaserData)
    ensures !canUse || d.fireCount <= 0 ==> r == d
    ensures canUse && d.fireCount > 0 ==> r.fireCount == d.fireCount - 1 && r.lastFireTime == now
    ensures r.maxCount == d.maxCount && r.isAiming == d.isAiming && r.aimingTimer == d.aimingTimer
  {
    if !canUse || d.fireCount <= 0 then d else d.(fireCount := d.fireCount - 1, lastFireTime := now)
  }

  /** One `Update`: when unusable only the aim is dropped; otherwise `HandleAimAndFire`. */
  function LaserAimFrame(cfg: LaserConfig, d: LaserData, dt: real, now: real, keyDown: bool, keyUp: bool,
                         canUse: bool, cool: bool): LaserData
  {
    if !canUse then d.(isAiming := false)
    else
      var d1 := if keyDown && !d.isAiming && Ready(cfg, d, now, canUse, cool) then d.(isAiming := true, aimingTimer := 0.0) else d;
      if !d1.isAiming then d1
      else
        var d2 := d1.(aimingTimer := d1.aimingTimer + dt);
        var d3 := if d2.aimingTimer >= cfg.aimCancelTime then d2.(isAiming := false) else d2;
        if !keyUp then d3
        else (if Ready(cfg, d3, now, canUse, cool) then Fired(d3, now, canUse) else d3).(isAiming := false)
  }

  /** Whether `Update` calls `FireLaser`. */
  predicate FiresOnFrame(cfg: LaserConfig, d: LaserData, now: real, keyDown: bool, keyUp: bool,
                         canUse: bool, cool: bool)
  {
    canUse && (d.isAiming || keyDown) && keyUp && Ready(cfg, d, now, canUse, cool)
  }

  /** One frame of beam growth: below the cap it grows by `laserGrowSpeed * dt`, capped. */
  function Grow(length: real, growSpeed: real, dt: real): (r: real)
    ensures length < MaxBeamLength ==> r <= MaxBeamLength
    ensures length >= MaxBeamLength ==> r == length
    ensures growSpeed >= 0.0 && dt >= 0.0 ==> r >= length
  {
    if length < MaxBeamLength then Min(length + PerFrame(growSpeed, dt), MaxBeamLength) else length
  }

  /** Beam length after the given frames, starting from 0. */
  function BeamLength(growSpeed: real, frames: seq<BeamFrame>): real
    decreases |frames|
  {
    if |frames| == 0 then 0.0
    else Grow(BeamLength(growSpeed, frames[..|frames| - 1]), growSpeed, frames[|frames| - 1].dt)
  }

  /** Time the coroutine has accumulated over the given frames (`fireTimer`). */
  function Elapsed(frames: seq<BeamFrame>): real
    decreases |frames|
  {
    if |frames| == 0 then 0.0 else Elapsed(frames[..|frames| - 1]) + frames[|frames| - 1].dt
  }

  /** Heat the beam puts into the hook over the given frames. */
  function BeamHeat(heatRate: real, frames: seq<BeamFrame>): real
    decreases |frames|
  {
    if |frames| == 0 then 0.0
    else BeamHeat(heatRate, frames[..|frames| - 1]) + PerFrame(heatRate, frames[|frames| - 1].dt)
  }

  /** How many of the offered frames the beam loop runs, having already run for `timer` seconds:
      it keeps going while `fireTimer < fireDuration && canUse`. */
  function FramesRun(duration: real, timer: real, frames: seq<BeamFrame>): (n: nat)
    ensures n <= |frames|
    decreases |frames|
  {
    if |frames| == 0 || !(timer < duration && frames[0].canUse) then 0
    else 1 + FramesRun(duration, timer + frames[0].dt, frames[1..])
  }

  class LaserWeapon {
    const cfg: LaserConfig
    const hookSystem: Hook.HookSystem
    var canUse: bool
    var fireCount: int
    var maxCount: int
    var lastFireTime: real
    var isAiming: bool
    var aimingTimer: real

    function Data(): LaserData
      reads this
    {
      LaserData(fireCount, maxCount, lastFireTime, isAiming, aimingTimer)
    }

    predicate HookCool()
      reads hookSystem
    {
      hookSystem.currentTemperature < hookSystem.cfg.overheatThreshold
    }

    /** Field initialisers plus `Awake`: the charges are capped at `maxCount` (not floored). */
    constructor (config: LaserConfig, initialCount: int, initialMax: int, hook: Hook.HookSystem)
      ensures cfg == config && hookSystem == hook && canUse
      ensures Data() == LaserData(MinInt(initialCount, initialMax), initialMax, FloatMinValue, false, 0.0)
    {
      cfg := config;
      hookSystem := hook;
      canUse := true;
      fireCount := MinInt(initialCount, initialMax);
      maxCount := initialMax;
      lastFireTime := FloatMinValue;
      isAiming := false;
      aimingTimer := 0.0;
    }

    /** `OnValidate`: at least one charge of capacity, and the charges within `[0, maxCount]`. */
    method OnValidate()
      modifies this`maxCount, this`fireCount
      ensures maxCount == MaxInt(1, old(maxCount)) && maxCount >= 1
      ensures fireCount == ClampInt(old(fireCount), 0, maxCount) && 0 <= fireCount <= maxCount
    {
      maxCount := MaxInt(1, maxCount);
      fireCount := ClampInt(fireCount, 0, maxCount);
    }

    /** `AddcurrentLaserCount`: when usable, the charges grow by `amount`, capped at `maxCount`. */
    method AddLaserCount(amount: int)
      modifies this`fireCount
      ensures canUse ==> fireCount == MinInt(old(fireCount) + amount, maxCount) && fireCount <= maxCount
      ensures !canUse ==> fireCount == old(fireCount)
    {
      if canUse {
        fireCount := MinInt(fireCount + amount, maxCount);
      }
    }

    /** `CanStartAim` and `CanFire`. */
    predicate CanFire(now: real)
      reads this, hookSystem
      ensures CanFire(now) <==> Ready(cfg, Data(), now, canUse, HookCool())
    {
      canUse && now - lastFireTime >= cfg.cooldown &&
      hookSystem.currentTemperature < hookSystem.cfg.overheatThreshold && fireCount > 0
    }

    /** `FireLaser`, without the beam coroutine it starts (see `KeepFiringLaser`). */
    method FireLaser(now: real)
      modifies this`fireCount, this`lastFireTime, hookSystem`currentTemperature
      ensures Data() == Fired(old(Data()), now, canUse)
      ensures hookSystem.currentTemperature ==
        old(hookSystem.currentTemperature) + (if canUse && old(fireCount) > 0 then cfg.fireHeat else 0.0)
    {
      if !canUse || fireCount <= 0 {
        return;
      }
      lastFireTime := now;
      fireCount := fireCount - 1;
      hookSystem.AddHeat(cfg.fireHeat);
    }

    /** `Update` with `HandleAimAndFire`. */
    method Update(dt: real, now: real, keyDown: bool, keyUp: bool)
      modifies this`fireCount, this`lastFireTime, this`isAiming, this`aimingTimer, hookSystem`currentTemperature
      ensures Data() == LaserAimFrame(cfg, old(Data()), dt, now, keyDown, keyUp, canUse, old(HookCool()))
      ensures hookSystem.currentTemperature == old(hookSystem.currentTemperature) +
        (if FiresOnFrame(cfg, old(Data()), now, keyDown, keyUp, canUse, old(HookCool())) then cfg.fireHeat else 0.0)
    {
      if !canUse {
        if isAiming {
          isAiming := false;
        }
        return;
      }
      if keyDown && !isAiming && CanFire(now) {
        isAiming := true;
        aimingTimer := 0.0;
      }
      if isAiming {
        aimingTimer := aimingTimer + dt;
        if aimingTimer >= cfg.aimCancelTime {
          isAiming := false;
        }
        if keyUp {
          if CanFire(now) {
            FireLaser(now);
          }
          isAiming := false;
        }
      }
    }

    /** The `KeepFiringLaser` coroutine over the frames it lives through. It returns how many
        frames the beam ran, its final length, and the damage each hit target took per frame. */
    method KeepFiringLaser(frames: seq<BeamFrame>) returns (framesRun: nat, finalLength: real, damagePerTarget: seq<real>)
      modifies hookSystem`currentTemperature
      ensures framesRun == FramesRun(cfg.fireDuration, 0.0, frames)
      ensures finalLength == BeamLength(cfg.laserGrowSpeed, frames[..framesRun])
      ensures |damagePerTarget| == framesRun
      ensures forall i :: 0 <= i < framesRun ==> damagePerTarget[i] == PerFrame(cfg.damagePerSecond, frames[i].dt)
      ensures hookSystem.currentTemperature ==
        old(hookSystem.currentTemperature) + BeamHeat(cfg.continuousFireHeatRate, frames[..framesRun])
    {
      var fireTimer := 0.0;
      var currentLength := 0.0;
      var i := 0;
      damagePerTarget := [];
      while i < |frames| && fireTimer < cfg.fireDuration && frames[i].canUse
        invariant 0 <= i <= |frames|
        invariant fireTimer == Elapsed(frames[..i])
        invariant FramesRun(cfg.fireDuration, 0.0, frames) == i + FramesRun(cfg.fireDuration, fireTimer, frames[i..])
        invariant currentLength == BeamLength(cfg.laserGrowSpeed, frames[..i])
        invariant |damagePerTarget| == i
        invariant forall k :: 0 <= k < i ==> damagePerTarget[k] == PerFrame(cfg.damagePerSecond, frames[k].dt)
        invariant hookSystem.currentTemperature ==
          old(hookSystem.currentTemperature) + BeamHeat(cfg.continuousFireHeatRate, frames[..i])
      {
        var dt := frames[i].dt;
        if currentLength < MaxBeamLength {
          currentLength := currentLength + PerFrame(cfg.laserGrowSpeed, dt);
          currentLength := Min(currentLength, MaxBeamLength);
        }
        damagePerTarget := damagePerTarget + [PerFrame(cfg.damagePerSecond, dt)];
        hookSystem.AddHeat(PerFrame(cfg.continuousFireHeatRate, dt));
        fireTimer := fireTimer + dt;
        assert frames[..i + 1][..i] == frames[..i];
        assert frames[i..][1..] == frames[i + 1..];
        i := i + 1;
      }
      framesRun := i;
      finalLength := currentLength;
    }
  }

  // ---------------------------------------------------------------- properties

  /** A charge is spent on a frame exactly when `FireLaser` runs; the hook heats by `fireHeat`
      then, and only then. */
  lemma FrameFiresOnlyWhenReady(cfg: LaserConfig, d: LaserData, dt: real, now: real, keyDown: bool,
                                keyUp: bool, canUse: bool, cool: bool)
    ensures var r := LaserAimFrame(cfg, d, dt, now, keyDown, keyUp, canUse, cool);
      (r.fireCount != d.fireCount <==> FiresOnFrame(cfg, d, now, keyDown, keyUp, canUse, cool)) &&
      (r.fireCount != d.fireCount ==> r.fireCount == d.fireCount - 1 && r.lastFireTime == now)
    ensures FiresOnFrame(cfg, d, now, keyDown, keyUp, canUse, cool) ==>
      keyUp && canUse && d.fireCount > 0 && cool && now - d.lastFireTime >= cfg.cooldown
  {
  }

  /** Aiming starts only on key-down with the weapon ready; key-up or the timeout ends it; an
      unusable weapon only drops the aim. */
  lemma AimLifecycle(cfg: LaserConfig, d: LaserData, dt: real, now: real, keyDown: bool,
                     keyUp: bool, canUse: bool, cool: bool)
    ensures !d.isAiming && LaserAimFrame(cfg, d, dt, now, keyDown, keyUp, canUse, cool).isAiming ==>
      keyDown && Ready(cfg, d, now, canUse, cool)
    ensures keyUp ==> !LaserAimFrame(cfg, d, dt, now, keyDown, keyUp, canUse, cool).isAiming
    ensures d.isAiming && d.aimingTimer + dt >= cfg.aimCancelTime ==>
      !LaserAimFrame(cfg, d, dt, now, keyDown, keyUp, canUse, cool).isAiming
    ensures !canUse ==> LaserAimFrame(cfg, d, dt, now, keyDown, keyUp, canUse, cool) == d.(isAiming := false)
  {
  }

  /** The charges stay in `[0, maxCount]` through every `Update`. */
  lemma FrameKeepsChargesInRange(cfg: LaserConfig, d: LaserData, dt: real, now: real, keyDown: bool,
                                 keyUp: bool, canUse: bool, cool: bool)
    requires 0 <= d.fireCount <= d.maxCount
    ensures var r := LaserAimFrame(cfg, d, dt, now, keyDown, keyUp, canUse, cool);
      0 <= r.fireCount <= r.maxCount
  {
  }

  /** The beam never grows past its cap, and never shrinks when time and speed are non-negative. */
  lemma {:induction false} BeamLengthBounded(growSpeed: real, frames: seq<BeamFrame>)
    requires growSpeed >= 0.0 && forall i :: 0 <= i < |frames| ==> frames[i].dt >= 0.0
    ensures 0.0 <= BeamLength(growSpeed, frames) <= MaxBeamLength
    ensures |frames| > 0 ==> BeamLength(growSpeed, frames[..|frames| - 1]) <= BeamLength(growSpeed, frames)
    decreases |frames|
  {
    if |frames| > 0 {
      var init := frames[..|frames| - 1];
      assert forall i :: 0 <= i < |init| ==> init[i].dt >= 0.0 by {
        forall i | 0 <= i < |init| ensures init[i].dt >= 0.0 {
          assert init[i] == frames[i];
        }
      }
      BeamLengthBounded(growSpeed, init);
    }
  }

  /** The beam's heat is non-negative for a non-negative rate and frame times. */
  lemma {:induction false} BeamHeatNonnegative(heatRate: real, frames: seq<BeamFrame>)
    requires heatRate >= 0.0 && forall i :: 0 <= i < |frames| ==> frames[i].dt >= 0.0
    ensures BeamHeat(heatRate, frames) >= 0.0
    decreases |frames|
  {
    if |frames| > 0 {
      var init := frames[..|frames| - 1];
      assert forall i :: 0 <= i < |init| ==> init[i].dt >= 0.0 by {
        forall i | 0 <= i < |init| ensures init[i].dt >= 0.0 {
          assert init[i] == frames[i];
        }
      }
      BeamHeatNonnegative(heatRate, init);
    }
  }

  /** The beam runs exactly while the weapon stays usable and the elapsed time is below the
      fire duration: every frame it ran satisfied both, and if it stopped before the frames ran
      out, the next frame failed one of them. */
  lemma {:induction false} FramesRunStopsOnTimeOrDisable(duration: real, timer: real, frames: seq<BeamFrame>)
    ensures var n := FramesRun(duration, timer, frames);
      forall k :: 0 <= k < n ==> frames[k].canUse && timer + Elapsed(frames[..k]) < duration
    ensures var n := FramesRun(duration, timer, frames);
      n < |frames| ==> !frames[n].canUse || timer + Elapsed(frames[..n]) >= duration
    decreases |frames|
  {
    if |frames| > 0 && timer < duration && frames[0].canUse {
      var rest := frames[1..];
      var t1 := timer + frames[0].dt;
      FramesRunStopsOnTimeOrDisable(duration, t1, rest);
      var n := FramesRun(duration, timer, frames);
      forall k | 0 <= k <= n && k <= |frames|
        ensures timer + Elapsed(frames[..k]) == (if k == 0 then timer else t1 + Elapsed(rest[..k - 1]))
      {
        if k > 0 {
          ElapsedOfTail(frames, k);
        }
      }
      forall k | 0 < k < n
        ensures frames[k].canUse && timer + Elapsed(frames[..k]) < duration
      {
        assert frames[k] == rest[k - 1];
      }
      if n < |frames| {
        assert frames[n] == rest[n - 1];
      }
    }
  }

  /** Splitting off the first frame: the time over `frames[..k]` is the first frame's time plus
      the time over the next `k - 1` frames. */
  lemma {:induction false} ElapsedOfTail(frames: seq<BeamFrame>, k: nat)
    requires 0 < k <= |frames|
    ensures Elapsed(frames[..k]) == frames[0].dt + Elapsed(frames[1..][..k - 1])
    decreases k
  {
    if k == 1 {
      assert frames[..1][..0] == [];
      assert frames[1..][..0] == [];
    } else {
      assert frames[..k][..k - 1] == frames[..k - 1];
      assert frames[1..][..k - 1][..k - 2] == frames[1..][..k - 2];
      ElapsedOfTail(frames, k - 1);
      assert frames[1..][..k - 1][k - 2] == frames[k - 1];
    }
  }
}
