/** The laser of Assets/Sprites/LaserWeapon.cs: the energy-budget version. Aiming needs only an
    elapsed cooldown; firing also needs the hook to hold at least `energyCost`, which each shot
    then takes from it. A shot keeps the beam on for `fireDuration` and destroys every object with
    a destroyable tag the beam's box cast touches. The physics queries become inputs: the tags the
    box cast reports each frame, and the first object the ray meets. */
module EnergyLaser {
  import opened UnityMath
  import EnergyHook

  /** `float.MinValue`, the initial `lastFireTime` ("never fired"). */
  const FloatMinValue: real := -340282346638528859811704183484516925440.0

  /** The beam's full length when nothing blocks it. */
  const BeamRange: real := 100.0

  /** The tags the beam destroys. */
  const DestroyableTags: seq<string> := ["Obstacle", "Energy"]

  datatype EnergyLaserConfig = EnergyLaserConfig(cooldown: real, energyCost: int, fireDuration: real, aimCancelTime: real)

  function DefaultEnergyLaserConfig(): EnergyLaserConfig
  {
    EnergyLaserConfig(2.0, 5, 2.0, 3.0)
  }

  /** The aim state. */
  datatype AimData = AimData(lastFireTime: real, isAiming: bool, aimingTimer: real)

  /** The laser together with the hook's energy (None when the object has no hook). */
  datatype LaserWorld = LaserWorld(aim: AimData, energy: Option<real>)

  /** The first object the ray meets and how far away it is. */
  datatype RayHit = RayHit(tag: string, distance: real)

  /** One frame of a running beam: its frame time and the tags of the objects its box cast hits. */
  datatype BeamTick = BeamTick(dt: real, hitTags: seq<string>)

  /** `CanStartAim`. */
  predicate CanAim(cfg: EnergyLaserConfig, a: AimData, now: real)
  {
    now - a.lastFireTime >= cfg.cooldown
  }

  /** `CanFire`. */
  predicate CanShoot(cfg: EnergyLaserConfig, w: LaserWorld, now: real)
  {
    CanAim(cfg, w.aim, now) && w.energy.Some? && w.energy.value >= cfg.energyCost as real
  }

  /** `FireLaser` (the line renderer always exists after `Awake`): the hook pays `energyCost`
      and the time is stamped; the beam itself is `KeepFiringLaser`. */
  function Shot(cfg: EnergyLaserConfig, w: LaserWorld, now: real): LaserWorld
  {
    LaserWorld(w.aim.(lastFireTime := now), if w.energy.Some? then Some(w.energy.value - cfg.energyCost as real) else None)
  }

  /** `Update` with `HandleAimAndFire`. */
  function EnergyLaserFrame(cfg: EnergyLaserConfig, w: LaserWorld, dt: real, now: real, keyDown: bool,
                            keyUp: bool): LaserWorld
  {
    var a := w.aim;
    var a1 := if keyDown && !a.isAiming && CanAim(cfg, a, now) then a.(isAiming := true, aimingTimer := 0.0) else a;
    if !a1.isAiming then w.(aim := a1)
    else
      var a2 := a1.(aimingTimer := a1.aimingTimer + dt);
      var a3 := if a2.aimingTimer >= cfg.aimCancelTime then a2.(isAiming := false) else a2;
      if !keyUp then w.(aim := a3)
      else
        var w3 := w.(aim := a3);
        var w4 := if CanShoot(cfg, w3, now) then Shot(cfg, w3, now) else w3;
        w4.(aim := w4.aim.(isAiming := false))
  }

  /** Whether `Update` calls `FireLaser`. */
  predicate ShootsOnFrame(cfg: EnergyLaserConfig, w: LaserWorld, now: real, keyDown: bool, keyUp: bool)
  {
    (w.aim.isAiming || keyDown) && keyUp && CanShoot(cfg, w, now)
  }

  /** The indices of the box-cast hits that `ApplyLaserEffect` destroys. */
  function Destroyable(hitTags: seq<string>): set<nat>
  {
    set i: nat | i < |hitTags| && hitTags[i] in DestroyableTags
  }

  /** How many frames the `KeepFiringLaser` loop runs over the given frames: it stops once the
      accumulated time reaches `fireDuration`. */
  function BeamFrames(duration: real, timer: real, ticks: seq<BeamTick>): (n: nat)
    ensures n <= |ticks|
    decreases |ticks|
  {
    if |ticks| == 0 || timer >= duration then 0 else 1 + BeamFrames(duration, timer + ticks[0].dt, ticks[1..])
  }

  /** The time accumulated over the first frames. */
  function Elapsed(ticks: seq<BeamTick>): real
    decreases |ticks|
  {
    if |ticks| == 0 then 0.0 else Elapsed(ticks[..|ticks| - 1]) + ticks[|ticks| - 1].dt
  }

  class LaserWeapon {
    const cfg: EnergyLaserConfig
    const hookSystem: EnergyHook.HookSystem?
    const blockingTags: seq<string>
    var lastFireTime: real
    var isAiming: bool
    var aimingTimer: real
    var laserEnabled: bool

    function Aim(): AimData
      reads this
    {
      AimData(lastFireTime, isAiming, aimingTimer)
    }

    function HookEnergy(): Option<real>
      reads hookSystem
    {
      if hookSystem == null then None else Some(hookSystem.currentEnergy)
    }

    function World(): LaserWorld
      reads this, hookSystem
    {
      LaserWorld(Aim(), HookEnergy())
    }

    /** The hook, when there is one, as a frame. */
    function HookSet(): set<EnergyHook.HookSystem>
    {
      if hookSystem == null then {} else {hookSystem}
    }

    /** Field initialisers plus `Awake`: no blocking tags, and the beam starts hidden. */
    constructor (config: EnergyLaserConfig, hook: EnergyHook.HookSystem?)
      ensures cfg == config && hookSystem == hook && blockingTags == [] && !laserEnabled
      ensures Aim() == AimData(FloatMinValue, false, 0.0)
    {
      cfg := config;
      hookSystem := hook;
      blockingTags := [];
      lastFireTime := FloatMinValue;
      isAiming := false;
      aimingTimer := 0.0;
      laserEnabled := false;
    }

    /** `CanStartAim`. */
    predicate CanStartAim(now: real)
      reads this
      ensures CanStartAim(now) <==> CanAim(cfg, Aim(), now)
    {
      now - lastFireTime >= cfg.cooldown
    }

    /** `CanFire`. */
    predicate CanFire(now: real)
      reads this, hookSystem
      ensures CanFire(now) <==> CanShoot(cfg, World(), now)
    {
      now - lastFireTime >= cfg.cooldown && hookSystem != null && hookSystem.currentEnergy >= cfg.energyCost as real
    }

    /** `FireLaser`, without the beam coroutine it starts. */
    method FireLaser(now: real)
      modifies this`lastFireTime, HookSet()`currentEnergy
      ensures World() == Shot(cfg, old(World()), now)
    {
      if hookSystem != null {
        hookSystem.currentEnergy := hookSystem.currentEnergy - cfg.energyCost as real;
      }
      lastFireTime := now;
    }

    /** `Update` with `HandleAimAndFire`; `now` is `Time.time`, `dt` is `Time.deltaTime`. */
    method Update(dt: real, now: real, keyDown: bool, keyUp: bool)
      modifies this`lastFireTime, this`isAiming, this`aimingTimer, HookSet()`currentEnergy
      ensures World() == EnergyLaserFrame(cfg, old(World()), dt, now, keyDown, keyUp)
    {
      if keyDown && !isAiming && CanStartAim(now) {
        isAiming := true;
        aimingTimer := 0.0;
      }
      if isAiming {
        aimingTimer := aimingTimer + dt;
        if aimingTimer >= cfg.aimCancelTime {
          isAiming := false;
        }
        if keyUp {
          if CanFire(now) {
            FireLaser(now);
          }
          isAiming := false;
        }
      }
    }

    /** `IsBlockingTag`: a linear search of `blockingTags`. */
    method IsBlockingTag(tag: string) returns (r: bool)
      ensures r <==> tag in blockingTags
    {
      var i := 0;
      while i < |blockingTags|
        invariant 0 <= i <= |blockingTags|
        invariant tag !in blockingTags[..i]
      {
        if tag == blockingTags[i] {
          return true;
        }
        i := i + 1;
      }
      assert blockingTags[..i] == blockingTags;
      return false;
    }

    /** `UpdateLaserLine`: the beam ends at the ray's first hit only when that object's tag blocks
        it, otherwise at full range. */
    method UpdateLaserLine(hit: Option<RayHit>) returns (length: real)
      ensures hit.Some? && hit.value.tag in blockingTags ==> length == hit.value.distance
      ensures !(hit.Some? && hit.value.tag in blockingTags) ==> length == BeamRange
    {
      length := BeamRange;
      if hit.Some? {
        var blocks := IsBlockingTag(hit.value.tag);
        if blocks {
          length := hit.value.distance;
        }
      }
    }

    /** `ApplyLaserEffect`: every box-cast hit with a destroyable tag is destroyed. */
    method ApplyLaserEffect(hitTags: seq<string>) returns (destroyed: set<nat>)
      ensures destroyed == Destroyable(hitTags)
    {
      destroyed := {};
      var i := 0;
      while i < |hitTags|
        invariant 0 <= i <= |hitTags|
        invariant destroyed == set j: nat | j < i && hitTags[j] in DestroyableTags
      {
        if hitTags[i] in DestroyableTags {
          destroyed := destroyed + {i};
        }
        i := i + 1;
      }
    }

    /** The `KeepFiringLaser` coroutine over the frames it is given: the beam is shown, each frame
        runs the box cast, and the beam is hidden once `fireDuration` has elapsed. When the frames
        run out first the coroutine is still running and the beam stays on. */
    method KeepFiringLaser(ticks: seq<BeamTick>) returns (framesRun: nat, destroyed: seq<set<nat>>)
      modifies this`laserEnabled
      ensures framesRun == BeamFrames(cfg.fireDuration, 0.0, ticks)
      ensures |destroyed| == framesRun
      ensures forall k :: 0 <= k < framesRun ==> destroyed[k] == Destroyable(ticks[k].hitTags)
      ensures laserEnabled <==> framesRun == |ticks| && Elapsed(ticks) < cfg.fireDuration
    {
      var fireTimer := 0.0;
      laserEnabled := true;
      framesRun := 0;
      destroyed := [];
      while fireTimer < cfg.fireDuration && framesRun < |ticks|
        invariant laserEnabled && framesRun <= |ticks|
        invariant fireTimer == Elapsed(ticks[..framesRun])
        invariant BeamFrames(cfg.fireDuration, 0.0, ticks) ==
          framesRun + BeamFrames(cfg.fireDuration, fireTimer, ticks[framesRun..])
        invariant |destroyed| == framesRun
        invariant forall k :: 0 <= k < framesRun ==> destroyed[k] == Destroyable(ticks[k].hitTags)
        decreases |ticks| - framesRun
      {
        var hit := ApplyLaserEffect(ticks[framesRun].hitTags);
        destroyed := destroyed + [hit];
        assert ticks[..framesRun + 1][..framesRun] == ticks[..framesRun];
        fireTimer := fireTimer + ticks[framesRun].dt;
        assert ticks[framesRun..][1..] == ticks[framesRun + 1..];
        framesRun := framesRun + 1;
      }
      if framesRun == |ticks| {
        assert ticks[..framesRun] == ticks;
      }
      if fireTimer >= cfg.fireDuration {
        laserEnabled := false;
      }
    }
  }

  // ---------------------------------------------------------------- properties

  /** A shot is paid on a frame exactly when `FireLaser` runs; it then costs `energyCost` of the
      hook's energy and stamps the time. Otherwise the energy does not change. */
  lemma EnergyLaserFiresOnlyWhenReady(cfg: EnergyLaserConfig, w: LaserWorld, dt: real, now: real,
                                      keyDown: bool, keyUp: bool)
    ensures var r := EnergyLaserFrame(cfg, w, dt, now, keyDown, keyUp);
      (ShootsOnFrame(cfg, w, now, keyDown, keyUp) ==>
        r.aim.lastFireTime == now && r.energy == Some(w.energy.value - cfg.energyCost as real)) &&
      (!ShootsOnFrame(cfg, w, now, keyDown, keyUp) ==> r.energy == w.energy && r.aim.lastFireTime == w.aim.lastFireTime)
    ensures ShootsOnFrame(cfg, w, now, keyDown, keyUp) ==>
      keyUp && w.energy.Some? && w.energy.value >= cfg.energyCost as real && now - w.aim.lastFireTime >= cfg.cooldown
  {
  }

  /** Key-up always ends aiming, and so does reaching `aimCancelTime`; aiming starts only on
      key-down with the cooldown elapsed. */
  lemma EnergyLaserAimLifecycle(cfg: EnergyLaserConfig, w: LaserWorld, dt: real, now: real, keyDown: bool, keyUp: bool)
    ensures keyUp ==> !EnergyLaserFrame(cfg, w, dt, now, keyDown, keyUp).aim.isAiming
    ensures w.aim.isAiming && w.aim.aimingTimer + dt >= cfg.aimCancelTime ==>
      !EnergyLaserFrame(cfg, w, dt, now, keyDown, keyUp).aim.isAiming
    ensures !w.aim.isAiming && EnergyLaserFrame(cfg, w, dt, now, keyDown, keyUp).aim.isAiming ==>
      keyDown && CanAim(cfg, w.aim, now)
  {
  }

  /** A shot never drives a non-negative energy below 0, since it is paid only when covered. */
  lemma EnergyLaserKeepsEnergy(cfg: EnergyLaserConfig, w: LaserWorld, dt: real, now: real, keyDown: bool, keyUp: bool)
    requires w.energy.Some? && w.energy.value >= 0.0
    ensures var r := EnergyLaserFrame(cfg, w, dt, now, keyDown, keyUp);
      r.energy.Some? && r.energy.value >= 0.0
  {
  }

  /** The beam runs exactly until its accumulated time reaches `fireDuration`: every frame it ran
      started below the duration, and it stops only at the duration or when the frames run out. */
  lemma {:induction false} BeamRunsForDuration(duration: real, ticks: seq<BeamTick>)
    ensures var n := BeamFrames(duration, 0.0, ticks);
      (forall k :: 0 <= k < n ==> Elapsed(ticks[..k]) < duration) &&
      (n < |ticks| ==> Elapsed(ticks[..n]) >= duration)
  {
    BeamRunsFrom(duration, 0.0, ticks);
  }

  /** `BeamRunsForDuration` from a running timer, by induction on the frames. */
  lemma {:induction false} BeamRunsFrom(duration: real, timer: real, ticks: seq<BeamTick>)
    ensures var n := BeamFrames(duration, timer, ticks);
      (forall k :: 0 <= k < n ==> timer + Elapsed(ticks[..k]) < duration) &&
      (n < |ticks| ==> timer + Elapsed(ticks[..n]) >= duration)
    decreases |ticks|
  {
    if |ticks| > 0 && timer < duration {
      var rest := ticks[1..];
      BeamRunsFrom(duration, timer + ticks[0].dt, rest);
      var n := BeamFrames(duration, timer, ticks);
      forall k | 0 < k <= |ticks|
        ensures timer + Elapsed(ticks[..k]) == timer + ticks[0].dt + Elapsed(rest[..k - 1])
      {
        ElapsedOfTail(ticks[..k]);
        assert ticks[..k][1..] == rest[..k - 1];
        assert ticks[..k][0] == ticks[0];
      }
      assert ticks[..0] == [];
    } else {
      assert ticks[..0] == [];
    }
  }

  /** Splitting off the first frame of the elapsed time. */
  lemma {:induction false} ElapsedOfTail(ticks: seq<BeamTick>)
    requires |ticks| > 0
    ensures Elapsed(ticks) == ticks[0].dt + Elapsed(ticks[1..])
    decreases |ticks|
  {
    if |ticks| > 1 {
      var init := ticks[..|ticks| - 1];
      ElapsedOfTail(init);
      assert init[1..] == ticks[1..][..|ticks[1..]| - 1];
    } else {
      assert ticks[1..] == [];
    }
  }

  /** Only destroyable tags are destroyed, and every such hit is. */
  lemma DestroyableExactly(hitTags: seq<string>, i: nat)
    requires i < |hitTags|
    ensures i in Destroyable(hitTags) <==> hitTags[i] == "Obstacle" || hitTags[i] == "Energy"
  {
  }
}
