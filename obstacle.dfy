/** The drifting obstacle of Assets/Scripts/Obstacle/Obstacle.cs: its mass is clamped into the
    configured range and sets its size, a lifetime timer destroys it after `autoDestroyTime`, and an
    off-screen timer destroys it once it has stayed outside the view for `destroyDelayAfterExit`.
    The camera's viewport point and `Random.Range` are inputs; the rigid body, the collider shapes
    and the collision impulse are not modelled. `Destroy(gameObject)` is the `destroyed` flag. */
module Obstacles {
  import opened UnityMath

  /** `sizePerMass`. */
  const SizePerMass: real := 0.3

  /** `Mathf.Epsilon` (the smallest positive float). */
  const FloatEpsilon: real := 0.000000000000000000000000000000000000000000001401298

  /** `Mathf.Approximately`. */
  predicate Approximately(a: real, b: real)
  {
    Abs(b - a) < Max(0.000001 * Max(Abs(a), Abs(b)), FloatEpsilon * 8.0)
  }

  datatype Vec2 = Vec2(x: real, y: real)

  /** `CheckScreenBounds`'s test on the viewport point: more than a tenth of the view outside. */
  predicate OffViewport(p: Vec2)
  {
    p.x < -0.1 || p.x > 1.1 || p.y < -0.1 || p.y > 1.1
  }

  /** Inspector settings (`massRange` is `[massMin, massMax]`). */
  datatype ObstacleConfig = ObstacleConfig(
    massMin: real,
    massMax: real,
    autoDestroyTime: real,
    destroyOnExitScreen: bool,
    destroyDelayAfterExit: real)

  function DefaultObstacleConfig(): ObstacleConfig
  {
    ObstacleConfig(1.0, 5.0, 30.0, true, 2.0)
  }

  /** The obstacle's changing state; `scale` is the uniform x/y scale of its transform. */
  datatype ObstacleData = ObstacleData(
    currentMass: real,
    scale: real,
    isOffScreen: bool,
    offScreenTimer: real,
    lifeTimer: real,
    destroyed: bool)

  /** The size that goes with a mass. */
  function SizeFor(mass: real): real
  {
    mass * SizePerMass
  }

  /** `InitMassAndSize`. */
  function WithMass(cfg: ObstacleConfig, d: ObstacleData, mass: real): ObstacleData
  {
    var m := Clamp(mass, cfg.massMin, cfg.massMax);
    d.(currentMass := m, scale := SizeFor(m))
  }

  /** `Awake` (the mass part) and `Start`: a mass that is still about zero is drawn at random, and
      a positive `autoDestroyTime` starts the lifetime timer. */
  function Initial(cfg: ObstacleConfig, initialMass: real, initialScale: real, randomMass: real): ObstacleData
  {
    var d := ObstacleData(initialMass, initialScale, false, 0.0, 0.0, false);
    var d1 := if Approximately(initialMass, 0.0) then WithMass(cfg, d, randomMass) else d;
    if cfg.autoDestroyTime > 0.0 then d1.(lifeTimer := cfg.autoDestroyTime) else d1
  }

  /** `CheckScreenBounds`. */
  function ScreenCheck(cfg: ObstacleConfig, d: ObstacleData, dt: real, viewport: Vec2): ObstacleData
  {
    if OffViewport(viewport) then
      if !d.isOffScreen then d.(isOffScreen := true, offScreenTimer := 0.0)
      else
        var t := d.offScreenTimer + dt;
        d.(offScreenTimer := t, destroyed := d.destroyed || t >= cfg.destroyDelayAfterExit)
    else d.(isOffScreen := false, offScreenTimer := 0.0)
  }

  /** `Update`: the lifetime countdown, whose expiry destroys the obstacle and ends the frame,
      then the off-screen check when enabled. */
  function ObstacleStep(cfg: ObstacleConfig, d: ObstacleData, dt: real, viewport: Vec2): ObstacleData
  {
    var d1 := if d.lifeTimer > 0.0 then d.(lifeTimer := d.lifeTimer - dt) else d;
    if d.lifeTimer > 0.0 && d1.lifeTimer <= 0.0 then d1.(destroyed := true)
    else if cfg.destroyOnExitScreen then ScreenCheck(cfg, d1, dt, viewport)
    else d1
  }

  class Obstacle {
    const cfg: ObstacleConfig
    var currentMass: real
    var scale: real
    var isOffScreen: bool
    var offScreenTimer: real
    var lifeTimer: real
    var destroyed: bool

    function Data(): ObstacleData
      reads this
    {
      ObstacleData(currentMass, scale, isOffScreen, offScreenTimer, lifeTimer, destroyed)
    }

    /** Field initialisers, `Awake` and `Start`. `initialMass` is whatever `currentMass` holds
        when the object wakes, `initialScale` the prefab's scale, `randomMass` the draw of
        `Random.Range(massRange.x, massRange.y)`. */
    constructor (config: ObstacleConfig, initialMass: real, initialScale: real, randomMass: real)
      ensures cfg == config && Data() == Initial(config, initialMass, initialScale, randomMass)
    {
      cfg := config;
      currentMass := initialMass;
      scale := initialScale;
      isOffScreen := false;
      offScreenTimer := 0.0;
      lifeTimer := 0.0;
      destroyed := false;
      new;
      if Approximately(currentMass, 0.0) {
        InitMassAndSize(randomMass);
      }
      if cfg.autoDestroyTime > 0.0 {
        lifeTimer := cfg.autoDestroyTime;
      }
    }

    /** `InitMassAndSize`. */
    method InitMassAndSize(mass: real)
      modifies this`currentMass, this`scale
      ensures currentMass == Clamp(mass, cfg.massMin, cfg.massMax) && scale == SizeFor(currentMass)
    {
      currentMass := Clamp(mass, cfg.massMin, cfg.massMax);
      scale := SizeFor(currentMass);
    }

    /** `Update`; `dt` is `Time.deltaTime`, `viewport` the camera's viewport point for the
        obstacle's position. */
    method Update(dt: real, viewport: Vec2)
      modifies this`lifeTimer, this`destroyed, this`isOffScreen, this`offScreenTimer
      ensures Data() == ObstacleStep(cfg, old(Data()), dt, viewport)
    {
      if lifeTimer > 0.0 {
        lifeTimer := lifeTimer - dt;
        if lifeTimer <= 0.0 {
          DestroyObstacle();
          return;
        }
      }
      if cfg.destroyOnExitScreen {
        CheckScreenBounds(dt, viewport);
      }
    }

    /** `CheckScreenBounds`. */
    method CheckScreenBounds(dt: real, viewport: Vec2)
      modifies this`destroyed, this`isOffScreen, this`offScreenTimer
      ensures Data() == ScreenCheck(cfg, old(Data()), dt, viewport)
    {
      var isCurrentlyOffScreen := viewport.x < -0.1 || viewport.x > 1.1 || viewport.y < -0.1 || viewport.y > 1.1;
      if isCurrentlyOffScreen {
        if !isOffScreen {
          isOffScreen := true;
          offScreenTimer := 0.0;
        } else {
          offScreenTimer := offScreenTimer + dt;
          if offScreenTimer >= cfg.destroyDelayAfterExit {
            DestroyObstacle();
          }
        }
      } else {
        isOffScreen := false;
        offScreenTimer := 0.0;
      }
    }

    /** `DestroyObstacle`. */
    method DestroyObstacle()
      modifies this`destroyed
      ensures destroyed
    {
      destroyed := true;
    }
  }

  // ---------------------------------------------------------------- properties

  /** `Approximately(m, 0)` holds exactly for masses within eight float epsilons of zero. */
  lemma ApproximatelyZero(m: real)
    ensures Approximately(m, 0.0) <==> Abs(m) < FloatEpsilon * 8.0
  {
    assert Abs(0.0 - m) == Abs(m);
    assert Max(Abs(m), Abs(0.0)) == Abs(m);
    if Abs(m) >= FloatEpsilon * 8.0 {
      assert 0.000001 * Abs(m) <= Abs(m);
    }
  }

  /** With an ordered range, the mass lands in it and the size follows the mass; a mass already in
      range is kept. */
  lemma MassClampedAndSized(cfg: ObstacleConfig, d: ObstacleData, mass: real)
    requires cfg.massMin <= cfg.massMax
    ensures var r := WithMass(cfg, d, mass);
      cfg.massMin <= r.currentMass <= cfg.massMax &&
      r.scale == r.currentMass * 0.3 &&
      SizeFor(cfg.massMin) <= r.scale <= SizeFor(cfg.massMax) &&
      (cfg.massMin <= mass <= cfg.massMax ==> r.currentMass == mass)
  {
  }

  /** A mass already set when the object wakes is kept; a zero mass is replaced by the clamped
      draw. The lifetime timer starts at `autoDestroyTime` when that is positive. */
  lemma AwakeRandomisesOnlyUnsetMass(cfg: ObstacleConfig, initialMass: real, initialScale: real, randomMass: real)
    ensures var d := Initial(cfg, initialMass, initialScale, randomMass);
      (Abs(initialMass) >= FloatEpsilon * 8.0 ==> d.currentMass == initialMass && d.scale == initialScale) &&
      (initialMass == 0.0 ==> d.currentMass == Clamp(randomMass, cfg.massMin, cfg.massMax)) &&
      d.lifeTimer == (if cfg.autoDestroyTime > 0.0 then cfg.autoDestroyTime else 0.0) &&
      !d.isOffScreen && d.offScreenTimer == 0.0 && !d.destroyed
  {
    ApproximatelyZero(initialMass);
  }

  /** When the lifetime runs out the obstacle is destroyed and the off-screen check is skipped for
      that frame; a running lifetime only counts down. */
  lemma LifetimeExpiry(cfg: ObstacleConfig, d: ObstacleData, dt: real, viewport: Vec2)
    ensures var r := ObstacleStep(cfg, d, dt, viewport);
      (d.lifeTimer > 0.0 ==> r.lifeTimer == d.lifeTimer - dt) &&
      (d.lifeTimer <= 0.0 ==> r.lifeTimer == d.lifeTimer) &&
      (d.lifeTimer > 0.0 && d.lifeTimer - dt <= 0.0 ==>
        r.destroyed && r.isOffScreen == d.isOffScreen && r.offScreenTimer == d.offScreenTimer)
  {
  }

  /** The off-screen timer: the first frame outside the view raises the flag and zeroes the timer,
      later frames outside add the frame time and destroy once the delay is reached, a frame inside
      the view clears both. Only this check or the lifetime destroys the obstacle. */
  lemma OffScreenTimerRules(cfg: ObstacleConfig, d: ObstacleData, dt: real, viewport: Vec2)
    requires cfg.destroyOnExitScreen && !(d.lifeTimer > 0.0 && d.lifeTimer - dt <= 0.0)
    ensures var r := ObstacleStep(cfg, d, dt, viewport);
      (OffViewport(viewport) && !d.isOffScreen ==>
        r.isOffScreen && r.offScreenTimer == 0.0 && r.destroyed == d.destroyed) &&
      (OffViewport(viewport) && d.isOffScreen ==>
        r.isOffScreen && r.offScreenTimer == d.offScreenTimer + dt &&
        (r.destroyed <==> d.destroyed || d.offScreenTimer + dt >= cfg.destroyDelayAfterExit)) &&
      (!OffViewport(viewport) ==> !r.isOffScreen && r.offScreenTimer == 0.0 && r.destroyed == d.destroyed)
  {
  }

  /** With the off-screen check disabled only the lifetime can destroy the obstacle. */
  lemma NoScreenCheckWhenDisabled(cfg: ObstacleConfig, d: ObstacleData, dt: real, viewport: Vec2)
    requires !cfg.destroyOnExitScreen
    ensures var r := ObstacleStep(cfg, d, dt, viewport);
      r.isOffScreen == d.isOffScreen && r.offScreenTimer == d.offScreenTimer &&
      (r.destroyed <==> d.destroyed || (d.lifeTimer > 0.0 && d.lifeTimer - dt <= 0.0))
  {
  }

  /** The off-screen timer is zero while on screen and never negative. */
  predicate ScreenInv(d: ObstacleData)
  {
    d.offScreenTimer >= 0.0 && (!d.isOffScreen ==> d.offScreenTimer == 0.0)
  }

  lemma StepKeepsScreenInv(cfg: ObstacleConfig, d: ObstacleData, dt: real, viewport: Vec2)
    requires ScreenInv(d) && dt >= 0.0
    ensures ScreenInv(ObstacleStep(cfg, d, dt, viewport))
    ensures d.destroyed ==> ObstacleStep(cfg, d, dt, viewport).destroyed
  {
  }

  /** Total time of a run of frames. */
  function Sum(dts: seq<real>): real
  {
    if |dts| == 0 then 0.0 else dts[0] + Sum(dts[1..])
  }

  /** A run of frames with the obstacle at the same viewport point. */
  function Frames(cfg: ObstacleConfig, d: ObstacleData, dts: seq<real>, viewport: Vec2): ObstacleData
    decreases |dts|
  {
    if |dts| == 0 then d else Frames(cfg, ObstacleStep(cfg, d, dts[0], viewport), dts[1..], viewport)
  }

  /** An obstacle that stays off screen with no lifetime running accumulates every frame's time,
      and is destroyed once the accumulated time reaches the delay. */
  lemma {:induction false} StayingOffScreenDestroys(cfg: ObstacleConfig, d: ObstacleData, dts: seq<real>, viewport: Vec2)
    requires cfg.destroyOnExitScreen && OffViewport(viewport) && d.isOffScreen && d.lifeTimer <= 0.0
    ensures var r := Frames(cfg, d, dts, viewport);
      r.isOffScreen && r.lifeTimer == d.lifeTimer && r.offScreenTimer == d.offScreenTimer + Sum(dts) &&
      (d.destroyed ==> r.destroyed) &&
      (|dts| > 0 && r.offScreenTimer >= cfg.destroyDelayAfterExit ==> r.destroyed)
    decreases |dts|
  {
    if |dts| > 0 {
      var d1 := ObstacleStep(cfg, d, dts[0], viewport);
      StayingOffScreenDestroys(cfg, d1, dts[1..], viewport);
      if |dts| == 1 {
        assert dts[1..] == [];
      }
    }
  }
}
