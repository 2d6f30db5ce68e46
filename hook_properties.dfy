/** Properties of the heat-driven hook's frame (Assets/Scripts/Hook/HookSystem.cs), proved about
    the step functions of module Hook. */
module HookProperties {
  import opened UnityMath
  import opened Hook



  /** A direction switch happens exactly when A is pressed and the gate is open; Space and Shift
      never touch the direction. */
  lemma InputSwitchesIff(cfg: Config, h: HookData, cmd: Commands)
    ensures var r := InputStep(cfg, h, cmd);
            (r.dir != h.dir <==> cmd.aDown && CanSwitch(h)) && (r.dir == h.dir || r.dir == Flip(h.dir))
    ensures var r := InputStep(cfg, h, cmd);
            cmd.aDown && CanSwitch(h) ==>
              r.temperature == h.temperature + cfg.rotateSwitchHeat
              && r.rotateSwitchCDTimer == cfg.rotateSwitchCD && r.switchingDir
    ensures var r := InputStep(cfg, h, cmd);
            !(cmd.aDown && CanSwitch(h)) ==>
              r.temperature == h.temperature && r.rotateSwitchCDTimer == h.rotateSwitchCDTimer
              && r.switchingDir == h.switchingDir
  {
    var h1 := if cmd.spaceDown then SpacePressed(h) else h;
    assert CanSwitch(h1) == CanSwitch(h);
  }

  /** Input changes the motion state only by launching a ready hook on Space. */
  lemma InputLaunchesOnlyOnSpace(cfg: Config, h: HookData, cmd: Commands)
    ensures var r := InputStep(cfg, h, cmd);
            r.state != h.state <==> cmd.spaceDown && h.state == ReadyToLaunch
    ensures var r := InputStep(cfg, h, cmd);
            r.state != h.state ==> r.state == Launching
    ensures var r := InputStep(cfg, h, cmd);
            r.length == h.length && r.rotation == h.rotation && r.overheat == h.overheat
            && r.launchSpeed == h.launchSpeed && r.retrieveSpeed == h.retrieveSpeed
            && r.grabbedMass == h.grabbedMass && r.health == h.health
            && r.pendingResumes == h.pendingResumes && r.calls == h.calls
  {
  }

  /** A waiting hook's angle is the floored remainder of the advanced angle by a full turn. */
  lemma RotationStepIsFlooredMod(h: HookData, dt: real)
    ensures var a := h.rotation + PerFrame(h.rotateSpeed, dt);
            RotationStep(h, dt).rotation == a - 360.0 * (a / 360.0).Floor as real
  {
    Normalize360IsFlooredMod(h.rotation + PerFrame(h.rotateSpeed, dt));
  }

  /** The angle moves only while the hook waits to launch, and stays within a full turn. */
  lemma MotionRotatesOnlyWhenReady(cfg: Config, h: HookData, dt: real, outOfBounds: bool)
    ensures var r := MotionStep(cfg, h, dt, outOfBounds);
            r.rotation != h.rotation ==> h.state == ReadyToLaunch
    ensures var r := MotionStep(cfg, h, dt, outOfBounds);
            h.state == ReadyToLaunch ==> 0.0 <= r.rotation < 360.0 && r.length == h.length && r.state == h.state
  {
  }

  /** Leaving the screen calls a launching hook back; the tip resets its grab only on that
      transition, and a hook that reached full length this frame is not reset twice. */
  lemma OutOfBoundsRetrieves(cfg: Config, h: HookData, dt: real)
    requires h.state == Launching
    ensures var r := MotionStep(cfg, h, dt, true);
            r.state == Retrieving
            && r.calls == h.calls + (if h.length + PerFrame(h.launchSpeed, dt) >= cfg.maxLength then [] else [ResetGrabState])
  {
  }

  /** Heat from moving the rope counts the grabbed mass only on the way back, and the waiting
      hook heats in proportion to its rotation speed. */
  lemma HeatGainGrabbedMassOnlyWhileRetrieving(cfg: Config, h: HookData, dt: real, m: real)
    requires h.state != Retrieving
    ensures HeatGain(cfg, h.(grabbedMass := m), dt) == HeatGain(cfg, h, dt)
  {
  }

  lemma HeatGainNonnegative(cfg: Config, h: HookData, dt: real)
    requires WellFormed(cfg) && dt >= 0.0
    requires h.launchSpeed >= 0.0 && h.retrieveSpeed >= 0.0 && h.grabbedMass >= 0.0
    ensures HeatGain(cfg, h, dt) >= 0.0
  {
    if h.state == Launching || h.state == Retrieving {
      var totalMass := cfg.hookMass + (if h.state == Retrieving then h.grabbedMass else 0.0);
      var speed := if h.state == Launching then h.launchSpeed else h.retrieveSpeed;
      MulNonneg(totalMass, speed);
      MulNonneg(totalMass * speed, cfg.heatGenerationCoefficient);
    } else {
      MulNonneg(cfg.normalRotateHeatCoefficient, Abs(h.rotateSpeed));
      MulNonneg(cfg.normalRotateHeatCoefficient * Abs(h.rotateSpeed), cfg.hookMass);
    }
  }

  /** One explicit-Euler step of dissipation moves the temperature toward ambient without
      crossing it, as long as `k * dt` stays within 1 (with the fixed capacity of 1). */
  lemma DissipationTowardAmbient(cfg: Config, h: HookData, dt: real)
    requires 0.0 <= cfg.k * dt <= 1.0
    ensures var t := DissipationStep(cfg, h, dt).temperature;
            Min(h.temperature, AmbientTemperature) <= t <= Max(h.temperature, AmbientTemperature)
  {
    var delta := h.temperature - AmbientTemperature;
    var t := DissipationStep(cfg, h, dt).temperature;
    assert t - AmbientTemperature == delta * (1.0 - cfg.k * dt);
    ScaleBetween(delta, 1.0 - cfg.k * dt);
  }

  lemma ScaleBetween(x: real, u: real)
    requires 0.0 <= u <= 1.0
    ensures Min(x, 0.0) <= x * u <= Max(x, 0.0)
  {
    if x >= 0.0 {
      MulNonneg(x, u);
      MulNonneg(x, 1.0 - u);
      assert x - x * u == x * (1.0 - u);
    } else {
      MulNonneg(-x, u);
      MulNonneg(-x, 1.0 - u);
      assert x * u - x == (-x) * (1.0 - u);
    }
  }

  /** The overheat phases advance Normal -> Overheating -> Cooling -> Normal one step at a time. */
  lemma OverheatPhaseOrder(cfg: Config, h: HookData, dt: real)
    ensures var r := OverheatStep(cfg, h, dt);
            && (h.overheat == Normal ==> r.overheat in {Normal, Overheating})
            && (h.overheat == Overheating ==> r.overheat in {Overheating, Cooling})
            && (h.overheat == Cooling ==> r.overheat in {Cooling, Normal})
    ensures var r := OverheatStep(cfg, h, dt);
            (h.overheat == Normal && r.overheat == Overheating) <==>
              (h.overheat == Normal && h.temperature >= cfg.overheatThreshold)
    ensures var r := OverheatStep(cfg, h, dt);
            (h.overheat == Overheating && r.overheat == Cooling) <==>
              (h.overheat == Overheating && h.overheatTime + dt >= cfg.maxOverheatTime)
    ensures var r := OverheatStep(cfg, h, dt);
            (h.overheat == Cooling && r.overheat == Normal) <==>
              (h.overheat == Cooling && Max(0.0, h.temperature - PerFrame(cfg.coolingRate, dt)) <= cfg.overheatThreshold)
  {
  }

  /** Entering Overheating resets the elapsed time but leaves acceleration as it was. */
  lemma OverheatEntryKeepsAcceleration(cfg: Config, h: HookData, dt: real)
    requires h.overheat == Normal && h.temperature >= cfg.overheatThreshold
    ensures var r := OverheatStep(cfg, h, dt);
            r.overheat == Overheating && r.overheatTime == 0.0 && r.accelerating == h.accelerating
            && r.state == h.state && r.grabbedMass == h.grabbedMass && r.calls == h.calls
  {
  }

  /** Entering Cooling always stops acceleration and raises the cooling event; it releases the
      grab (and parks the hook, scheduling the resume) exactly when a loaded hook is retrieving. */
  lemma CoolingEntryReleases(cfg: Config, h: HookData, dt: real)
    requires h.overheat == Overheating && h.overheatTime + dt >= cfg.maxOverheatTime
    ensures var r := OverheatStep(cfg, h, dt);
            r.overheat == Cooling && !r.accelerating && r.overheatTime == 0.0 && r.length == h.length
    ensures var r := OverheatStep(cfg, h, dt);
            var release := h.grabbedMass > 0.0 && h.state == Retrieving;
            && r.calls == h.calls + (if release then [ReleaseAllGrabbedObjects] else []) + [OverheatEnterCooling]
            && (release ==> r.state == ReadyToLaunch && r.grabbedMass == 0.0
                            && r.pendingResumes == h.pendingResumes + [ResumeDelay])
            && (!release ==> r.state == h.state && r.grabbedMass == h.grabbedMass
                             && r.pendingResumes == h.pendingResumes)
  {
  }

  /** Cooling never takes the temperature below zero. */
  lemma CoolingFloorsAtZero(cfg: Config, h: HookData, dt: real)
    requires h.overheat == Cooling
    ensures var r := OverheatStep(cfg, h, dt);
            r.temperature >= 0.0
            && (h.temperature - PerFrame(cfg.coolingRate, dt) >= 0.0 ==> r.temperature == h.temperature - PerFrame(cfg.coolingRate, dt))
  {
  }

  /** A settled rotation target carries the accelerated speed exactly while accelerating. */
  lemma StateStepTarget(cfg: Config, h: HookData, dt: real, outOfBounds: bool)
    ensures var r := StateStep(cfg, h, dt, outOfBounds);
            !r.switchingDir ==> r.targetRotateSpeed == Directed(TargetSpeed(cfg, r.accelerating), r.dir)
  {
  }

  /** Retrieve speed is non-increasing in the magnitude of the grabbed mass. */
  lemma {:induction false} RetrieveSpeedMonotone(cfg: Config, accelerating: bool, m1: real, m2: real)
    requires cfg.baseRetrieveSpeed >= 0.0 && cfg.accelerateRetrieveSpeed >= 0.0
    requires m1 * m1 <= m2 * m2
    ensures TargetRetrieveSpeed(cfg, accelerating, m2) <= TargetRetrieveSpeed(cfg, accelerating, m1)
  {
    var b := (if accelerating then cfg.accelerateRetrieveSpeed else cfg.baseRetrieveSpeed) * 2.0;
    SquareNonneg(m1);
    DivideByLarger(b, 1.0 + m1 * m1, 1.0 + m2 * m2);
  }

  lemma DivideByLarger(b: real, d1: real, d2: real)
    requires b >= 0.0 && 0.0 < d1 <= d2
    ensures b / d2 <= b / d1
  {
    var q1 := b / d1;
    var q2 := b / d2;
    assert q1 * d1 == b && q2 * d2 == b;
    MulNonneg(q2, d2 - d1);
    assert q2 * d1 <= q1 * d1;
    if q2 > q1 {
      MulStrict(q2 - q1, d1);
      assert false;
    }
  }

  lemma MulStrict(p: real, u: real)
    requires p > 0.0 && u > 0.0
    ensures p * u > 0.0
  {
  }

  /** Without any load the retrieve speed is exactly twice the mode's base speed (or the floor). */
  lemma RetrieveSpeedUnloaded(cfg: Config, accelerating: bool)
    ensures TargetRetrieveSpeed(cfg, accelerating, 0.0)
            == Max(MinRetrieveSpeed, 2.0 * (if accelerating then cfg.accelerateRetrieveSpeed else cfg.baseRetrieveSpeed))
  {
  }

  /** Only due invokes run; the rest keep waiting; a due resume frees a parked hook. */
  lemma InvokeStepResumes(h: HookData)
    ensures var r := InvokeStep(h);
            && (forall p :: p in r.pendingResumes ==> p > 0.0)
            && (r.state != h.state <==> AnyDue(h.pendingResumes) && h.state == ReadyToLaunch)
            && (r.state != h.state ==> r.state == Retrieving)
  {
  }

  /** Resuming twice is the same as resuming once, so several due invokes act like one. */
  lemma ResumedIdempotent(h: HookData)
    ensures Resumed(Resumed(h)) == Resumed(h)
  {
  }

  // ---------------------------------------------------------------------------------------------
  // The frame invariant

  /** What holds between frames once `Init` has run. */
  predicate Inv(cfg: Config, h: HookData) {
    && cfg.standbyDistance <= h.length <= cfg.maxLength
    && 0.0 <= h.rotation < 360.0
    && h.launchSpeed >= 0.0 && h.retrieveSpeed >= 0.0
    && h.grabbedMass >= 0.0
    && h.overheatTime >= 0.0
    && h.health >= 0.0
    && (forall p :: p in h.pendingResumes ==> 0.0 < p <= ResumeDelay)
  }

  /** The invariant minus the bound on scheduled invokes, which holds only between frames. */
  predicate CoreInv(cfg: Config, h: HookData) {
    && cfg.standbyDistance <= h.length <= cfg.maxLength
    && 0.0 <= h.rotation < 360.0
    && h.launchSpeed >= 0.0 && h.retrieveSpeed >= 0.0
    && h.grabbedMass >= 0.0
    && h.overheatTime >= 0.0
    && h.health >= 0.0
  }

  predicate PendingAtMost(ps: seq<real>) {
    forall p :: p in ps ==> p <= ResumeDelay
  }

  lemma InitEstablishesInv(cfg: Config, h: HookData)
    requires WellFormed(cfg)
    requires forall p :: p in h.pendingResumes ==> 0.0 < p <= ResumeDelay
    ensures Inv(cfg, Initialised(cfg, h))
  {
  }

  /** Motion keeps the length inside the rope's reach and the angle inside a turn. */
  lemma MotionKeepsInv(cfg: Config, h: HookData, dt: real, outOfBounds: bool)
    requires WellFormed(cfg) && CoreInv(cfg, h) && dt >= 0.0
    ensures var r := MotionStep(cfg, h, dt, outOfBounds);
            CoreInv(cfg, r) && r.pendingResumes == h.pendingResumes
  {
    match h.state
    case ReadyToLaunch =>
    case Launching =>
    case Retrieving =>
  }

  lemma OverheatKeepsInv(cfg: Config, h: HookData, dt: real)
    requires CoreInv(cfg, h) && dt >= 0.0 && PendingAtMost(h.pendingResumes)
    ensures var r := OverheatStep(cfg, h, dt);
            CoreInv(cfg, r) && PendingAtMost(r.pendingResumes)
            && (forall p :: p in r.pendingResumes ==> p in h.pendingResumes || p == ResumeDelay)
  {
  }

  lemma StateStepKeepsInv(cfg: Config, h: HookData, dt: real, outOfBounds: bool)
    requires WellFormed(cfg) && CoreInv(cfg, h) && dt >= 0.0 && PendingAtMost(h.pendingResumes)
    ensures var r := StateStep(cfg, h, dt, outOfBounds);
            CoreInv(cfg, r) && PendingAtMost(r.pendingResumes)
  {
    var h1 := MotionStep(cfg, h, dt, outOfBounds);
    MotionKeepsInv(cfg, h, dt, outOfBounds);
    var h2 := HeatStep(cfg, h1, dt);
    var h3 := DissipationStep(cfg, h2, dt);
    OverheatKeepsInv(cfg, h3, dt);
  }

  lemma SmoothingKeepsInv(cfg: Config, h: HookData, dt: real)
    requires WellFormed(cfg) && CoreInv(cfg, h) && dt >= 0.0
    ensures CoreInv(cfg, SmoothingStep(cfg, h, dt))
  {
  }

  /** Every frame keeps the invariant: the rope stays within [standby, max], the angle within a
      turn, speeds and masses non-negative, and each scheduled resume within its 0.1 s delay. */
  lemma {:induction false} TickKeepsInv(cfg: Config, h: HookData, dt: real, cmd: Commands)
    requires WellFormed(cfg) && Inv(cfg, h) && dt >= 0.0
    ensures Inv(cfg, TickStep(cfg, h, dt, cmd))
  {
    var h0 := AgeStep(h, dt);
    assert PendingAtMost(h0.pendingResumes) by {
      forall p | p in h0.pendingResumes ensures p <= ResumeDelay {
        var i :| 0 <= i < |h0.pendingResumes| && h0.pendingResumes[i] == p;
        assert h.pendingResumes[i] in h.pendingResumes;
      }
    }
    var h1 := CDTimerStep(h0, dt);
    var h2 := InputStep(cfg, h1, cmd);
    InputLaunchesOnlyOnSpace(cfg, h1, cmd);
    var h3 := StateStep(cfg, h2, dt, cmd.outOfBounds);
    StateStepKeepsInv(cfg, h2, dt, cmd.outOfBounds);
    var h4 := SmoothingStep(cfg, h3, dt);
    SmoothingKeepsInv(cfg, h3, dt);
    var r := InvokeStep(h4);
    assert r.pendingResumes == StillPending(h4.pendingResumes);
  }

  /** With a stable step (`k * dt <= 1`) the temperature never goes negative. */
  lemma {:induction false} TickKeepsTemperatureNonnegative(cfg: Config, h: HookData, dt: real, cmd: Commands)
    requires WellFormed(cfg) && Inv(cfg, h) && dt >= 0.0 && cfg.k * dt <= 1.0
    requires h.temperature >= 0.0
    ensures TickStep(cfg, h, dt, cmd).temperature >= 0.0
  {
    var h1 := CDTimerStep(AgeStep(h, dt), dt);
    InputSwitchesIff(cfg, h1, cmd);
    InputLaunchesOnlyOnSpace(cfg, h1, cmd);
    StateStepKeepsTemperatureNonnegative(cfg, InputStep(cfg, h1, cmd), dt, cmd.outOfBounds);
  }

  lemma {:induction false} StateStepKeepsTemperatureNonnegative(cfg: Config, h: HookData, dt: real, outOfBounds: bool)
    requires WellFormed(cfg) && CoreInv(cfg, h) && dt >= 0.0 && cfg.k * dt <= 1.0
    requires h.temperature >= 0.0
    ensures StateStep(cfg, h, dt, outOfBounds).temperature >= 0.0
  {
    var m1 := MotionStep(cfg, h, dt, outOfBounds);
    MotionKeepsInv(cfg, h, dt, outOfBounds);
    var m2 := HeatStep(cfg, m1, dt);
    HeatGainNonnegative(cfg, m1, dt);
    MulNonneg(cfg.k, dt);
    DissipationTowardAmbient(cfg, m2, dt);
  }

  /** Overheating is never left for Normal within one frame: the only way back is through Cooling. */
  lemma TickNeverSkipsCooling(cfg: Config, h: HookData, dt: real, cmd: Commands)
    requires h.overheat == Overheating
    ensures TickStep(cfg, h, dt, cmd).overheat != Normal
  {
    var h2 := InputStep(cfg, CDTimerStep(AgeStep(h, dt), dt), cmd);
    InputLaunchesOnlyOnSpace(cfg, CDTimerStep(AgeStep(h, dt), dt), cmd);
    OverheatPhaseOrder(cfg, DissipationStep(cfg, HeatStep(cfg, MotionStep(cfg, h2, dt, cmd.outOfBounds), dt), dt), dt);
  }
}
