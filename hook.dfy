/** The heat-driven grappling hook of the player ship (Assets/Scripts/Hook/HookSystem.cs).
    Every frame runs, in this order: cooldown timers, input, motion/heat/overheat, speed smoothing;
    Unity's delayed invoke of the post-release resume runs after the frame's update.
    The pure `...Step` functions say what each part of the frame does to a snapshot of the fields;
    the class `HookSystem` updates its fields in place and is proved to agree with them. */
module Hook {
  import opened UnityMath

  datatype HookState = ReadyToLaunch | Launching | Retrieving
  datatype RotationDir = Clockwise | CounterClockwise
  datatype OverheatState = Overheating | Normal | Cooling

  /** Calls the hook makes into collaborators it does not own (the tip's collision handler,
      the subscribers of the overheat event, the death handler), in the order they are made. */
  datatype HookCall =
    | OnRetrieveComplete
    | ReleaseAllGrabbedObjects
    | ResetGrabState
    | OverheatEnterCooling
    | Die

  /** The inspector-tunable parameters. */
  datatype Config = Config(
    maxLength: real,
    standbyDistance: real,
    baseRotateSpeed: real,
    baseLaunchSpeed: real,
    baseRetrieveSpeed: real,
    accelerateRotateSpeed: real,
    accelerateLaunchSpeed: real,
    accelerateRetrieveSpeed: real,
    initialTemperature: real,
    overheatThreshold: real,
    maxOverheatTime: real,
    rotateSwitchHeat: real,
    coolingRate: real,
    normalRotateHeatCoefficient: real,
    k: real,
    rotateSwitchCD: real,
    accelerateCD: real,
    rotationSmoothSpeed: real,
    switchDirSmoothSpeed: real,
    hookMass: real,
    heatGenerationCoefficient: real,
    maxHealth: real)

  /** The private heat capacity `c` and ambient temperature, both fixed. */
  const HeatCapacity: real := 1.0
  const AmbientTemperature: real := 0.0
  /** The delay of the resume that follows a forced release, in seconds. */
  const ResumeDelay: real := 0.1
  /** The floor of the retrieve speed. */
  const MinRetrieveSpeed: real := 0.1

  /** The momentum of the hook's tip: launch speed times the tip's mass. The tip's mass is read
      by the collision code as `hookTipMass`, a member the component does not declare, so the
      callers take it as a parameter. */
  function TipMomentum(launchSpeed: real, tipMass: real): (m: real)
    ensures launchSpeed >= 0.0 && tipMass >= 0.0 ==> m >= 0.0
    ensures tipMass == 0.0 ==> m == 0.0
    ensures tipMass > 0.0 ==> (m > 0.0 <==> launchSpeed > 0.0)
  {
    MulNonnegWhen(launchSpeed, tipMass);
    MulPositiveWhen(launchSpeed, tipMass);
    launchSpeed * tipMass
  }

  /** A configuration the game can sensibly run with: non-negative rates, masses and speeds,
      and a standby distance inside the rope's reach. */
  predicate WellFormed(cfg: Config) {
    && 0.0 <= cfg.standbyDistance <= cfg.maxLength
    && cfg.baseLaunchSpeed >= 0.0 && cfg.accelerateLaunchSpeed >= 0.0
    && cfg.baseRetrieveSpeed >= 0.0 && cfg.accelerateRetrieveSpeed >= 0.0
    && cfg.rotationSmoothSpeed >= 0.0 && cfg.switchDirSmoothSpeed >= 0.0
    && cfg.hookMass >= 0.0 && cfg.heatGenerationCoefficient >= 0.0
    && cfg.normalRotateHeatCoefficient >= 0.0 && cfg.k >= 0.0
    && cfg.rotateSwitchHeat >= 0.0 && cfg.initialTemperature >= 0.0
    && cfg.maxHealth >= 0.0
  }

  /** The values the component ships with. */
  function DefaultConfig(): (cfg: Config)
    ensures WellFormed(cfg)
    ensures cfg.standbyDistance < cfg.maxLength
  {
    Config(
      maxLength := 10.0, standbyDistance := 3.0,
      baseRotateSpeed := 90.0, baseLaunchSpeed := 10.0, baseRetrieveSpeed := 10.0,
      accelerateRotateSpeed := 180.0, accelerateLaunchSpeed := 18.0, accelerateRetrieveSpeed := 22.0,
      initialTemperature := 0.0, overheatThreshold := 100.0, maxOverheatTime := 5.0,
      rotateSwitchHeat := 5.0, coolingRate := 10.0, normalRotateHeatCoefficient := 0.1, k := 0.1,
      rotateSwitchCD := 1.0, accelerateCD := 2.0,
      rotationSmoothSpeed := 5.0, switchDirSmoothSpeed := 8.0,
      hookMass := 0.5, heatGenerationCoefficient := 0.3, maxHealth := 100.0)
  }

  /** The per-frame inputs: key presses of this frame and the camera's out-of-screen verdict. */
  datatype Commands = Commands(spaceDown: bool, aDown: bool, shiftHeld: bool, outOfBounds: bool)

  /** A snapshot of the hook's mutable fields. `pendingResumes` holds the time left on each
      scheduled resume; `calls` is the log of calls made to collaborators. */
  datatype HookData = HookData(
    state: HookState,
    dir: RotationDir,
    length: real,
    rotation: real,
    temperature: real,
    health: real,
    overheat: OverheatState,
    overheatTime: real,
    rotateSpeed: real,
    launchSpeed: real,
    retrieveSpeed: real,
    score: int,
    accelerating: bool,
    rotateSwitchCDTimer: real,
    accelerateCDTimer: real,
    switchingDir: bool,
    targetRotateSpeed: real,
    grabbedMass: real,
    pendingResumes: seq<real>,
    calls: seq<HookCall>)

  // ---------------------------------------------------------------------------------------------
  // Specification of each part of the frame

  /** The field initialisers, in force until `Init` runs. */
  function FieldDefaults(): (h: HookData)
    ensures h.state == ReadyToLaunch && h.overheat == Normal && h.dir == Clockwise
    ensures h.pendingResumes == [] && h.calls == []
  {
    HookData(ReadyToLaunch, Clockwise, 0.0, 0.0, 0.0, 0.0, Normal, 0.0, 0.0, 0.0, 0.0, 0,
             false, 0.0, 0.0, false, 0.0, 0.0, [], [])
  }

  /** `Init`: every field back to its starting value; scheduled invokes and past calls stay. */
  function Initialised(cfg: Config, h: HookData): (r: HookData)
    ensures r.state == ReadyToLaunch && r.dir == Clockwise && r.overheat == Normal
    ensures r.length == cfg.standbyDistance && r.rotation == 0.0
    ensures r.temperature == cfg.initialTemperature && r.health == cfg.maxHealth && r.score == 0
    ensures !r.accelerating && !r.switchingDir && r.grabbedMass == 0.0
    ensures r.rotateSpeed == r.targetRotateSpeed == cfg.baseRotateSpeed
    ensures r.pendingResumes == h.pendingResumes && r.calls == h.calls
  {
    h.(state := ReadyToLaunch, dir := Clockwise, length := cfg.standbyDistance, rotation := 0.0,
       temperature := cfg.initialTemperature, health := cfg.maxHealth, score := 0,
       overheat := Normal, overheatTime := 0.0,
       rotateSwitchCDTimer := 0.0, accelerateCDTimer := 0.0,
       accelerating := false, switchingDir := false,
       rotateSpeed := cfg.baseRotateSpeed, launchSpeed := cfg.baseLaunchSpeed,
       retrieveSpeed := cfg.baseRetrieveSpeed, targetRotateSpeed := cfg.baseRotateSpeed,
       grabbedMass := 0.0)
  }

  /** A cooldown timer counts down only while it is positive. */
  function CountDown(timer: real, dt: real): (r: real)
    ensures timer <= 0.0 ==> r == timer
    ensures timer > 0.0 && dt >= 0.0 ==> r <= timer
    ensures timer > 0.0 ==> timer - r == dt
  {
    if timer > 0.0 then timer - dt else timer
  }

  /** `UpdateCDTimers`. */
  function CDTimerStep(h: HookData, dt: real): (r: HookData)
    ensures r == h.(rotateSwitchCDTimer := r.rotateSwitchCDTimer, accelerateCDTimer := r.accelerateCDTimer)
  {
    h.(rotateSwitchCDTimer := CountDown(h.rotateSwitchCDTimer, dt),
       accelerateCDTimer := CountDown(h.accelerateCDTimer, dt))
  }

  /** `SwitchLaunchOrRetrieve`: Space only ever launches a hook that is ready. */
  function SpacePressed(h: HookData): (r: HookData)
    ensures r == h.(state := r.state)
    ensures r.state != h.state <==> h.state == ReadyToLaunch
    ensures r.state != h.state ==> r.state == Launching
  {
    if h.state == ReadyToLaunch then h.(state := Launching) else h
  }

  /** The speed the rotation aims for in the current mode, before the direction's sign. */
  function TargetSpeed(cfg: Config, accelerating: bool): (s: real)
    ensures accelerating ==> s == cfg.baseRotateSpeed + cfg.accelerateRotateSpeed
    ensures !accelerating ==> s == cfg.baseRotateSpeed
  {
    cfg.baseRotateSpeed + (if accelerating then cfg.accelerateRotateSpeed else 0.0)
  }

  function Flip(d: RotationDir): (r: RotationDir)
    ensures r != d
  {
    if d == Clockwise then CounterClockwise else Clockwise
  }

  /** A rotation speed signed by its direction: clockwise is positive. */
  function Directed(speed: real, d: RotationDir): (r: real)
    ensures d == Clockwise ==> r == speed
    ensures d == CounterClockwise ==> r == -speed
  {
    if d == Clockwise then speed else -speed
  }

  /** `StartSwitchRotationDir`: flip the direction, aim the rotation speed at the new direction,
      heat up and start the switch cooldown. */
  function SwitchStarted(cfg: Config, h: HookData): (r: HookData)
    ensures r.dir == Flip(h.dir) && r.switchingDir
    ensures r.targetRotateSpeed == Directed(TargetSpeed(cfg, h.accelerating), r.dir)
    ensures r.temperature == h.temperature + cfg.rotateSwitchHeat
    ensures r.rotateSwitchCDTimer == cfg.rotateSwitchCD
    ensures r == h.(dir := r.dir, switchingDir := true, targetRotateSpeed := r.targetRotateSpeed,
                    temperature := r.temperature, rotateSwitchCDTimer := r.rotateSwitchCDTimer)
  {
    var target := Directed(TargetSpeed(cfg, h.accelerating), Flip(h.dir));
    h.(switchingDir := true, targetRotateSpeed := target, dir := Flip(h.dir),
       temperature := h.temperature + cfg.rotateSwitchHeat, rotateSwitchCDTimer := cfg.rotateSwitchCD)
  }

  /** The gate on the A key. No motion state is checked. */
  predicate CanSwitch(h: HookData) {
    !h.switchingDir && h.overheat == Normal && h.rotateSwitchCDTimer <= 0.0
  }

  /** The accelerate key: held turns it on when allowed, released turns it off and starts the cooldown. */
  function AccelerateInput(cfg: Config, h: HookData, shiftHeld: bool): (r: HookData)
    ensures r == h.(accelerating := r.accelerating, accelerateCDTimer := r.accelerateCDTimer)
    ensures r.accelerating && !h.accelerating <==>
              shiftHeld && h.overheat == Normal && h.accelerateCDTimer <= 0.0 && !h.accelerating
    ensures !r.accelerating && h.accelerating <==> !shiftHeld && h.accelerating
    ensures r.accelerateCDTimer != h.accelerateCDTimer ==> r.accelerateCDTimer == cfg.accelerateCD
    ensures !r.accelerating && h.accelerating ==> r.accelerateCDTimer == cfg.accelerateCD
  {
    if shiftHeld && !h.accelerating && h.overheat == Normal && h.accelerateCDTimer <= 0.0 then
      h.(accelerating := true)
    else if !shiftHeld && h.accelerating then
      h.(accelerating := false, accelerateCDTimer := cfg.accelerateCD)
    else h
  }

  /** `HandleInput`: Space, then A, then Shift. */
  function InputStep(cfg: Config, h: HookData, cmd: Commands): (r: HookData)
    ensures r == h.(state := r.state, dir := r.dir, switchingDir := r.switchingDir,
                    targetRotateSpeed := r.targetRotateSpeed, temperature := r.temperature,
                    rotateSwitchCDTimer := r.rotateSwitchCDTimer, accelerating := r.accelerating,
                    accelerateCDTimer := r.accelerateCDTimer)
  {
    var h1 := if cmd.spaceDown then SpacePressed(h) else h;
    var h2 := if cmd.aDown && CanSwitch(h1) then SwitchStarted(cfg, h1) else h1;
    AccelerateInput(cfg, h2, cmd.shiftHeld)
  }

  /** The angle after turning at `speed` for `dt` seconds, wrapped into a full turn. */
  function Turned(rotation: real, speed: real, dt: real): (r: real)
    ensures 0.0 <= r < 360.0
  {
    Normalize360(rotation + PerFrame(speed, dt))
  }

  /** `UpdateRotation`: advance by speed times time and wrap into a full turn. */
  function RotationStep(h: HookData, dt: real): (r: HookData)
    ensures r == h.(rotation := r.rotation)
    ensures 0.0 <= r.rotation < 360.0
  {
    h.(rotation := Turned(h.rotation, h.rotateSpeed, dt))
  }

  /** `UpdateLaunching`: extend; at full length clamp and start retrieving in the same frame. */
  function LaunchStep(cfg: Config, h: HookData, dt: real): (r: HookData)
    requires h.state == Launching
    ensures r == h.(length := r.length, state := r.state)
    ensures r.state == Retrieving <==> h.length + PerFrame(h.launchSpeed, dt) >= cfg.maxLength
    ensures r.state != Retrieving ==> r.state == h.state
    ensures r.state == Retrieving ==> r.length == cfg.maxLength
    ensures r.state != Retrieving ==> r.length == h.length + PerFrame(h.launchSpeed, dt) < cfg.maxLength
  {
    var len := h.length + PerFrame(h.launchSpeed, dt);
    if len >= cfg.maxLength then h.(length := cfg.maxLength, state := Retrieving)
    else h.(length := len)
  }

  /** `UpdateRetrieving`: shorten; at standby clamp, become ready and tell the tip handler once. */
  function RetrieveStep(cfg: Config, h: HookData, dt: real): (r: HookData)
    requires h.state == Retrieving
    ensures r == h.(length := r.length, state := r.state, calls := r.calls)
    ensures r.state == ReadyToLaunch <==> h.length - PerFrame(h.retrieveSpeed, dt) <= cfg.standbyDistance
    ensures r.state != ReadyToLaunch ==> r.state == h.state
    ensures r.state == ReadyToLaunch ==> r.length == cfg.standbyDistance && r.calls == h.calls + [OnRetrieveComplete]
    ensures r.state != ReadyToLaunch ==>
              r.length == h.length - PerFrame(h.retrieveSpeed, dt) > cfg.standbyDistance && r.calls == h.calls
  {
    var len := h.length - PerFrame(h.retrieveSpeed, dt);
    if len <= cfg.standbyDistance then
      h.(length := cfg.standbyDistance, state := ReadyToLaunch, calls := h.calls + [OnRetrieveComplete])
    else h.(length := len)
  }

  /** `RetrieveHook`: only a launching hook is called back, and the tip is told to drop its grab. */
  function HookRetrieved(h: HookData): (r: HookData)
    ensures r == h.(state := r.state, calls := r.calls)
    ensures r.state != h.state <==> h.state == Launching
    ensures r.state != h.state ==> r.state == Retrieving && r.calls == h.calls + [ResetGrabState]
    ensures r.state == h.state ==> r.calls == h.calls
  {
    if h.state == Launching then h.(state := Retrieving, calls := h.calls + [ResetGrabState]) else h
  }

  /** The motion part of `UpdateState`, chosen by the state the frame started in. */
  function MotionStep(cfg: Config, h: HookData, dt: real, outOfBounds: bool): (r: HookData)
    ensures r == h.(rotation := r.rotation, length := r.length, state := r.state, calls := r.calls)
  {
    match h.state
    case ReadyToLaunch => RotationStep(h, dt)
    case Launching =>
      var h1 := LaunchStep(cfg, h, dt);
      if outOfBounds then HookRetrieved(h1) else h1
    case Retrieving => RetrieveStep(cfg, h, dt)
  }

  /** Heat produced this frame, judged on the state after the motion step. */
  function HeatGain(cfg: Config, h: HookData, dt: real): real {
    if h.state == Launching || h.state == Retrieving then
      var totalMass := cfg.hookMass + (if h.state == Retrieving then h.grabbedMass else 0.0);
      var speed := if h.state == Launching then h.launchSpeed else h.retrieveSpeed;
      PerFrame(totalMass * speed * cfg.heatGenerationCoefficient, dt)
    else
      PerFrame(cfg.normalRotateHeatCoefficient * Abs(h.rotateSpeed) * cfg.hookMass, dt)
  }

  function HeatStep(cfg: Config, h: HookData, dt: real): (r: HookData)
    ensures r == h.(temperature := r.temperature)
  {
    h.(temperature := h.temperature + HeatGain(cfg, h, dt))
  }

  /** `CalculateHeatDissipationPower`: Newton cooling toward the ambient temperature. */
  function DissipationPower(cfg: Config, temperature: real): (p: real)
    ensures temperature == AmbientTemperature ==> p == 0.0
    ensures cfg.k >= 0.0 && temperature >= AmbientTemperature ==> p >= 0.0
  {
    var delta := temperature - AmbientTemperature;
    MulNonnegWhen(delta, cfg.k);
    delta * cfg.k
  }

  function DissipationStep(cfg: Config, h: HookData, dt: real): (r: HookData)
    ensures r == h.(temperature := r.temperature)
  {
    var heatChange := -PerFrame(DissipationPower(cfg, h.temperature), dt);
    h.(temperature := h.temperature + heatChange / HeatCapacity)
  }

  /** `ReleaseGrabbedObjects`: drop everything, park the hook where it is and schedule the resume. */
  function Released(h: HookData): (r: HookData)
    ensures r.state == ReadyToLaunch && r.length == h.length && r.grabbedMass == 0.0
    ensures r.pendingResumes == h.pendingResumes + [ResumeDelay]
    ensures r.calls == h.calls + [ReleaseAllGrabbedObjects]
    ensures r == h.(state := ReadyToLaunch, grabbedMass := 0.0, pendingResumes := r.pendingResumes, calls := r.calls)
  {
    h.(calls := h.calls + [ReleaseAllGrabbedObjects], grabbedMass := 0.0, state := ReadyToLaunch,
       pendingResumes := h.pendingResumes + [ResumeDelay])
  }

  /** `ResumeRetrieveAfterRelease`: retrieve again only if the hook is still parked. */
  function Resumed(h: HookData): (r: HookData)
    ensures r == h.(state := r.state)
    ensures r.state != h.state <==> h.state == ReadyToLaunch
    ensures r.state != h.state ==> r.state == Retrieving
  {
    if h.state == ReadyToLaunch then h.(state := Retrieving) else h
  }

  /** The overheat phase machine. */
  function OverheatStep(cfg: Config, h: HookData, dt: real): (r: HookData)
    ensures r == h.(overheat := r.overheat, overheatTime := r.overheatTime, accelerating := r.accelerating,
                    calls := r.calls, state := r.state, grabbedMass := r.grabbedMass,
                    pendingResumes := r.pendingResumes, temperature := r.temperature)
  {
    match h.overheat
    case Normal =>
      if h.temperature >= cfg.overheatThreshold then h.(overheat := Overheating, overheatTime := 0.0)
      else h.(accelerating := h.accelerating && h.accelerateCDTimer <= 0.0)
    case Overheating => OverheatCountdown(cfg, h, dt)
    case Cooling =>
      var t := Max(0.0, h.temperature - PerFrame(cfg.coolingRate, dt));
      h.(temperature := t, overheat := if t <= cfg.overheatThreshold then Normal else Cooling)
  }

  /** The `Overheating` case: the overheat timer runs, and at its maximum anything grabbed while
      retrieving is released and cooling starts. */
  function OverheatCountdown(cfg: Config, h: HookData, dt: real): (r: HookData)
    ensures r == h.(overheat := r.overheat, overheatTime := r.overheatTime, accelerating := r.accelerating,
                    calls := r.calls, state := r.state, grabbedMass := r.grabbedMass,
                    pendingResumes := r.pendingResumes)
  {
    var h1 := h.(overheatTime := h.overheatTime + dt);
    if h1.overheatTime >= cfg.maxOverheatTime then
      var h2 := if h1.grabbedMass > 0.0 && h1.state == Retrieving then Released(h1) else h1;
      h2.(overheat := Cooling, overheatTime := 0.0, calls := h2.calls + [OverheatEnterCooling],
          accelerating := false)
    else h1
  }

  /** The rotation target follows the mode and direction unless a switch is still settling. */
  function TargetRotationStep(cfg: Config, h: HookData): (r: HookData)
    ensures r == h.(targetRotateSpeed := r.targetRotateSpeed)
    ensures h.switchingDir ==> r == h
    ensures !h.switchingDir ==> r.targetRotateSpeed == Directed(TargetSpeed(cfg, h.accelerating), h.dir)
  {
    var targetSpeed := TargetSpeed(cfg, h.accelerating);
    if !h.switchingDir then h.(targetRotateSpeed := Directed(targetSpeed, h.dir)) else h
  }

  /** `UpdateState`. */
  function StateStep(cfg: Config, h: HookData, dt: real, outOfBounds: bool): HookData {
    var h1 := MotionStep(cfg, h, dt, outOfBounds);
    var h2 := HeatStep(cfg, h1, dt);
    var h3 := DissipationStep(cfg, h2, dt);
    var h4 := OverheatStep(cfg, h3, dt);
    TargetRotationStep(cfg, h4)
  }

  /** `CalculateTargetRetrieveSpeed`: heavier loads come back slower, but never below 0.1. */
  function TargetRetrieveSpeed(cfg: Config, accelerating: bool, grabbedMass: real): (s: real)
    ensures s >= MinRetrieveSpeed
  {
    var baseSpeed := if accelerating then cfg.accelerateRetrieveSpeed else cfg.baseRetrieveSpeed;
    SquareNonneg(grabbedMass);
    Max(MinRetrieveSpeed, baseSpeed * 2.0 / (1.0 + grabbedMass * grabbedMass))
  }

  /** The largest change of the rotation speed allowed in a frame. */
  function MaxRotateChange(cfg: Config, h: HookData, dt: real): real {
    PerFrame(if h.switchingDir then cfg.switchDirSmoothSpeed else cfg.rotationSmoothSpeed, dt)
  }

  /** The rotation speed steps toward its target by at most the allowed change; a switch in
      progress is over once the target is reached. */
  function RotateSpeedStep(cfg: Config, h: HookData, dt: real): (r: HookData)
    ensures r == h.(rotateSpeed := r.rotateSpeed, switchingDir := r.switchingDir)
    ensures r.switchingDir <==> h.switchingDir && Abs(h.targetRotateSpeed - h.rotateSpeed) > MaxRotateChange(cfg, h, dt)
    ensures Abs(h.targetRotateSpeed - h.rotateSpeed) <= MaxRotateChange(cfg, h, dt) ==> r.rotateSpeed == h.targetRotateSpeed
    ensures MaxRotateChange(cfg, h, dt) >= 0.0 ==>
              Abs(r.rotateSpeed - h.rotateSpeed) <= MaxRotateChange(cfg, h, dt)
              && Min(h.rotateSpeed, h.targetRotateSpeed) <= r.rotateSpeed <= Max(h.rotateSpeed, h.targetRotateSpeed)
  {
    var maxChange := MaxRotateChange(cfg, h, dt);
    var diff := h.targetRotateSpeed - h.rotateSpeed;
    if Abs(diff) > maxChange then h.(rotateSpeed := h.rotateSpeed + Sign(diff) * maxChange)
    else h.(rotateSpeed := h.targetRotateSpeed, switchingDir := false)
  }

  /** The launch speed for the current mode. */
  function TargetLaunchSpeed(cfg: Config, accelerating: bool): real {
    if accelerating then cfg.accelerateLaunchSpeed else cfg.baseLaunchSpeed
  }

  /** Launch speed moves toward the mode's launch speed by at most `rotationSmoothSpeed * dt`. */
  function LaunchSpeedStep(cfg: Config, h: HookData, dt: real): (r: HookData)
    ensures r == h.(launchSpeed := r.launchSpeed)
    ensures PerFrame(cfg.rotationSmoothSpeed, dt) >= 0.0 ==>
              && Abs(r.launchSpeed - h.launchSpeed) <= PerFrame(cfg.rotationSmoothSpeed, dt)
              && Min(h.launchSpeed, TargetLaunchSpeed(cfg, h.accelerating)) <= r.launchSpeed
              && r.launchSpeed <= Max(h.launchSpeed, TargetLaunchSpeed(cfg, h.accelerating))
    ensures Abs(TargetLaunchSpeed(cfg, h.accelerating) - h.launchSpeed) <= PerFrame(cfg.rotationSmoothSpeed, dt) ==>
              r.launchSpeed == TargetLaunchSpeed(cfg, h.accelerating)
  {
    h.(launchSpeed := MoveTowards(h.launchSpeed, TargetLaunchSpeed(cfg, h.accelerating), PerFrame(cfg.rotationSmoothSpeed, dt)))
  }

  /** `UpdateSpeedSmoothing`. */
  function SmoothingStep(cfg: Config, h: HookData, dt: real): (r: HookData)
    ensures r == h.(rotateSpeed := r.rotateSpeed, switchingDir := r.switchingDir,
                    launchSpeed := r.launchSpeed, retrieveSpeed := r.retrieveSpeed)
    ensures r.retrieveSpeed == TargetRetrieveSpeed(cfg, h.accelerating, h.grabbedMass)
  {
    var h1 := RotateSpeedStep(cfg, h, dt);
    var h2 := LaunchSpeedStep(cfg, h1, dt);
    h2.(retrieveSpeed := TargetRetrieveSpeed(cfg, h2.accelerating, h2.grabbedMass))
  }

  /** The time left on every scheduled invoke after `dt` more seconds. */
  function Aged(ps: seq<real>, dt: real): (r: seq<real>)
    ensures |r| == |ps|
    ensures forall i :: 0 <= i < |ps| ==> r[i] == ps[i] - dt
  {
    seq(|ps|, i requires 0 <= i < |ps| => ps[i] - dt)
  }

  function AgeStep(h: HookData, dt: real): (r: HookData)
    ensures r == h.(pendingResumes := Aged(h.pendingResumes, dt))
  {
    h.(pendingResumes := Aged(h.pendingResumes, dt))
  }

  /** Whether some scheduled resume has come due. */
  predicate AnyDue(ps: seq<real>) {
    exists i :: 0 <= i < |ps| && ps[i] <= 0.0
  }

  /** The scheduled resumes that have not come due, in their order. */
  function StillPending(ps: seq<real>): (r: seq<real>)
    ensures forall x :: x in r <==> x in ps && x > 0.0
    ensures forall k :: 0 <= k < |r| ==> r[k] > 0.0
    ensures |r| <= |ps|
  {
    if ps == [] then [] else
    var rest := StillPending(ps[..|ps| - 1]);
    var last := ps[|ps| - 1];
    assert ps == ps[..|ps| - 1] + [last];
    if last > 0.0 then rest + [last] else rest
  }

  /** One scheduled resume is kept exactly when it has time left. */
  lemma StillPendingSingle(x: real)
    ensures StillPending([x]) == if x > 0.0 then [x] else []
  {
    assert [x][..0] == [];
  }

  /** Dropping the due resumes works piecewise: the waiting ones keep their order and their
      number, whatever list they were scheduled in. */
  lemma {:induction false} StillPendingAppend(a: seq<real>, b: seq<real>)
    ensures StillPending(a + b) == StillPending(a) + StillPending(b)
    decreases |b|
  {
    if b == [] {
      assert a + b == a;
    } else {
      var b' := b[..|b| - 1];
      var last := b[|b| - 1];
      assert (a + b)[..|a + b| - 1] == a + b';
      assert (a + b)[|a + b| - 1] == last;
      StillPendingAppend(a, b');
    }
  }

  /** The delayed invokes that run after the frame's update: each due one resumes once. */
  function InvokeStep(h: HookData): (r: HookData)
    ensures r == h.(state := r.state, pendingResumes := r.pendingResumes)
  {
    var h1 := if AnyDue(h.pendingResumes) then Resumed(h) else h;
    h1.(pendingResumes := StillPending(h.pendingResumes))
  }

  /** One whole frame of `Update`, followed by the delayed invokes that came due during it. */
  function UpdateStep(cfg: Config, h: HookData, dt: real, cmd: Commands): HookData {
    var h1 := CDTimerStep(h, dt);
    var h2 := InputStep(cfg, h1, cmd);
    var h3 := StateStep(cfg, h2, dt, cmd.outOfBounds);
    SmoothingStep(cfg, h3, dt)
  }

  function TickStep(cfg: Config, h: HookData, dt: real, cmd: Commands): HookData {
    InvokeStep(UpdateStep(cfg, AgeStep(h, dt), dt, cmd))
  }

  /** `TakeDamage`: health never drops below zero, and reaching zero calls `Die`. */
  function Damaged(h: HookData, damage: real): (r: HookData)
    ensures r == h.(health := r.health, calls := r.calls)
    ensures r.health >= 0.0
    ensures r.health == 0.0 <==> h.health - damage <= 0.0
    ensures h.health - damage >= 0.0 ==> r.health == h.health - damage
    ensures r.calls == h.calls + (if r.health == 0.0 then [Die] else [])
  {
    var health := Max(0.0, h.health - damage);
    h.(health := health, calls := if health <= 0.0 then h.calls + [Die] else h.calls)
  }

  // ---------------------------------------------------------------------------------------------
  // The component

  class HookSystem {
    const cfg: Config

    var currentState: HookState
    var currentDir: RotationDir
    var currentLength: real
    var currentRotation: real
    var currentTemperature: real
    var currentHealth: real
    var currentOverheatState: OverheatState
    var currentOverheatTime: real
    var currentRotateSpeed: real
    var currentLaunchSpeed: real
    var currentRetrieveSpeed: real
    var currentScore: int
    var isAccelerating: bool
    var rotateSwitchCDTimer: real
    var accelerateCDTimer: real
    var isSwitchingDir: bool
    var targetRotateSpeed: real
    var grabbedMass: real
    /** Time left on each scheduled `ResumeRetrieveAfterRelease`. */
    var pendingResumes: seq<real>
    /** Calls made so far to collaborators outside this component. */
    var calls: seq<HookCall>

    function Data(): HookData
      reads this
    {
      HookData(currentState, currentDir, currentLength, currentRotation, currentTemperature,
               currentHealth, currentOverheatState, currentOverheatTime, currentRotateSpeed,
               currentLaunchSpeed, currentRetrieveSpeed, currentScore, isAccelerating,
               rotateSwitchCDTimer, accelerateCDTimer, isSwitchingDir, targetRotateSpeed,
               grabbedMass, pendingResumes, calls)
    }

    /** The component as the engine creates it, before `Start` calls `Init`. */
    constructor (config: Config)
      ensures cfg == config && Data() == FieldDefaults()
    {
      cfg := config;
      currentState := ReadyToLaunch;
      currentDir := Clockwise;
      currentLength := 0.0;
      currentRotation := 0.0;
      currentTemperature := 0.0;
      currentHealth := 0.0;
      currentOverheatState := Normal;
      currentOverheatTime := 0.0;
      currentRotateSpeed := 0.0;
      currentLaunchSpeed := 0.0;
      currentRetrieveSpeed := 0.0;
      currentScore := 0;
      isAccelerating := false;
      rotateSwitchCDTimer := 0.0;
      accelerateCDTimer := 0.0;
      isSwitchingDir := false;
      targetRotateSpeed := 0.0;
      grabbedMass := 0.0;
      pendingResumes := [];
      calls := [];
    }

    method Init()
      modifies this
      ensures Data() == Initialised(cfg, old(Data()))
    {
      ResetStatus();
      ResetControls();
      ResetSpeeds();
    }

    /** The first part of `Init`: motion, thermal and bookkeeping fields. */
    method ResetStatus()
      modifies this`currentState, this`currentDir, this`currentLength, this`currentRotation,
               this`currentTemperature, this`currentHealth, this`currentScore,
               this`currentOverheatState, this`currentOverheatTime
      ensures currentState == ReadyToLaunch && currentDir == Clockwise && currentOverheatState == Normal
      ensures currentLength == cfg.standbyDistance && currentRotation == 0.0
      ensures currentTemperature == cfg.initialTemperature && currentHealth == cfg.maxHealth
      ensures currentScore == 0 && currentOverheatTime == 0.0
    {
      currentState := ReadyToLaunch;
      currentDir := Clockwise;
      currentLength := cfg.standbyDistance;
      currentRotation := 0.0;
      currentTemperature := cfg.initialTemperature;
      currentHealth := cfg.maxHealth;
      currentScore := 0;
      currentOverheatState := Normal;
      currentOverheatTime := 0.0;
    }

    /** The second part of `Init`: cooldown timers and the accelerate and switch flags. */
    method ResetControls()
      modifies this`rotateSwitchCDTimer, this`accelerateCDTimer, this`isAccelerating, this`isSwitchingDir
      ensures rotateSwitchCDTimer == 0.0 && accelerateCDTimer == 0.0
      ensures !isAccelerating && !isSwitchingDir
    {
      rotateSwitchCDTimer := 0.0;
      accelerateCDTimer := 0.0;
      isAccelerating := false;
      isSwitchingDir := false;
    }

    /** The last part of `Init`: the speeds and the grabbed mass. */
    method ResetSpeeds()
      modifies this`currentRotateSpeed, this`currentLaunchSpeed, this`currentRetrieveSpeed,
               this`targetRotateSpeed, this`grabbedMass
      ensures currentRotateSpeed == targetRotateSpeed == cfg.baseRotateSpeed
      ensures currentLaunchSpeed == cfg.baseLaunchSpeed && currentRetrieveSpeed == cfg.baseRetrieveSpeed
      ensures grabbedMass == 0.0
    {
      currentRotateSpeed := cfg.baseRotateSpeed;
      currentLaunchSpeed := cfg.baseLaunchSpeed;
      currentRetrieveSpeed := cfg.baseRetrieveSpeed;
      targetRotateSpeed := currentRotateSpeed;
      grabbedMass := 0.0;
    }

    /** One frame: `Update`, then whichever delayed invokes have come due. */
    method Tick(dt: real, cmd: Commands)
      modifies this
      ensures Data() == TickStep(cfg, old(Data()), dt, cmd)
    {
      ghost var h0 := Data();
      AgeThenUpdate(dt, cmd);
      ghost var h2 := UpdateStep(cfg, AgeStep(h0, dt), dt, cmd);
      ghost var r := InvokeStep(h2);
      RunDueInvokes();
      assert Data() == h2.(state := r.state, pendingResumes := r.pendingResumes);
    }

    /** The engine's clock advancing the scheduled invokes, then `Update`. */
    method AgeThenUpdate(dt: real, cmd: Commands)
      modifies this
      ensures Data() == UpdateStep(cfg, AgeStep(old(Data()), dt), dt, cmd)
    {
      ghost var h0 := Data();
      AgeInvokes(dt);
      assert Data() == AgeStep(h0, dt);
      Update(dt, cmd);
    }

    /** `Update`: cooldowns, input, the state machine, then speed smoothing. */
    method Update(dt: real, cmd: Commands)
      modifies this
      ensures Data() == UpdateStep(cfg, old(Data()), dt, cmd)
    {
      UpdateControls(dt, cmd);
      UpdateStateAndSpeeds(dt, cmd.outOfBounds);
    }

    method UpdateControls(dt: real, cmd: Commands)
      modifies this
      ensures Data() == InputStep(cfg, CDTimerStep(old(Data()), dt), cmd)
    {
      ghost var h0 := Data();
      UpdateCDTimers(dt);
      assert Data() == CDTimerStep(h0, dt);
      HandleInput(cmd);
    }

    method UpdateStateAndSpeeds(dt: real, outOfBounds: bool)
      modifies this
      ensures Data() == SmoothingStep(cfg, StateStep(cfg, old(Data()), dt, outOfBounds), dt)
    {
      ghost var h0 := Data();
      UpdateState(dt, outOfBounds);
      ghost var h1 := StateStep(cfg, h0, dt, outOfBounds);
      assert Data() == h1;
      ghost var r := SmoothingStep(cfg, h1, dt);
      UpdateSpeedSmoothing(dt);
      assert Data() == h1.(rotateSpeed := r.rotateSpeed, switchingDir := r.switchingDir,
                           launchSpeed := r.launchSpeed, retrieveSpeed := r.retrieveSpeed);
    }

    /** The engine's clock running down every scheduled invoke. */
    method AgeInvokes(dt: real)
      modifies this`pendingResumes
      ensures Data() == AgeStep(old(Data()), dt)
    {
      pendingResumes := Aged(pendingResumes, dt);
    }

    method UpdateCDTimers(dt: real)
      modifies this`rotateSwitchCDTimer, this`accelerateCDTimer
      ensures rotateSwitchCDTimer == CountDown(old(rotateSwitchCDTimer), dt)
      ensures accelerateCDTimer == CountDown(old(accelerateCDTimer), dt)
    {
      if rotateSwitchCDTimer > 0.0 { rotateSwitchCDTimer := rotateSwitchCDTimer - dt; }
      if accelerateCDTimer > 0.0 { accelerateCDTimer := accelerateCDTimer - dt; }
    }

    method HandleInput(cmd: Commands)
      modifies this`currentState, this`isSwitchingDir, this`targetRotateSpeed, this`currentDir,
               this`currentTemperature, this`rotateSwitchCDTimer, this`isAccelerating, this`accelerateCDTimer
      ensures Data() == InputStep(cfg, old(Data()), cmd)
    {
      ghost var h0 := Data();
      if cmd.spaceDown {
        SwitchLaunchOrRetrieve();
      }
      ghost var h1 := if cmd.spaceDown then SpacePressed(h0) else h0;
      assert Data() == h1;
      if cmd.aDown && !isSwitchingDir && currentOverheatState == Normal && rotateSwitchCDTimer <= 0.0 {
        StartSwitchRotationDir();
        assert Data() == SwitchStarted(cfg, h1);
      }
      ghost var h2 := if cmd.aDown && CanSwitch(h1) then SwitchStarted(cfg, h1) else h1;
      assert Data() == h2;
      HandleAccelerateKey(cmd.shiftHeld);
    }

    /** The Shift section of `HandleInput`. */
    method HandleAccelerateKey(shiftHeld: bool)
      modifies this`isAccelerating, this`accelerateCDTimer
      ensures Data() == AccelerateInput(cfg, old(Data()), shiftHeld)
    {
      if shiftHeld && !isAccelerating && currentOverheatState == Normal && accelerateCDTimer <= 0.0 {
        isAccelerating := true;
      } else if !shiftHeld && isAccelerating {
        isAccelerating := false;
        accelerateCDTimer := cfg.accelerateCD;
      }
    }

    method SwitchLaunchOrRetrieve()
      modifies this`currentState
      ensures Data() == SpacePressed(old(Data()))
    {
      if currentState == ReadyToLaunch {
        currentState := Launching;
      }
    }

    method StartSwitchRotationDir()
      modifies this`isSwitchingDir, this`targetRotateSpeed, this`currentDir, this`currentTemperature,
               this`rotateSwitchCDTimer
      ensures var r := SwitchStarted(cfg, old(Data()));
              && isSwitchingDir == r.switchingDir && targetRotateSpeed == r.targetRotateSpeed
              && currentDir == r.dir && currentTemperature == r.temperature
              && rotateSwitchCDTimer == r.rotateSwitchCDTimer
    {
      isSwitchingDir := true;
      targetRotateSpeed := Directed(TargetSpeed(cfg, isAccelerating), Flip(currentDir));
      currentDir := Flip(currentDir);
      currentTemperature := currentTemperature + cfg.rotateSwitchHeat;
      rotateSwitchCDTimer := cfg.rotateSwitchCD;
    }

    method UpdateState(dt: real, outOfBounds: bool)
      modifies this
      ensures Data() == StateStep(cfg, old(Data()), dt, outOfBounds)
    {
      UpdateMotionAndHeat(dt, outOfBounds);
      UpdateOverheatAndTarget(dt);
    }

    /** The first half of `UpdateState`: motion, then heat generation and dissipation. */
    method UpdateMotionAndHeat(dt: real, outOfBounds: bool)
      modifies this
      ensures Data() == DissipationStep(cfg, HeatStep(cfg, MotionStep(cfg, old(Data()), dt, outOfBounds), dt), dt)
    {
      ghost var h0 := Data();
      UpdateMotion(dt, outOfBounds);
      assert Data() == MotionStep(cfg, h0, dt, outOfBounds);
      UpdateHeat(dt);
    }

    /** The second half of `UpdateState`: overheat handling, then the target rotation speed. */
    method UpdateOverheatAndTarget(dt: real)
      modifies this
      ensures Data() == TargetRotationStep(cfg, OverheatStep(cfg, old(Data()), dt))
    {
      ghost var h0 := Data();
      UpdateOverheat(dt);
      assert Data() == OverheatStep(cfg, h0, dt);
      UpdateTargetRotateSpeed();
    }

    /** The heat sections of `UpdateState`: generation, then dissipation. */
    method UpdateHeat(dt: real)
      modifies this`currentTemperature
      ensures currentTemperature == DissipationStep(cfg, HeatStep(cfg, old(Data()), dt), dt).temperature
    {
      GenerateHeat(dt);
      DissipateHeat(dt);
    }

    /** The motion switch at the head of `UpdateState`. */
    method UpdateMotion(dt: real, outOfBounds: bool)
      modifies this`currentRotation, this`currentLength, this`currentState, this`calls
      ensures var r := MotionStep(cfg, old(Data()), dt, outOfBounds);
              && currentRotation == r.rotation && currentLength == r.length
              && currentState == r.state && calls == r.calls
    {
      match currentState {
        case ReadyToLaunch => UpdateRotation(dt);
        case Launching =>
          UpdateLaunching(dt);
          if outOfBounds {
            RetrieveHook();
          }
        case Retrieving => UpdateRetrieving(dt);
      }
    }

    /** The heat generation section of `UpdateState`. */
    method GenerateHeat(dt: real)
      modifies this`currentTemperature
      ensures currentTemperature == HeatStep(cfg, old(Data()), dt).temperature
    {
      if currentState == Launching || currentState == Retrieving {
        var totalMass := cfg.hookMass;
        if currentState == Retrieving {
          totalMass := totalMass + grabbedMass;
        }
        var currentSpeed := if currentState == Launching then currentLaunchSpeed else currentRetrieveSpeed;
        var heatPerFrame := PerFrame(totalMass * currentSpeed * cfg.heatGenerationCoefficient, dt);
        currentTemperature := currentTemperature + heatPerFrame;
      } else if currentState == ReadyToLaunch {
        var rotateSpeedAbs := Abs(currentRotateSpeed);
        var rotateHeat := PerFrame(cfg.normalRotateHeatCoefficient * rotateSpeedAbs * cfg.hookMass, dt);
        currentTemperature := currentTemperature + rotateHeat;
      }
    }

    /** The dissipation section of `UpdateState`. */
    method DissipateHeat(dt: real)
      modifies this`currentTemperature
      ensures currentTemperature == DissipationStep(cfg, old(Data()), dt).temperature
    {
      var heatDissipationPower := DissipationPower(cfg, currentTemperature);
      var heatChange := -PerFrame(heatDissipationPower, dt);
      var temperatureChange := heatChange / HeatCapacity;
      currentTemperature := currentTemperature + temperatureChange;
    }

    /** The overheat management section of `UpdateState`. */
    method UpdateOverheat(dt: real)
      modifies this`currentOverheatState, this`currentOverheatTime, this`isAccelerating, this`calls,
               this`currentState, this`currentLength, this`grabbedMass, this`pendingResumes, this`currentTemperature
      ensures var r := OverheatStep(cfg, old(Data()), dt);
              && currentOverheatState == r.overheat && currentOverheatTime == r.overheatTime
              && isAccelerating == r.accelerating && calls == r.calls && currentState == r.state
              && currentLength == r.length && grabbedMass == r.grabbedMass && pendingResumes == r.pendingResumes
              && currentTemperature == r.temperature
    {
      match currentOverheatState {
        case Normal =>
          if currentTemperature >= cfg.overheatThreshold {
            currentOverheatState := Overheating;
            currentOverheatTime := 0.0;
          } else {
            isAccelerating := isAccelerating && accelerateCDTimer <= 0.0;
          }
        case Overheating =>
          CountDownOverheat(dt);
        case Cooling =>
          currentTemperature := Max(0.0, currentTemperature - PerFrame(cfg.coolingRate, dt));
          if currentTemperature <= cfg.overheatThreshold {
            currentOverheatState := Normal;
          }
      }
    }

    /** The `Overheating` case of the overheat section: once the overheat has lasted its maximum
        time, anything grabbed is dropped and cooling starts. */
    method CountDownOverheat(dt: real)
      modifies this`currentOverheatState, this`currentOverheatTime, this`isAccelerating, this`calls,
               this`currentState, this`currentLength, this`grabbedMass, this`pendingResumes
      ensures var r := OverheatCountdown(cfg, old(Data()), dt);
              && currentOverheatState == r.overheat && currentOverheatTime == r.overheatTime
              && isAccelerating == r.accelerating && calls == r.calls && currentState == r.state
              && currentLength == r.length && grabbedMass == r.grabbedMass && pendingResumes == r.pendingResumes
    {
      currentOverheatTime := currentOverheatTime + dt;
      if currentOverheatTime >= cfg.maxOverheatTime {
        if grabbedMass > 0.0 && currentState == Retrieving {
          ReleaseGrabbedObjects();
        }
        currentOverheatState := Cooling;
        currentOverheatTime := 0.0;
        calls := calls + [OverheatEnterCooling];
        isAccelerating := false;
      }
    }

    /** The closing section of `UpdateState`: the rotation target for the current mode. */
    method UpdateTargetRotateSpeed()
      modifies this`targetRotateSpeed
      ensures targetRotateSpeed == TargetRotationStep(cfg, old(Data())).targetRotateSpeed
    {
      var targetSpeed := cfg.baseRotateSpeed;
      if isAccelerating {
        targetSpeed := targetSpeed + cfg.accelerateRotateSpeed;
      }
      if !isSwitchingDir {
        targetRotateSpeed := Directed(targetSpeed, currentDir);
      }
    }

    method ReleaseGrabbedObjects()
      modifies this`calls, this`grabbedMass, this`currentState, this`currentLength, this`pendingResumes
      ensures var r := Released(old(Data()));
              && calls == r.calls && grabbedMass == r.grabbedMass && currentState == r.state
              && currentLength == r.length && pendingResumes == r.pendingResumes
    {
      calls := calls + [ReleaseAllGrabbedObjects];
      ResetGrabbedMass();
      var currentRecoverLength := currentLength;
      currentState := ReadyToLaunch;
      currentLength := currentRecoverLength;
      pendingResumes := pendingResumes + [ResumeDelay];
    }

    method ResumeRetrieveAfterRelease()
      modifies this`currentState
      ensures currentState == Resumed(old(Data())).state
    {
      if currentState == ReadyToLaunch {
        currentState := Retrieving;
      }
    }

    /** The engine's pass over the scheduled invokes: each one that has come due runs and is
        dropped, the others keep waiting in order. */
    method RunDueInvokes()
      modifies this`currentState, this`pendingResumes
      ensures var r := InvokeStep(old(Data()));
              currentState == r.state && pendingResumes == r.pendingResumes
    {
      var ps := pendingResumes;
      var waiting: seq<real> := [];
      var i := 0;
      while i < |ps|
        invariant 0 <= i <= |ps|
        invariant waiting == StillPending(ps[..i])
        invariant currentState == if AnyDue(ps[..i]) then Resumed(old(Data())).state else old(currentState)
      {
        if ps[i] <= 0.0 {
          ResumeRetrieveAfterRelease();
        } else {
          waiting := waiting + [ps[i]];
        }
        assert ps[..i + 1][..i] == ps[..i];
        assert AnyDue(ps[..i + 1]) <==> AnyDue(ps[..i]) || ps[i] <= 0.0 by {
          if AnyDue(ps[..i + 1]) && !(ps[i] <= 0.0) {
            var j :| 0 <= j < i + 1 && ps[..i + 1][j] <= 0.0;
            assert ps[..i][j] <= 0.0;
          }
          if ps[i] <= 0.0 { assert ps[..i + 1][i] <= 0.0; }
          if AnyDue(ps[..i]) {
            var j :| 0 <= j < i && ps[..i][j] <= 0.0;
            assert ps[..i + 1][j] <= 0.0;
          }
        }
        i := i + 1;
      }
      assert ps[..i] == ps;
      pendingResumes := waiting;
    }

    method UpdateSpeedSmoothing(dt: real)
      modifies this`currentRotateSpeed, this`isSwitchingDir, this`currentLaunchSpeed, this`currentRetrieveSpeed
      ensures var r := SmoothingStep(cfg, old(Data()), dt);
              && currentRotateSpeed == r.rotateSpeed && isSwitchingDir == r.switchingDir
              && currentLaunchSpeed == r.launchSpeed && currentRetrieveSpeed == r.retrieveSpeed
    {
      ghost var h1 := RotateSpeedStep(cfg, Data(), dt);
      SmoothRotateSpeed(dt);
      assert Data() == h1;
      var launchStep := PerFrame(cfg.rotationSmoothSpeed, dt);
      var targetLaunch := if isAccelerating then cfg.accelerateLaunchSpeed else cfg.baseLaunchSpeed;
      assert targetLaunch == TargetLaunchSpeed(cfg, h1.accelerating);
      currentLaunchSpeed := MoveTowards(currentLaunchSpeed, targetLaunch, launchStep);
      assert currentLaunchSpeed == LaunchSpeedStep(cfg, h1, dt).launchSpeed;
      currentRetrieveSpeed := CalculateTargetRetrieveSpeed();
    }

    /** The rotation-speed section of `UpdateSpeedSmoothing`. */
    method SmoothRotateSpeed(dt: real)
      modifies this`currentRotateSpeed, this`isSwitchingDir
      ensures var r := RotateSpeedStep(cfg, old(Data()), dt);
              currentRotateSpeed == r.rotateSpeed && isSwitchingDir == r.switchingDir
    {
      var maxSpeedChange := PerFrame(if isSwitchingDir then cfg.switchDirSmoothSpeed else cfg.rotationSmoothSpeed, dt);
      var speedDiff := targetRotateSpeed - currentRotateSpeed;
      if Abs(speedDiff) > maxSpeedChange {
        currentRotateSpeed := currentRotateSpeed + Sign(speedDiff) * maxSpeedChange;
      } else {
        currentRotateSpeed := targetRotateSpeed;
        isSwitchingDir := false;
      }
    }

    method CalculateTargetRetrieveSpeed() returns (speed: real)
      ensures speed == TargetRetrieveSpeed(cfg, isAccelerating, grabbedMass)
      ensures speed >= MinRetrieveSpeed
    {
      var massResistance := 1.0 + grabbedMass * grabbedMass;
      SquareNonneg(grabbedMass);
      var baseSpeed := if isAccelerating then cfg.accelerateRetrieveSpeed else cfg.baseRetrieveSpeed;
      speed := Max(MinRetrieveSpeed, baseSpeed * 2.0 / massResistance);
      assert speed == Max(MinRetrieveSpeed, baseSpeed * 2.0 / (1.0 + grabbedMass * grabbedMass));
    }

    method UpdateRotation(dt: real)
      modifies this`currentRotation
      ensures currentRotation == RotationStep(old(Data()), dt).rotation
    {
      currentRotation := Turned(currentRotation, currentRotateSpeed, dt);
    }

    method UpdateLaunching(dt: real)
      requires currentState == Launching
      modifies this`currentLength, this`currentState
      ensures var r := LaunchStep(cfg, old(Data()), dt);
              currentLength == r.length && currentState == r.state
    {
      currentLength := currentLength + PerFrame(currentLaunchSpeed, dt);
      if currentLength >= cfg.maxLength {
        currentLength := cfg.maxLength;
        currentState := Retrieving;
      }
    }

    method UpdateRetrieving(dt: real)
      requires currentState == Retrieving
      modifies this`currentLength, this`currentState, this`calls
      ensures var r := RetrieveStep(cfg, old(Data()), dt);
              currentLength == r.length && currentState == r.state && calls == r.calls
    {
      currentLength := currentLength - PerFrame(currentRetrieveSpeed, dt);
      if currentLength <= cfg.standbyDistance {
        currentLength := cfg.standbyDistance;
        currentState := ReadyToLaunch;
        calls := calls + [OnRetrieveComplete];
      }
    }

    method RetrieveHook()
      modifies this`currentState, this`calls
      ensures var r := HookRetrieved(old(Data()));
              currentState == r.state && calls == r.calls
    {
      if currentState == Launching {
        currentState := Retrieving;
        calls := calls + [ResetGrabState];
      }
    }

    method AddScore(amount: int)
      modifies this`currentScore
      ensures currentScore == old(currentScore) + amount
    {
      currentScore := currentScore + amount;
    }

    method TakeDamage(damage: real)
      modifies this`currentHealth, this`calls
      ensures var r := Damaged(old(Data()), damage);
              currentHealth == r.health && calls == r.calls
    {
      currentHealth := Max(0.0, currentHealth - damage);
      if currentHealth <= 0.0 {
        calls := calls + [Die];
      }
    }

    method AddHeat(heat: real)
      modifies this`currentTemperature
      ensures currentTemperature == old(currentTemperature) + heat
    {
      currentTemperature := currentTemperature + heat;
    }

    method AddGrabbedMass(mass: real)
      modifies this`grabbedMass
      ensures grabbedMass == old(grabbedMass) + mass
    {
      grabbedMass := grabbedMass + mass;
    }

    method ResetGrabbedMass()
      modifies this`grabbedMass
      ensures grabbedMass == 0.0
    {
      grabbedMass := 0.0;
    }
  }
}
