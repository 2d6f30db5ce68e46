/** The earliest hook, Assets/Sprites/HookSystem.cs: an energy budget, a direction switch that
    takes effect only after a delay (rotation is frozen meanwhile), no speed smoothing, and a rope
    that retracts all the way to length 0. The rope and tip visuals are not modelled. */
module DelayedSwitchHook {
  import opened UnityMath

  datatype HookState = ReadyToLaunch | Launching | Retrieving
  datatype RotationDir = Clockwise | CounterClockwise

  datatype DelayedHookConfig = DelayedHookConfig(
    maxLength: real,
    baseRotateSpeed: real,
    baseLaunchSpeed: real,
    baseRetrieveSpeed: real,
    accelerateRotateSpeed: real,
    accelerateLaunchSpeed: real,
    accelerateRetrieveSpeed: real,
    initialEnergy: real,
    rotateSwitchEnergyCost: real,
    accelerateEnergyCostPerSecond: real,
    rotateSwitchCD: real,
    accelerateCD: real,
    rotateSwitchDelay: real)

  /** The inspector defaults. */
  function DefaultDelayedHookConfig(): DelayedHookConfig
  {
    DelayedHookConfig(10.0, 30.0, 10.0, 10.0, 100.0, 20.0, 24.0, 100.0, 5.0, 8.0, 1.0, 2.0, 0.2)
  }

  /** The hook's changing state. */
  datatype DelayedHookData = DelayedHookData(
    state: HookState,
    dir: RotationDir,
    length: real,
    rotation: real,
    energy: real,
    accelerating: bool,
    rotateSwitchTimer: real,
    switchingDir: bool,
    rotateSwitchCDTimer: real,
    accelerateCDTimer: real)

  /** One frame's input. */
  datatype Commands = Commands(spaceDown: bool, aDown: bool, shiftHeld: bool)

  function Flip(d: RotationDir): (r: RotationDir)
    ensures r != d
  {
    if d == Clockwise then CounterClockwise else Clockwise
  }

  /** A speed signed by the rotation direction: clockwise is positive. */
  function Directed(speed: real, d: RotationDir): (r: real)
    ensures d == Clockwise ==> r == speed
    ensures d == CounterClockwise ==> r == -speed
  {
    if d == Clockwise then speed else -speed
  }

  /** A cooldown timer counts down only while positive. */
  function CountDown(t: real, dt: real): (r: real)
    ensures t > 0.0 ==> r == t - dt
    ensures t <= 0.0 ==> r == t
  {
    if t > 0.0 then t - dt else t
  }

  /** The field initialisers followed by `Init`, which starts the rope at length 0. */
  function Initial(cfg: DelayedHookConfig): DelayedHookData
  {
    DelayedHookData(ReadyToLaunch, Clockwise, 0.0, 0.0, cfg.initialEnergy, false, 0.0, false, 0.0, 0.0)
  }

  /** `UpdateCDTimers`. */
  function CDTimerStep(h: DelayedHookData, dt: real): (r: DelayedHookData)
    ensures r == h.(rotateSwitchCDTimer := r.rotateSwitchCDTimer, accelerateCDTimer := r.accelerateCDTimer)
  {
    h.(rotateSwitchCDTimer := CountDown(h.rotateSwitchCDTimer, dt), accelerateCDTimer := CountDown(h.accelerateCDTimer, dt))
  }

  /** `SwitchLaunchOrRetrieve`: Space only launches a hook that is ready. */
  function SpacePressed(h: DelayedHookData): (r: DelayedHookData)
    ensures r == h.(state := r.state)
  {
    if h.state == ReadyToLaunch then h.(state := Launching) else h
  }

  /** The direction-switch gate of `HandleInput`. */
  predicate CanSwitch(cfg: DelayedHookConfig, h: DelayedHookData)
  {
    !h.switchingDir && h.energy >= cfg.rotateSwitchEnergyCost && h.rotateSwitchCDTimer <= 0.0 && h.state == ReadyToLaunch
  }

  /** `StartSwitchRotationDir`: pay the cost and arm both the delay and the cooldown; the
      direction itself is not flipped yet. */
  function SwitchStarted(cfg: DelayedHookConfig, h: DelayedHookData): DelayedHookData
  {
    h.(switchingDir := true, rotateSwitchTimer := cfg.rotateSwitchDelay, energy := h.energy - cfg.rotateSwitchEnergyCost,
       rotateSwitchCDTimer := cfg.rotateSwitchCD)
  }

  /** The accelerate-key part of `HandleInput`. */
  function AccelerateInput(cfg: DelayedHookConfig, h: DelayedHookData, shiftHeld: bool): (r: DelayedHookData)
    ensures r == h.(accelerating := r.accelerating, accelerateCDTimer := r.accelerateCDTimer)
  {
    if shiftHeld && !h.accelerating && h.energy > 0.0 && h.accelerateCDTimer <= 0.0 then h.(accelerating := true)
    else if !shiftHeld && h.accelerating then h.(accelerating := false, accelerateCDTimer := cfg.accelerateCD)
    else h
  }

  /** `HandleInput`: Space, then the switch key (checked against the state after Space), then the
      accelerate key. */
  function InputStep(cfg: DelayedHookConfig, h: DelayedHookData, cmd: Commands): DelayedHookData
  {
    var h1 := if cmd.spaceDown then SpacePressed(h) else h;
    var h2 := if cmd.aDown && CanSwitch(cfg, h1) then SwitchStarted(cfg, h1) else h1;
    AccelerateInput(cfg, h2, cmd.shiftHeld)
  }

  /** `UpdateRotation`: while a switch is pending the delay counts down and the direction flips
      when it runs out, with the angle frozen; otherwise the hook turns at the base or accelerated
      speed, unsmoothed, and the angle is wrapped into a full turn. */
  function RotationStep(cfg: DelayedHookConfig, h: DelayedHookData, dt: real): (r: DelayedHookData)
    ensures r == h.(rotateSwitchTimer := r.rotateSwitchTimer, dir := r.dir, switchingDir := r.switchingDir,
                    rotation := r.rotation)
  {
    if h.switchingDir then
      var t := h.rotateSwitchTimer - dt;
      if t <= 0.0 then h.(rotateSwitchTimer := t, dir := Flip(h.dir), switchingDir := false)
      else h.(rotateSwitchTimer := t)
    else
      var speed := if h.accelerating then cfg.accelerateRotateSpeed else cfg.baseRotateSpeed;
      h.(rotation := Normalize360(h.rotation + PerFrame(Directed(speed, h.dir), dt)))
  }

  /** `UpdateLaunching`. */
  function LaunchStep(cfg: DelayedHookConfig, h: DelayedHookData, dt: real): (r: DelayedHookData)
    ensures r == h.(length := r.length, state := r.state)
  {
    var speed := if h.accelerating then cfg.accelerateLaunchSpeed else cfg.baseLaunchSpeed;
    var len := h.length + PerFrame(speed, dt);
    if len >= cfg.maxLength then h.(length := cfg.maxLength, state := Retrieving) else h.(length := len)
  }

  /** `UpdateRetrieving`: the rope retracts to length 0. */
  function RetrieveStep(cfg: DelayedHookConfig, h: DelayedHookData, dt: real): (r: DelayedHookData)
    ensures r == h.(length := r.length, state := r.state)
  {
    var speed := if h.accelerating then cfg.accelerateRetrieveSpeed else cfg.baseRetrieveSpeed;
    var len := h.length - PerFrame(speed, dt);
    if len <= 0.0 then h.(length := 0.0, state := ReadyToLaunch) else h.(length := len)
  }

  /** The motion part of `UpdateState`. */
  function MotionStep(cfg: DelayedHookConfig, h: DelayedHookData, dt: real): DelayedHookData
  {
    match h.state
    case ReadyToLaunch => RotationStep(cfg, h, dt)
    case Launching => LaunchStep(cfg, h, dt)
    case Retrieving => RetrieveStep(cfg, h, dt)
  }

  /** The energy drain of `UpdateState`, floored at 0; an empty budget ends the acceleration. */
  function DrainStep(cfg: DelayedHookConfig, h: DelayedHookData, dt: real): (r: DelayedHookData)
    ensures r == h.(energy := r.energy, accelerating := r.accelerating)
  {
    if !h.accelerating then h
    else
      var e := Max(0.0, h.energy - PerFrame(cfg.accelerateEnergyCostPerSecond, dt));
      h.(energy := e, accelerating := e > 0.0)
  }

  /** `UpdateState`. */
  function StateStep(cfg: DelayedHookConfig, h: DelayedHookData, dt: real): DelayedHookData
  {
    DrainStep(cfg, MotionStep(cfg, h, dt), dt)
  }

  /** One `Update`: cooldowns, input, then state. */
  function DelayedHookStep(cfg: DelayedHookConfig, h: DelayedHookData, dt: real, cmd: Commands): DelayedHookData
  {
    StateStep(cfg, InputStep(cfg, CDTimerStep(h, dt), cmd), dt)
  }

  class HookSystem {
    const cfg: DelayedHookConfig
    var currentState: HookState
    var currentDir: RotationDir
    var currentLength: real
    var currentRotation: real
    var currentEnergy: real
    var isAccelerating: bool
    var rotateSwitchTimer: real
    var isSwitchingDir: bool
    var rotateSwitchCDTimer: real
    var accelerateCDTimer: real

    function Data(): DelayedHookData
      reads this
    {
      DelayedHookData(currentState, currentDir, currentLength, currentRotation, currentEnergy, isAccelerating,
                      rotateSwitchTimer, isSwitchingDir, rotateSwitchCDTimer, accelerateCDTimer)
    }

    /** The field initialisers, then `Start`'s call of `Init`. */
    constructor (config: DelayedHookConfig)
      ensures cfg == config && Data() == Initial(config)
    {
      cfg := config;
      isAccelerating := false;
      rotateSwitchTimer := 0.0;
      isSwitchingDir := false;
      currentState := ReadyToLaunch;
      currentDir := Clockwise;
      currentLength := 0.0;
      currentRotation := 0.0;
      currentEnergy := config.initialEnergy;
      rotateSwitchCDTimer := 0.0;
      accelerateCDTimer := 0.0;
    }

    /** `UpdateCDTimers`. */
    method UpdateCDTimers(dt: real)
      modifies this`rotateSwitchCDTimer, this`accelerateCDTimer
      ensures Data() == CDTimerStep(old(Data()), dt)
    {
      if rotateSwitchCDTimer > 0.0 {
        rotateSwitchCDTimer := rotateSwitchCDTimer - dt;
      }
      if accelerateCDTimer > 0.0 {
        accelerateCDTimer := accelerateCDTimer - dt;
      }
    }

    /** `StartSwitchRotationDir`. */
    method StartSwitchRotationDir()
      modifies this`isSwitchingDir, this`rotateSwitchTimer, this`currentEnergy, this`rotateSwitchCDTimer
      ensures Data() == SwitchStarted(cfg, old(Data()))
    {
      isSwitchingDir := true;
      rotateSwitchTimer := cfg.rotateSwitchDelay;
      currentEnergy := currentEnergy - cfg.rotateSwitchEnergyCost;
      rotateSwitchCDTimer := cfg.rotateSwitchCD;
    }

    /** `HandleInput`. */
    method HandleInput(cmd: Commands)
      modifies this`currentState, this`isSwitchingDir, this`rotateSwitchTimer, this`currentEnergy,
               this`rotateSwitchCDTimer, this`isAccelerating, this`accelerateCDTimer
      ensures Data() == InputStep(cfg, old(Data()), cmd)
    {
      if cmd.spaceDown && currentState == ReadyToLaunch {
        currentState := Launching;
      }
      ghost var h1 := Data();
      if cmd.aDown && !isSwitchingDir && currentEnergy >= cfg.rotateSwitchEnergyCost &&
         rotateSwitchCDTimer <= 0.0 && currentState == ReadyToLaunch {
        StartSwitchRotationDir();
      }
      ghost var h2 := Data();
      assert h2 == if cmd.aDown && CanSwitch(cfg, h1) then SwitchStarted(cfg, h1) else h1;
      if cmd.shiftHeld && !isAccelerating && currentEnergy > 0.0 && accelerateCDTimer <= 0.0 {
        isAccelerating := true;
      } else if !cmd.shiftHeld && isAccelerating {
        isAccelerating := false;
        accelerateCDTimer := cfg.accelerateCD;
      }
    }

    /** `UpdateRotation`. */
    method UpdateRotation(dt: real)
      modifies this`rotateSwitchTimer, this`currentDir, this`isSwitchingDir, this`currentRotation
      ensures Data() == RotationStep(cfg, old(Data()), dt)
    {
      if isSwitchingDir {
        rotateSwitchTimer := rotateSwitchTimer - dt;
        if rotateSwitchTimer <= 0.0 {
          currentDir := Flip(currentDir);
          isSwitchingDir := false;
        }
        return;
      }
      var speed := if isAccelerating then cfg.accelerateRotateSpeed else cfg.baseRotateSpeed;
      currentRotation := currentRotation + PerFrame(Directed(speed, currentDir), dt);
      currentRotation := Normalize360(currentRotation);
    }

    /** `UpdateLaunching`. */
    method UpdateLaunching(dt: real)
      modifies this`currentLength, this`currentState
      ensures Data() == LaunchStep(cfg, old(Data()), dt)
    {
      var speed := if isAccelerating then cfg.accelerateLaunchSpeed else cfg.baseLaunchSpeed;
      currentLength := currentLength + PerFrame(speed, dt);
      if currentLength >= cfg.maxLength {
        currentLength := cfg.maxLength;
        currentState := Retrieving;
      }
    }

    /** `UpdateRetrieving`. */
    method UpdateRetrieving(dt: real)
      modifies this`currentLength, this`currentState
      ensures Data() == RetrieveStep(cfg, old(Data()), dt)
    {
      var speed := if isAccelerating then cfg.accelerateRetrieveSpeed else cfg.baseRetrieveSpeed;
      currentLength := currentLength - PerFrame(speed, dt);
      if currentLength <= 0.0 {
        currentLength := 0.0;
        currentState := ReadyToLaunch;
      }
    }

    /** `UpdateState`. */
    method UpdateState(dt: real)
      modifies this
      ensures Data() == StateStep(cfg, old(Data()), dt)
    {
      match currentState {
        case ReadyToLaunch => UpdateRotation(dt);
        case Launching => UpdateLaunching(dt);
        case Retrieving => UpdateRetrieving(dt);
      }
      assert Data() == MotionStep(cfg, old(Data()), dt);
      if isAccelerating {
        var cost := PerFrame(cfg.accelerateEnergyCostPerSecond, dt);
        currentEnergy := Max(0.0, currentEnergy - cost);
        if currentEnergy <= 0.0 {
          isAccelerating := false;
        }
      }
    }

    /** One frame. */
    method Update(dt: real, cmd: Commands)
      modifies this
      ensures Data() == DelayedHookStep(cfg, old(Data()), dt, cmd)
    {
      UpdateCDTimers(dt);
      HandleInput(cmd);
      UpdateState(dt);
    }
  }

  // ---------------------------------------------------------------- properties

  /** Space launches only a ready hook. */
  lemma DelayedSpaceLaunchesOnlyWhenReady(h: DelayedHookData)
    ensures SpacePressed(h).state != h.state <==> h.state == ReadyToLaunch
    ensures h.state == ReadyToLaunch ==> SpacePressed(h).state == Launching
  {
  }

  /** A switch starts exactly on the key with the gate open; it pays its cost (so the energy stays
      non-negative), arms the delay and the cooldown, and leaves the direction alone for now. */
  lemma DelayedSwitchGate(cfg: DelayedHookConfig, h: DelayedHookData, cmd: Commands)
    requires !h.switchingDir
    ensures var h1 := if cmd.spaceDown then SpacePressed(h) else h;
      var r := InputStep(cfg, h, cmd);
      (r.switchingDir <==> cmd.aDown && CanSwitch(cfg, h1)) &&
      r.dir == h.dir &&
      (r.switchingDir ==> r.energy == h.energy - cfg.rotateSwitchEnergyCost && r.energy >= 0.0 &&
                          r.rotateSwitchTimer == cfg.rotateSwitchDelay && r.rotateSwitchCDTimer == cfg.rotateSwitchCD)
  {
  }

  /** While a switch is pending the angle does not move; the direction flips, and the switch
      ends, exactly when the delay runs out. Without a pending switch the hook turns at its
      unsmoothed speed and the angle stays in `[0, 360)`. */
  lemma PendingSwitchFreezesRotation(cfg: DelayedHookConfig, h: DelayedHookData, dt: real)
    ensures var r := RotationStep(cfg, h, dt);
      (h.switchingDir ==> r.rotation == h.rotation &&
                          (r.dir != h.dir <==> h.rotateSwitchTimer - dt <= 0.0) &&
                          (r.switchingDir <==> r.dir == h.dir)) &&
      (!h.switchingDir ==> (
        r.dir == h.dir && !r.switchingDir && 0.0 <= r.rotation < 360.0 &&
        r.rotation == Normalize360(h.rotation + PerFrame(Directed(if h.accelerating then cfg.accelerateRotateSpeed
                                                                  else cfg.baseRotateSpeed, h.dir), dt))))
  {
  }

  /** Frames spent rotating in the ready state, one `dt` each. */
  function RotationFrames(cfg: DelayedHookConfig, h: DelayedHookData, dts: seq<real>): DelayedHookData
    decreases |dts|
  {
    if |dts| == 0 then h else RotationFrames(cfg, RotationStep(cfg, h, dts[0]), dts[1..])
  }

  /** One switch flips the direction at most once: after any number of rotation frames the
      direction is the original one exactly while the switch is still pending, and without a
      pending switch it never changes. */
  lemma {:induction false} SwitchFlipsOnce(cfg: DelayedHookConfig, h: DelayedHookData, dts: seq<real>)
    ensures var r := RotationFrames(cfg, h, dts);
      (h.switchingDir ==> r.dir == (if r.switchingDir then h.dir else Flip(h.dir))) &&
      (!h.switchingDir ==> r.dir == h.dir && !r.switchingDir)
    decreases |dts|
  {
    if |dts| > 0 {
      var h1 := RotationStep(cfg, h, dts[0]);
      SwitchFlipsOnce(cfg, h1, dts[1..]);
    }
  }

  /** Launching clamps at `maxLength` and turns back in the same frame. */
  lemma DelayedLaunchClampsAndTurns(cfg: DelayedHookConfig, h: DelayedHookData, dt: real)
    requires h.state == Launching
    ensures var r := LaunchStep(cfg, h, dt);
      r.length <= cfg.maxLength && (r.state == Retrieving <==> r.length == cfg.maxLength)
  {
  }

  /** Retrieving clamps at 0, not at a standby distance, and parks the hook exactly then. */
  lemma RetrieveClampsAtZero(cfg: DelayedHookConfig, h: DelayedHookData, dt: real)
    requires h.state == Retrieving
    ensures var r := RetrieveStep(cfg, h, dt);
      r.length >= 0.0 && (r.state == ReadyToLaunch <==> r.length == 0.0)
  {
  }

  /** The accelerate drain is floored at 0 and ends the acceleration exactly when the budget is
      used up. */
  lemma DelayedDrainFloorsAtZero(cfg: DelayedHookConfig, h: DelayedHookData, dt: real)
    requires h.accelerating
    ensures var r := DrainStep(cfg, h, dt);
      r.energy >= 0.0 && (!r.accelerating <==> r.energy == 0.0) &&
      r.energy == Max(0.0, h.energy - PerFrame(cfg.accelerateEnergyCostPerSecond, dt))
  {
  }

  /** What every frame keeps: energy non-negative and never above the initial budget (nothing
      refills it in this hook), and the rope within `[0, maxLength]`. */
  predicate DelayedInv(cfg: DelayedHookConfig, h: DelayedHookData)
  {
    0.0 <= h.energy <= cfg.initialEnergy && 0.0 <= h.length <= cfg.maxLength
  }

  lemma InitialDelayedInv(cfg: DelayedHookConfig)
    requires cfg.initialEnergy >= 0.0 && cfg.maxLength >= 0.0
    ensures DelayedInv(cfg, Initial(cfg))
  {
  }

  /** With non-negative costs, speeds and frame time, a frame keeps the invariant and never
      raises the energy. */
  lemma DelayedStepKeepsInv(cfg: DelayedHookConfig, h: DelayedHookData, dt: real, cmd: Commands)
    requires DelayedInv(cfg, h) && dt >= 0.0
    requires cfg.rotateSwitchEnergyCost >= 0.0 && cfg.accelerateEnergyCostPerSecond >= 0.0
    requires cfg.baseLaunchSpeed >= 0.0 && cfg.accelerateLaunchSpeed >= 0.0
    requires cfg.baseRetrieveSpeed >= 0.0 && cfg.accelerateRetrieveSpeed >= 0.0
    ensures DelayedInv(cfg, DelayedHookStep(cfg, h, dt, cmd))
    ensures DelayedHookStep(cfg, h, dt, cmd).energy <= h.energy
  {
    var h1 := InputStep(cfg, CDTimerStep(h, dt), cmd);
    assert DelayedInv(cfg, h1) && h1.energy <= h.energy;
    var h2 := MotionStep(cfg, h1, dt);
    assert DelayedInv(cfg, h2) && h2.energy == h1.energy;
  }
}
