/** The energy-budget hook of Assets/Sprites/Hook/HookSystem.cs together with its tip,
    Assets/Sprites/Hook/HookTipCollisionHandler.cs. The two classes call each other (the tip asks
    the hook to retrieve, the hook empties the tip's slot on harvest), so they share one module.
    Energy replaces heat: a direction switch costs energy, accelerating drains it, and harvesting
    the single grabbed energy object restores it. The rope and tip visuals and the UI are not
    modelled. */
module EnergyHook {
  import opened UnityMath

  datatype HookState = ReadyToLaunch | Launching | Retrieving
  datatype RotationDir = Clockwise | CounterClockwise

  /** The tag `OnTriggerEnter2D` reacts to. */
  const EnergyTag: string := "Energy"

  /** The switch counts as settled once the rotation speed is this close to its new base value. */
  const SwitchSettleTolerance: real := 0.5

  datatype EnergyHookConfig = EnergyHookConfig(
    maxLength: real,
    standbyDistance: real,
    baseRotateSpeed: real,
    baseLaunchSpeed: real,
    baseRetrieveSpeed: real,
    accelerateRotateSpeed: real,
    accelerateLaunchSpeed: real,
    accelerateRetrieveSpeed: real,
    initialEnergy: real,
    rotateSwitchEnergyCost: real,
    accelerateEnergyCostPerSecond: real,
    rotateSwitchCD: real,
    accelerateCD: real,
    rotationSmoothSpeed: real,
    lengthSmoothSpeed: real,
    switchDirSmoothSpeed: real)

  /** The inspector defaults. */
  function DefaultEnergyHookConfig(): EnergyHookConfig
  {
    EnergyHookConfig(10.0, 2.0, 30.0, 10.0, 10.0, 100.0, 20.0, 24.0, 100.0, 5.0, 8.0, 1.0, 2.0, 5.0, 5.0, 8.0)
  }

  /** The hook's changing state. */
  datatype EnergyHookData = EnergyHookData(
    state: HookState,
    dir: RotationDir,
    length: real,
    rotation: real,
    energy: real,
    rotateSpeed: real,
    launchSpeed: real,
    retrieveSpeed: real,
    score: int,
    accelerating: bool,
    rotateSwitchCDTimer: real,
    accelerateCDTimer: real,
    switchingDir: bool)

  /** The `Energy` component's two payouts. */
  datatype EnergyValues = EnergyValues(energyAmount: real, scoreAmount: real)

  /** What the tip's slot holds: nothing, or an object with or without an `Energy` component. */
  datatype Slot = EmptySlot | Holding(values: Option<EnergyValues>)

  /** One frame's input. */
  datatype EnergyCommands = EnergyCommands(spaceDown: bool, aDown: bool, shiftHeld: bool)

  function Flip(d: RotationDir): (r: RotationDir)
    ensures r != d
  {
    if d == Clockwise then CounterClockwise else Clockwise
  }

  /** A speed signed by the rotation direction: clockwise is positive. */
  function Directed(speed: real, d: RotationDir): (r: real)
    ensures d == Clockwise ==> r == speed
    ensures d == CounterClockwise ==> r == -speed
  {
    if d == Clockwise then speed else -speed
  }

  /** A cooldown timer counts down only while positive. */
  function CountDown(t: real, dt: real): (r: real)
    ensures t > 0.0 ==> r == t - dt
    ensures t <= 0.0 ==> r == t
  {
    if t > 0.0 then t - dt else t
  }

  /** `Init`, after the field initialisers (which leave acceleration and switching off). */
  function Initial(cfg: EnergyHookConfig): EnergyHookData
  {
    EnergyHookData(ReadyToLaunch, Clockwise, cfg.standbyDistance, 0.0, cfg.initialEnergy,
                   cfg.baseRotateSpeed, cfg.baseLaunchSpeed, cfg.baseRetrieveSpeed, 0, false, 0.0, 0.0, false)
  }

  /** `UpdateCDTimers`. */
  function CDTimerStep(h: EnergyHookData, dt: real): (r: EnergyHookData)
    ensures r == h.(rotateSwitchCDTimer := r.rotateSwitchCDTimer, accelerateCDTimer := r.accelerateCDTimer)
  {
    h.(rotateSwitchCDTimer := CountDown(h.rotateSwitchCDTimer, dt), accelerateCDTimer := CountDown(h.accelerateCDTimer, dt))
  }

  /** `SwitchLaunchOrRetrieve`: Space only launches a hook that is ready. */
  function SpacePressed(h: EnergyHookData): (r: EnergyHookData)
    ensures r == h.(state := r.state)
  {
    if h.state == ReadyToLaunch then h.(state := Launching) else h
  }

  /** The direction-switch gate of `HandleInput`. */
  predicate CanSwitch(cfg: EnergyHookConfig, h: EnergyHookData)
  {
    !h.switchingDir && h.energy >= cfg.rotateSwitchEnergyCost && h.rotateSwitchCDTimer <= 0.0 && h.state == ReadyToLaunch
  }

  /** `StartSwitchRotationDir`: flip, pay the switch cost and start the switch cooldown. */
  function SwitchStarted(cfg: EnergyHookConfig, h: EnergyHookData): (r: EnergyHookData)
    ensures r == h.(switchingDir := true, dir := Flip(h.dir), energy := h.energy - cfg.rotateSwitchEnergyCost,
                    rotateSwitchCDTimer := cfg.rotateSwitchCD)
  {
    h.(switchingDir := true, dir := Flip(h.dir), energy := h.energy - cfg.rotateSwitchEnergyCost,
       rotateSwitchCDTimer := cfg.rotateSwitchCD)
  }

  /** The accelerate-key part of `HandleInput`. */
  function AccelerateInput(cfg: EnergyHookConfig, h: EnergyHookData, shiftHeld: bool): (r: EnergyHookData)
    ensures r == h.(accelerating := r.accelerating, accelerateCDTimer := r.accelerateCDTimer)
  {
    if shiftHeld && !h.accelerating && h.energy > 0.0 && h.accelerateCDTimer <= 0.0 then h.(accelerating := true)
    else if !shiftHeld && h.accelerating then h.(accelerating := false, accelerateCDTimer := cfg.accelerateCD)
    else h
  }

  /** `HandleInput`: Space, then the switch key, then the accelerate key. */
  function InputStep(cfg: EnergyHookConfig, h: EnergyHookData, cmd: EnergyCommands): EnergyHookData
  {
    var h1 := if cmd.spaceDown then SpacePressed(h) else h;
    var h2 := if cmd.aDown && CanSwitch(cfg, h1) then SwitchStarted(cfg, h1) else h1;
    AccelerateInput(cfg, h2, cmd.shiftHeld)
  }

  /** `UpdateRotation`: turn by speed times time, wrap into a full turn, and end a switch once the
      speed is within the tolerance of the base speed in the new direction. */
  function RotationStep(cfg: EnergyHookConfig, h: EnergyHookData, dt: real): (r: EnergyHookData)
    ensures r == h.(rotation := r.rotation, switchingDir := r.switchingDir)
  {
    var rot := Normalize360(h.rotation + PerFrame(h.rotateSpeed, dt));
    var settled := Abs(h.rotateSpeed - Directed(cfg.baseRotateSpeed, h.dir)) < SwitchSettleTolerance;
    h.(rotation := rot, switchingDir := h.switchingDir && !settled)
  }

  /** `UpdateLaunching`. */
  function LaunchStep(cfg: EnergyHookConfig, h: EnergyHookData, dt: real): (r: EnergyHookData)
    ensures r == h.(length := r.length, state := r.state)
  {
    var len := h.length + PerFrame(h.launchSpeed, dt);
    if len >= cfg.maxLength then h.(length := cfg.maxLength, state := Retrieving) else h.(length := len)
  }

  /** `HandleGrabbedEnergy`: an object with an `Energy` component pays its energy (capped by
      `GrabEnergy`) and its rounded score; any held object is then destroyed and the slot emptied. */
  function Harvest(cfg: EnergyHookConfig, h: EnergyHookData, slot: Slot): (r: EnergyHookData)
    ensures r == h.(energy := r.energy, score := r.score)
  {
    match slot
    case Holding(Some(v)) =>
      h.(energy := Min(cfg.initialEnergy, h.energy + v.energyAmount), score := h.score + RoundToInt(v.scoreAmount))
    case _ => h
  }

  /** `UpdateRetrieving`: reaching the standby distance parks the hook and harvests. */
  function RetrieveStep(cfg: EnergyHookConfig, h: EnergyHookData, dt: real, slot: Slot): (r: EnergyHookData)
    ensures r == h.(length := r.length, state := r.state, energy := r.energy, score := r.score)
  {
    var len := h.length - PerFrame(h.retrieveSpeed, dt);
    if len <= cfg.standbyDistance then Harvest(cfg, h.(length := cfg.standbyDistance, state := ReadyToLaunch), slot)
    else h.(length := len)
  }

  /** Whether this frame's motion parks the hook (and so harvests). */
  predicate Parks(cfg: EnergyHookConfig, h: EnergyHookData, dt: real)
  {
    h.state == Retrieving && h.length - PerFrame(h.retrieveSpeed, dt) <= cfg.standbyDistance
  }

  /** The motion part of `UpdateState`. */
  function MotionStep(cfg: EnergyHookConfig, h: EnergyHookData, dt: real, slot: Slot): EnergyHookData
  {
    match h.state
    case ReadyToLaunch => RotationStep(cfg, h, dt)
    case Launching => LaunchStep(cfg, h, dt)
    case Retrieving => RetrieveStep(cfg, h, dt, slot)
  }

  /** The energy drain of `UpdateState`: accelerating costs energy, floored at 0, and an empty
      budget ends the acceleration. */
  function DrainStep(cfg: EnergyHookConfig, h: EnergyHookData, dt: real): (r: EnergyHookData)
    ensures r == h.(energy := r.energy, accelerating := r.accelerating)
  {
    if !h.accelerating then h
    else
      var e := Max(0.0, h.energy - PerFrame(cfg.accelerateEnergyCostPerSecond, dt));
      h.(energy := e, accelerating := e > 0.0)
  }

  /** The speed smoothing of `UpdateState`: each speed is lerped toward its target with
      `t = dt * rate`. */
  function SmoothingStep(cfg: EnergyHookConfig, h: EnergyHookData, dt: real): (r: EnergyHookData)
    ensures r == h.(rotateSpeed := r.rotateSpeed, launchSpeed := r.launchSpeed, retrieveSpeed := r.retrieveSpeed)
  {
    var targetRotate := if h.accelerating then cfg.accelerateRotateSpeed else cfg.baseRotateSpeed;
    var targetLaunch := if h.accelerating then cfg.accelerateLaunchSpeed else cfg.baseLaunchSpeed;
    var targetRetrieve := if h.accelerating then cfg.accelerateRetrieveSpeed else cfg.baseRetrieveSpeed;
    var rate := if h.switchingDir then cfg.switchDirSmoothSpeed else cfg.rotationSmoothSpeed;
    h.(rotateSpeed := Lerp(h.rotateSpeed, Directed(targetRotate, h.dir), PerFrame(rate, dt)),
       launchSpeed := Lerp(h.launchSpeed, targetLaunch, PerFrame(cfg.lengthSmoothSpeed, dt)),
       retrieveSpeed := Lerp(h.retrieveSpeed, targetRetrieve, PerFrame(cfg.lengthSmoothSpeed, dt)))
  }

  /** `UpdateState`. */
  function StateStep(cfg: EnergyHookConfig, h: EnergyHookData, dt: real, slot: Slot): EnergyHookData
  {
    SmoothingStep(cfg, DrainStep(cfg, MotionStep(cfg, h, dt, slot), dt), dt)
  }

  /** One `Update`: cooldowns, input, then state. */
  function EnergyHookStep(cfg: EnergyHookConfig, h: EnergyHookData, dt: real, cmd: EnergyCommands, slot: Slot): EnergyHookData
  {
    StateStep(cfg, InputStep(cfg, CDTimerStep(h, dt), cmd), dt, slot)
  }

  /** The Unity object that was grabbed: its optional `Energy` component, whether `Destroy` has
      been called on it, and whether it hangs from the tip. */
  class GrabbedObject {
    const values: Option<EnergyValues>
    var destroyed: bool
    var attachedToTip: bool

    constructor (v: Option<EnergyValues>)
      ensures values == v && !destroyed && !attachedToTip
    {
      values := v;
      destroyed := false;
      attachedToTip := false;
    }
  }

  /** Assets/Sprites/Hook/HookTipCollisionHandler.cs: a single slot for the grabbed object. */
  class HookTipCollisionHandler {
    var hookSystem: HookSystem?
    var grabbedEnergy: GrabbedObject?

    constructor ()
      ensures hookSystem == null && grabbedEnergy == null
    {
      hookSystem := null;
      grabbedEnergy := null;
    }

    /** The slot as the hook sees it. */
    function SlotView(): (r: Slot)
      reads this
      ensures grabbedEnergy == null <==> r == EmptySlot
    {
      if grabbedEnergy == null then EmptySlot else Holding(grabbedEnergy.values)
    }

    /** `OnTriggerEnter2D`: an Energy-tagged object takes the slot (replacing any previous one),
        is attached to the tip, and the hook is asked to retrieve; anything else is ignored. */
    method OnTriggerEnter2D(tag: string, other: GrabbedObject)
      requires hookSystem != null
      modifies this`grabbedEnergy, other`attachedToTip, hookSystem`currentState
      ensures tag == EnergyTag ==> (
        grabbedEnergy == other && other.attachedToTip &&
        hookSystem.currentState == (if old(hookSystem.currentState) == Launching then Retrieving else old(hookSystem.currentState)))
      ensures tag != EnergyTag ==> (
        grabbedEnergy == old(grabbedEnergy) && other.attachedToTip == old(other.attachedToTip) &&
        hookSystem.currentState == old(hookSystem.currentState))
    {
      if tag == EnergyTag {
        grabbedEnergy := other;
        other.attachedToTip := true;
        hookSystem.RetrieveHook();
      }
    }

    /** `GetGrabbedEnergy`. */
    method GetGrabbedEnergy() returns (r: GrabbedObject?)
      ensures r == grabbedEnergy
    {
      r := grabbedEnergy;
    }

    /** `ReleaseGrabbedEnergy`: detach and forget the held object; nothing to do when empty. */
    method ReleaseGrabbedEnergy()
      modifies this`grabbedEnergy, if grabbedEnergy == null then {} else {grabbedEnergy}
      ensures grabbedEnergy == null
      ensures old(grabbedEnergy) != null ==>
        !old(grabbedEnergy).attachedToTip && old(grabbedEnergy).destroyed == old(grabbedEnergy.destroyed)
    {
      if grabbedEnergy != null {
        grabbedEnergy.attachedToTip := false;
        grabbedEnergy := null;
      }
    }
  }

  /** Assets/Sprites/Hook/HookSystem.cs. */
  class HookSystem {
    const cfg: EnergyHookConfig
    const tipHandler: HookTipCollisionHandler
    var currentState: HookState
    var currentDir: RotationDir
    var currentLength: real
    var currentRotation: real
    var currentEnergy: real
    var currentRotateSpeed: real
    var currentLaunchSpeed: real
    var currentRetrieveSpeed: real
    var currentScore: int
    var isAccelerating: bool
    var rotateSwitchCDTimer: real
    var accelerateCDTimer: real
    var isSwitchingDir: bool

    function Data(): EnergyHookData
      reads this
    {
      EnergyHookData(currentState, currentDir, currentLength, currentRotation, currentEnergy, currentRotateSpeed,
                     currentLaunchSpeed, currentRetrieveSpeed, currentScore, isAccelerating, rotateSwitchCDTimer,
                     accelerateCDTimer, isSwitchingDir)
    }

    /** Field initialisers plus `Start`: `Init`, then the tip's handler learns its hook. */
    constructor (config: EnergyHookConfig, handler: HookTipCollisionHandler)
      modifies handler`hookSystem
      ensures cfg == config && tipHandler == handler && handler.hookSystem == this
      ensures Data() == Initial(config)
    {
      cfg := config;
      tipHandler := handler;
      currentState := ReadyToLaunch;
      currentDir := Clockwise;
      currentLength := config.standbyDistance;
      currentRotation := 0.0;
      currentEnergy := config.initialEnergy;
      currentScore := 0;
      rotateSwitchCDTimer := 0.0;
      accelerateCDTimer := 0.0;
      currentRotateSpeed := config.baseRotateSpeed;
      currentLaunchSpeed := config.baseLaunchSpeed;
      currentRetrieveSpeed := config.baseRetrieveSpeed;
      isAccelerating := false;
      isSwitchingDir := false;
      new;
      handler.hookSystem := this;
    }

    /** `RetrieveHook`: only a launching hook turns back. */
    method RetrieveHook()
      modifies this`currentState
      ensures currentState == (if old(currentState) == Launching then Retrieving else old(currentState))
    {
      if currentState == Launching {
        currentState := Retrieving;
      }
    }

    /** `GrabEnergy`: energy grows by the amount, capped at the initial budget. */
    method GrabEnergy(energyAmount: real)
      modifies this`currentEnergy
      ensures currentEnergy == Min(cfg.initialEnergy, old(currentEnergy) + energyAmount)
    {
      currentEnergy := Min(cfg.initialEnergy, currentEnergy + energyAmount);
    }

    /** `UpdateCDTimers`. */
    method UpdateCDTimers(dt: real)
      modifies this`rotateSwitchCDTimer, this`accelerateCDTimer
      ensures Data() == CDTimerStep(old(Data()), dt)
    {
      if rotateSwitchCDTimer > 0.0 {
        rotateSwitchCDTimer := rotateSwitchCDTimer - dt;
      }
      if accelerateCDTimer > 0.0 {
        accelerateCDTimer := accelerateCDTimer - dt;
      }
    }

    /** `StartSwitchRotationDir`. */
    method StartSwitchRotationDir()
      modifies this`isSwitchingDir, this`currentDir, this`currentEnergy, this`rotateSwitchCDTimer
      ensures Data() == SwitchStarted(cfg, old(Data()))
    {
      isSwitchingDir := true;
      currentDir := Flip(currentDir);
      currentEnergy := currentEnergy - cfg.rotateSwitchEnergyCost;
      rotateSwitchCDTimer := cfg.rotateSwitchCD;
    }

    /** `HandleInput`. */
    method HandleInput(cmd: EnergyCommands)
      modifies this`currentState, this`isSwitchingDir, this`currentDir, this`currentEnergy, this`rotateSwitchCDTimer,
               this`isAccelerating, this`accelerateCDTimer
      ensures Data() == InputStep(cfg, old(Data()), cmd)
    {
      if cmd.spaceDown && currentState == ReadyToLaunch {
        currentState := Launching;
      }
      ghost var h1 := Data();
      if cmd.aDown && !isSwitchingDir && currentEnergy >= cfg.rotateSwitchEnergyCost &&
         rotateSwitchCDTimer <= 0.0 && currentState == ReadyToLaunch {
        StartSwitchRotationDir();
      }
      ghost var h2 := Data();
      assert h2 == if cmd.aDown && CanSwitch(cfg, h1) then SwitchStarted(cfg, h1) else h1;
      if cmd.shiftHeld && !isAccelerating && currentEnergy > 0.0 && accelerateCDTimer <= 0.0 {
        isAccelerating := true;
      } else if !cmd.shiftHeld && isAccelerating {
        isAccelerating := false;
        accelerateCDTimer := cfg.accelerateCD;
      }
    }

    /** `UpdateRotation`. */
    method UpdateRotation(dt: real)
      modifies this`currentRotation, this`isSwitchingDir
      ensures Data() == RotationStep(cfg, old(Data()), dt)
    {
      currentRotation := currentRotation + PerFrame(currentRotateSpeed, dt);
      currentRotation := Normalize360(currentRotation);
      if isSwitchingDir && Abs(currentRotateSpeed - Directed(cfg.baseRotateSpeed, currentDir)) < SwitchSettleTolerance {
        isSwitchingDir := false;
      }
    }

    /** `UpdateLaunching`. */
    method UpdateLaunching(dt: real)
      modifies this`currentLength, this`currentState
      ensures Data() == LaunchStep(cfg, old(Data()), dt)
    {
      currentLength := currentLength + PerFrame(currentLaunchSpeed, dt);
      if currentLength >= cfg.maxLength {
        currentLength := cfg.maxLength;
        currentState := Retrieving;
      }
    }

    /** `HandleGrabbedEnergy`: harvest the held object, destroy it and empty the slot. */
    method HandleGrabbedEnergy()
      modifies this`currentEnergy, this`currentScore, tipHandler`grabbedEnergy,
               if tipHandler.grabbedEnergy == null then {} else {tipHandler.grabbedEnergy}
      ensures Data() == Harvest(cfg, old(Data()), old(tipHandler.SlotView()))
      ensures tipHandler.grabbedEnergy == null
      ensures old(tipHandler.grabbedEnergy) != null ==>
        old(tipHandler.grabbedEnergy).destroyed && !old(tipHandler.grabbedEnergy).attachedToTip
    {
      var grabbed := tipHandler.GetGrabbedEnergy();
      if grabbed != null {
        if grabbed.values.Some? {
          GrabEnergy(grabbed.values.value.energyAmount);
          currentScore := currentScore + RoundToInt(grabbed.values.value.scoreAmount);
        }
        grabbed.destroyed := true;
        tipHandler.ReleaseGrabbedEnergy();
      }
    }

    /** `UpdateRetrieving`. */
    method UpdateRetrieving(dt: real)
      modifies this`currentLength, this`currentState, this`currentEnergy, this`currentScore, tipHandler`grabbedEnergy,
               if tipHandler.grabbedEnergy == null then {} else {tipHandler.grabbedEnergy}
      ensures Data() == RetrieveStep(cfg, old(Data()), dt, old(tipHandler.SlotView()))
      ensures old(Data()).length - PerFrame(old(currentRetrieveSpeed), dt) <= cfg.standbyDistance ==>
        tipHandler.grabbedEnergy == null &&
        (old(tipHandler.grabbedEnergy) != null ==> old(tipHandler.grabbedEnergy).destroyed)
      ensures old(Data()).length - PerFrame(old(currentRetrieveSpeed), dt) > cfg.standbyDistance ==>
        tipHandler.grabbedEnergy == old(tipHandler.grabbedEnergy)
    {
      currentLength := currentLength - PerFrame(currentRetrieveSpeed, dt);
      if currentLength <= cfg.standbyDistance {
        currentLength := cfg.standbyDistance;
        currentState := ReadyToLaunch;
        HandleGrabbedEnergy();
      }
    }

    /** The motion part of `UpdateState`. */
    method UpdateMotion(dt: real)
      modifies this`currentRotation, this`isSwitchingDir, this`currentLength, this`currentState, this`currentEnergy,
               this`currentScore, tipHandler`grabbedEnergy,
               if tipHandler.grabbedEnergy == null then {} else {tipHandler.grabbedEnergy}
      ensures Data() == MotionStep(cfg, old(Data()), dt, old(tipHandler.SlotView()))
      ensures Parks(cfg, old(Data()), dt) ==> tipHandler.grabbedEnergy == null
      ensures !Parks(cfg, old(Data()), dt) ==> tipHandler.grabbedEnergy == old(tipHandler.grabbedEnergy)
    {
      match currentState
      case ReadyToLaunch => UpdateRotation(dt);
      case Launching => UpdateLaunching(dt);
      case Retrieving => UpdateRetrieving(dt);
    }

    /** The drain and speed smoothing of `UpdateState`. */
    method UpdateEnergyAndSpeeds(dt: real)
      modifies this`currentEnergy, this`isAccelerating, this`currentRotateSpeed, this`currentLaunchSpeed,
               this`currentRetrieveSpeed
      ensures Data() == SmoothingStep(cfg, DrainStep(cfg, old(Data()), dt), dt)
    {
      if isAccelerating {
        var cost := PerFrame(cfg.accelerateEnergyCostPerSecond, dt);
        currentEnergy := Max(0.0, currentEnergy - cost);
        if currentEnergy <= 0.0 {
          isAccelerating := false;
        }
      }
      var targetRotate := if isAccelerating then cfg.accelerateRotateSpeed else cfg.baseRotateSpeed;
      var targetLaunch := if isAccelerating then cfg.accelerateLaunchSpeed else cfg.baseLaunchSpeed;
      var targetRetrieve := if isAccelerating then cfg.accelerateRetrieveSpeed else cfg.baseRetrieveSpeed;
      var rate := if isSwitchingDir then cfg.switchDirSmoothSpeed else cfg.rotationSmoothSpeed;
      currentRotateSpeed := Lerp(currentRotateSpeed, Directed(targetRotate, currentDir), PerFrame(rate, dt));
      currentLaunchSpeed := Lerp(currentLaunchSpeed, targetLaunch, PerFrame(cfg.lengthSmoothSpeed, dt));
      currentRetrieveSpeed := Lerp(currentRetrieveSpeed, targetRetrieve, PerFrame(cfg.lengthSmoothSpeed, dt));
    }

    /** `UpdateState`. */
    method UpdateState(dt: real)
      modifies this, tipHandler`grabbedEnergy, if tipHandler.grabbedEnergy == null then {} else {tipHandler.grabbedEnergy}
      ensures Data() == StateStep(cfg, old(Data()), dt, old(tipHandler.SlotView()))
      ensures Parks(cfg, old(Data()), dt) ==> tipHandler.grabbedEnergy == null
      ensures !Parks(cfg, old(Data()), dt) ==> tipHandler.grabbedEnergy == old(tipHandler.grabbedEnergy)
    {
      UpdateMotion(dt);
      UpdateEnergyAndSpeeds(dt);
    }

    /** One frame. */
    method Update(dt: real, cmd: EnergyCommands)
      modifies this, tipHandler`grabbedEnergy, if tipHandler.grabbedEnergy == null then {} else {tipHandler.grabbedEnergy}
      ensures Data() == EnergyHookStep(cfg, old(Data()), dt, cmd, old(tipHandler.SlotView()))
    {
      UpdateCDTimers(dt);
      HandleInput(cmd);
      UpdateState(dt);
    }
  }

  // ---------------------------------------------------------------- properties

  /** Space launches only a ready hook; `RetrieveHook` turns back only a launching one. */
  lemma SpaceLaunchesOnlyWhenReady(h: EnergyHookData)
    ensures SpacePressed(h).state != h.state <==> h.state == ReadyToLaunch
    ensures h.state == ReadyToLaunch ==> SpacePressed(h).state == Launching
  {
  }

  /** A direction switch happens exactly on the key with the gate open (the state checked is the
      one after Space was handled); it pays its cost, so the energy stays non-negative. */
  lemma SwitchGate(cfg: EnergyHookConfig, h: EnergyHookData, cmd: EnergyCommands)
    ensures var h1 := if cmd.spaceDown then SpacePressed(h) else h;
      var r := InputStep(cfg, h, cmd);
      (r.dir != h.dir <==> cmd.aDown && CanSwitch(cfg, h1)) &&
      (r.dir != h.dir ==> r.switchingDir && r.energy == h.energy - cfg.rotateSwitchEnergyCost &&
                          r.energy >= 0.0 && r.rotateSwitchCDTimer == cfg.rotateSwitchCD)
    ensures cmd.spaceDown && h.state == ReadyToLaunch ==> InputStep(cfg, h, cmd).dir == h.dir
  {
  }

  /** Launching clamps at `maxLength` and turns back in the same frame. */
  lemma LaunchClampsAndTurns(cfg: EnergyHookConfig, h: EnergyHookData, dt: real)
    requires h.state == Launching
    ensures var r := LaunchStep(cfg, h, dt);
      r.length <= cfg.maxLength && (r.state == Retrieving <==> h.length + PerFrame(h.launchSpeed, dt) >= cfg.maxLength)
  {
  }

  /** Retrieving clamps at the standby distance, parks the hook and harvests exactly then. */
  lemma RetrieveParksAndHarvests(cfg: EnergyHookConfig, h: EnergyHookData, dt: real, v: EnergyValues)
    requires h.state == Retrieving
    ensures var r := RetrieveStep(cfg, h, dt, Holding(Some(v)));
      (r.state == ReadyToLaunch <==> Parks(cfg, h, dt)) &&
      (r.state == ReadyToLaunch ==>
        r.length == cfg.standbyDistance && r.energy == Min(cfg.initialEnergy, h.energy + v.energyAmount) &&
        r.score == h.score + RoundToInt(v.scoreAmount)) &&
      (r.state != ReadyToLaunch ==> r.energy == h.energy && r.score == h.score && r.length > cfg.standbyDistance)
  {
  }

  /** The accelerate drain never leaves negative energy and ends the acceleration exactly when
      the budget is used up. */
  lemma DrainFloorsAtZero(cfg: EnergyHookConfig, h: EnergyHookData, dt: real)
    requires h.accelerating
    ensures var r := DrainStep(cfg, h, dt);
      r.energy >= 0.0 && (!r.accelerating <==> r.energy == 0.0) &&
      r.energy == Max(0.0, h.energy - PerFrame(cfg.accelerateEnergyCostPerSecond, dt))
  {
  }

  /** A switch settles (in the ready state) exactly when the rotation speed is within 0.5 of the
      base speed in the new direction. */
  lemma SwitchSettles(cfg: EnergyHookConfig, h: EnergyHookData, dt: real)
    requires h.state == ReadyToLaunch && h.switchingDir
    ensures !RotationStep(cfg, h, dt).switchingDir <==>
      Abs(h.rotateSpeed - Directed(cfg.baseRotateSpeed, h.dir)) < SwitchSettleTolerance
    ensures 0.0 <= RotationStep(cfg, h, dt).rotation < 360.0
  {
  }

  /** Each smoothed speed ends between its old value and its target. */
  lemma SmoothingStaysBetween(cfg: EnergyHookConfig, h: EnergyHookData, dt: real)
    ensures var r := SmoothingStep(cfg, h, dt);
      var tl := if h.accelerating then cfg.accelerateLaunchSpeed else cfg.baseLaunchSpeed;
      var tr := if h.accelerating then cfg.accelerateRetrieveSpeed else cfg.baseRetrieveSpeed;
      Min(h.launchSpeed, tl) <= r.launchSpeed <= Max(h.launchSpeed, tl) &&
      Min(h.retrieveSpeed, tr) <= r.retrieveSpeed <= Max(h.retrieveSpeed, tr)
  {
  }

  /** The energy budget stays within `[0, initialEnergy]` through a whole frame, whatever the input,
      when the costs and the harvested amounts are non-negative. */
  predicate EnergyInRange(cfg: EnergyHookConfig, h: EnergyHookData)
  {
    0.0 <= h.energy <= cfg.initialEnergy
  }

  lemma StepKeepsEnergyInRange(cfg: EnergyHookConfig, h: EnergyHookData, dt: real, cmd: EnergyCommands, slot: Slot)
    requires EnergyInRange(cfg, h)
    requires cfg.rotateSwitchEnergyCost >= 0.0 && cfg.accelerateEnergyCostPerSecond >= 0.0 && dt >= 0.0
    requires slot.Holding? && slot.values.Some? ==> slot.values.value.energyAmount >= 0.0
    ensures EnergyInRange(cfg, EnergyHookStep(cfg, h, dt, cmd, slot))
  {
    var h1 := InputStep(cfg, CDTimerStep(h, dt), cmd);
    assert EnergyInRange(cfg, h1);
    var h2 := MotionStep(cfg, h1, dt, slot);
    assert EnergyInRange(cfg, h2);
    var h3 := DrainStep(cfg, h2, dt);
    assert EnergyInRange(cfg, h3);
  }

  /** Harvesting never raises energy above the initial budget. */
  lemma HarvestCapsEnergy(cfg: EnergyHookConfig, h: EnergyHookData, slot: Slot)
    ensures Harvest(cfg, h, slot).energy <= Max(h.energy, cfg.initialEnergy)
    ensures slot == EmptySlot || slot == Holding(None) ==> Harvest(cfg, h, slot) == h
  {
  }
}
