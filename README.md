# SpaceWanderer gameplay core in Dafny

SpaceWanderer is a Unity 2D game. The player's ship swings a grappling hook around itself. The
hook launches on Space, comes back, and harvests what it grabbed. Its temperature rises while it
works, and once past a threshold it overheats, releases its load and cools down. Shields,
missile and net launchers and lasers all draw on the hook. In the "Scripts" generation they add
heat; in the older "Sprites" generation they spend an energy budget. Around the ship, spawners
place collectibles, obstacles and energy blocks, obstacles take damage and drift off screen, a
path follower walks waypoint paths, and a table-driven dialogue player shows the story.

This project models those components one Dafny module per source file:

- **Per-component modules.** Every MonoBehaviour whose fields change in place is a `class` with
  the same fields.
- **Frame methods.** Every method that runs in a frame has a `modifies` clause. Its `ensures`
  ties the new state to a pure function of the old state, usually
  `Data() == XxxStep(old(Data()), ...)`.
- **Lemmas.** They prove what the game relies on about those functions: gates, state-machine
  order, ranges, invariants, and round trips.
- **Engine inputs.** Inputs the engine supplies become parameters:
  - `Time.deltaTime` and `Time.time`;
  - key presses;
  - the camera's viewport verdicts;
  - `Random` draws;
  - physics contacts.
- **Float arithmetic.** Floats are `real`.
- **Shared math.** `UnityMath` holds the `Mathf` functions the sources use, with their edge cases
  (e.g. `Sign(0) == 1`, the C# float remainder `%` whose sign follows the dividend).

Some behaviours of the code are easy to misread; the model follows the code in each:

- **Overheating leaves acceleration on.** Entering Overheating does not stop acceleration:
  the assignment that would, line 396 of `Assets/Scripts/Hook/HookSystem.cs`, is commented out.
- **Retrieve-speed floor.** The comment at `Assets/Scripts/Hook/HookSystem.cs:504` says the
  retrieve speed bottoms out at 10% of the base speed, but the code returns
  `Mathf.Max(0.1f, …)`, an absolute floor of 0.1. The model uses the absolute floor.
- **Scripts hook cannot grab.** A collectible touched by the Scripts hook tip is first set to
  Colliding, so the grab that follows is always refused.

## Model

| member | source | states |
|---|---|---|
| UnityMath.Sign | Assets/Scripts/Hook/HookSystem.cs:482 | `Mathf.Sign` is ±1 and `Sign(x) * x == |x|` (zero counts as positive) |
| UnityMath.Lerp | Assets/Sprites/Hook/HookSystem.cs:236-242 | `Mathf.Lerp` clamps `t`: the result lies between the ends, equals `a` for `t <= 0`, `b` for `t >= 1`, and `a + (b - a) * t` in between |
| UnityMath.MoveTowards | Assets/Scripts/Hook/HookSystem.cs:493 | `Mathf.MoveTowards` reaches the target when within `maxDelta`; otherwise it moves exactly `maxDelta` toward the target, never overshooting, so the distance left shrinks by `maxDelta` |
| UnityMath.Clamp | Assets/Scripts/Obstacle/Obstacle.cs:124 | `Mathf.Clamp` lands in `[min, max]` for an ordered range: `min` below it, `max` above it, and the value itself inside |
| UnityMath.CeilToInt | Assets/Scripts/Shield/ShieldController.cs:241 | `Mathf.CeilToInt` is the least integer not below its argument |
| UnityMath.RoundToInt | Assets/Sprites/Hook/HookSystem.cs:310 | `Mathf.RoundToInt` is within one half of its argument and rounds halves to even |
| UnityMath.FMod | Assets/Scripts/Hook/HookSystem.cs:512 | the C# float `%` lies in `[0, m)` for a non-negative dividend and in `(-m, 0]` for a negative one |
| UnityMath.FModBounds | Assets/Scripts/Hook/HookSystem.cs:512 | the truncated quotient leaves a remainder with the dividend's sign, of size below `m` |
| UnityMath.Normalize360IsFlooredMod | Assets/Scripts/Hook/HookSystem.cs:512 | `(a % 360 + 360) % 360` is exactly the floored remainder of `a` by 360 |
| UnityMath.LerpBetween | Assets/Sprites/Hook/HookSystem.cs:236-242 | an interpolation with `t` in `[0, 1]` stays between its ends |
| Hook.Initialised | Assets/Scripts/Hook/HookSystem.cs:225-252 | `Init` puts the hook at standby, angle 0, full health, initial temperature, score 0, Normal phase, base rotation speed, nothing grabbed, no flags, and keeps the scheduled invokes |
| Hook.TipMomentum | Assets/Scripts/Hook/HookTipCollisionHandler.cs:31 | the tip's momentum is non-negative for non-negative speed and mass, zero for a massless tip, and positive for a tip with mass exactly when it moves outward |
| Hook.CountDown | Assets/Scripts/Hook/HookSystem.cs:273-277 | a cooldown timer moves by exactly `dt` while positive and is left alone otherwise |
| Hook.SpacePressed | Assets/Scripts/Hook/HookSystem.cs:310-317 | Space changes only the state, and only a ready hook, which then launches |
| Hook.SwitchStarted | Assets/Scripts/Hook/HookSystem.cs:320-332 | a switch flips the direction, targets the mode's speed in the new direction, adds `rotateSwitchHeat` and restarts the switch cooldown |
| Hook.AccelerateInput | Assets/Scripts/Hook/HookSystem.cs:295-306 | acceleration starts exactly when Shift is held in Normal with the cooldown elapsed, and ends exactly on release, which restarts the cooldown |
| Hook.LaunchStep | Assets/Scripts/Hook/HookSystem.cs:516-525 | launching turns back exactly when the rope reaches `maxLength`, clamping it there; otherwise the rope grows by speed times `dt` |
| Hook.RetrieveStep | Assets/Scripts/Hook/HookSystem.cs:528-538 | retrieving parks exactly when the rope reaches standby, clamping it and notifying the tip once |
| Hook.HookRetrieved | Assets/Scripts/Hook/HookSystem.cs:541-548 | `RetrieveHook` turns back only a launching hook, and then resets the tip's grab |
| Hook.DissipationPower | Assets/Scripts/Hook/HookSystem.cs:465-469 | dissipation is zero at ambient and non-negative above it |
| Hook.Released | Assets/Scripts/Hook/HookSystem.cs:444-453 | a forced release parks the hook at its current length, drops the mass, releases the objects and schedules one resume 0.1 s later |
| Hook.Resumed | Assets/Scripts/Hook/HookSystem.cs:456-462 | the resume sends only a parked hook back to retrieving |
| Hook.TargetRotationStep | Assets/Scripts/Hook/HookSystem.cs:429-440 | outside a switch the target rotation speed is the mode's speed in the current direction; during a switch it is kept |
| Hook.TargetRetrieveSpeed | Assets/Scripts/Hook/HookSystem.cs:500-506 | the retrieve speed never falls below 0.1 |
| Hook.RotateSpeedStep | Assets/Scripts/Hook/HookSystem.cs:474-488 | the rotation speed reaches its target exactly when within the frame's step, which also ends the switch; otherwise it moves by at most the step |
| Hook.StillPending | Assets/Scripts/Hook/HookSystem.cs:452 | after the due invokes run, exactly the not-yet-due ones remain, each with time left |
| Hook.StillPendingSingle | Assets/Scripts/Hook/HookSystem.cs:452 | one scheduled resume stays exactly when it has time left |
| Hook.StillPendingAppend | Assets/Scripts/Hook/HookSystem.cs:452 | dropping due resumes works piecewise over a concatenation, so the waiting ones keep their order and number |
| Hook.Damaged | Assets/Scripts/Hook/HookSystem.cs:641-655 | health drops by the damage, floored at 0, and the death handler runs exactly when it reaches 0 |
| Hook.HookSystem.constructor | Assets/Scripts/Hook/HookSystem.cs:113-141 | the field initialisers |
| Hook.HookSystem.Init | Assets/Scripts/Hook/HookSystem.cs:225-252 | the fields become `Initialised` of the old ones |
| Hook.HookSystem.Tick | Assets/Scripts/Hook/HookSystem.cs:255-264 | one frame (the update, then the delayed invokes that have come due) is `TickStep` of the old state |
| Hook.HookSystem.AgeThenUpdate | Assets/Scripts/Hook/HookSystem.cs:255-264 | the scheduled invokes age by the frame time, then `Update` runs as `UpdateStep` says |
| Hook.HookSystem.Update | Assets/Scripts/Hook/HookSystem.cs:255-264 | timers, input, state and smoothing, in order, are `UpdateStep` of the old state |
| Hook.HookSystem.UpdateCDTimers | Assets/Scripts/Hook/HookSystem.cs:273-277 | both cooldown timers count down by `CountDown` |
| Hook.HookSystem.HandleInput | Assets/Scripts/Hook/HookSystem.cs:280-307 | the new state is `InputStep` of the old |
| Hook.HookSystem.HandleAccelerateKey | Assets/Scripts/Hook/HookSystem.cs:295-306 | the new state is `AccelerateInput` of the old |
| Hook.HookSystem.SwitchLaunchOrRetrieve | Assets/Scripts/Hook/HookSystem.cs:310-317 | the new state is `SpacePressed` of the old |
| Hook.HookSystem.StartSwitchRotationDir | Assets/Scripts/Hook/HookSystem.cs:320-332 | the new state is `SwitchStarted` of the old |
| Hook.HookSystem.UpdateState | Assets/Scripts/Hook/HookSystem.cs:335-441 | the new state is `StateStep` of the old: motion, heat, dissipation, overheat, rotation target |
| Hook.HookSystem.UpdateMotion | Assets/Scripts/Hook/HookSystem.cs:338-354 | rotation, launching or retrieving, then the off-screen recall, as `MotionStep` |
| Hook.HookSystem.GenerateHeat | Assets/Scripts/Hook/HookSystem.cs:356-379 | the temperature grows by `HeatGain` |
| Hook.HookSystem.DissipateHeat | Assets/Scripts/Hook/HookSystem.cs:381-385 | the temperature falls by dissipation power times `dt` over the heat capacity |
| Hook.HookSystem.UpdateOverheat | Assets/Scripts/Hook/HookSystem.cs:387-427 | the overheat phase, its timer, the release and the cooling event follow `OverheatStep` |
| Hook.HookSystem.CountDownOverheat | Assets/Scripts/Hook/HookSystem.cs:403-417 | while overheating the timer runs; at its maximum anything grabbed while retrieving is released, cooling starts, the cooling event fires and acceleration stops, as `OverheatCountdown` says |
| Hook.HookSystem.UpdateTargetRotateSpeed | Assets/Scripts/Hook/HookSystem.cs:429-440 | the rotation target follows `TargetRotationStep` |
| Hook.HookSystem.ReleaseGrabbedObjects | Assets/Scripts/Hook/HookSystem.cs:444-453 | the new state is `Released` of the old |
| Hook.HookSystem.ResumeRetrieveAfterRelease | Assets/Scripts/Hook/HookSystem.cs:456-462 | the new state is `Resumed` of the old |
| Hook.HookSystem.RunDueInvokes | Assets/Scripts/Hook/HookSystem.cs:452-462 | every invoke that has come due runs and is dropped; the others wait |
| Hook.HookSystem.UpdateSpeedSmoothing | Assets/Scripts/Hook/HookSystem.cs:472-497 | rotation, launch and retrieve speeds follow `SmoothingStep` |
| Hook.HookSystem.CalculateTargetRetrieveSpeed | Assets/Scripts/Hook/HookSystem.cs:500-506 | returns `TargetRetrieveSpeed`, at least 0.1 |
| Hook.HookSystem.UpdateRotation | Assets/Scripts/Hook/HookSystem.cs:509-513 | the angle advances by speed times `dt` and is normalised into `[0, 360)` |
| Hook.HookSystem.UpdateLaunching | Assets/Scripts/Hook/HookSystem.cs:516-525 | length and state follow `LaunchStep` |
| Hook.HookSystem.UpdateRetrieving | Assets/Scripts/Hook/HookSystem.cs:528-538 | length, state and the tip notification follow `RetrieveStep` |
| Hook.HookSystem.RetrieveHook | Assets/Scripts/Hook/HookSystem.cs:541-548 | the new state is `HookRetrieved` of the old |
| Hook.HookSystem.AddScore | Assets/Scripts/Hook/HookSystem.cs:634-638 | the score grows by the amount |
| Hook.HookSystem.TakeDamage | Assets/Scripts/Hook/HookSystem.cs:641-649 | the new state is `Damaged` of the old |
| Hook.HookSystem.AddHeat | Assets/Scripts/Hook/HookSystem.cs:681-684 | the temperature grows by the amount |
| Hook.HookSystem.AddGrabbedMass | Assets/Scripts/Hook/HookSystem.cs:687-690 | the grabbed mass grows by the amount |
| Hook.HookSystem.ResetGrabbedMass | Assets/Scripts/Hook/HookSystem.cs:693-696 | the grabbed mass becomes 0 |
| HookProperties.InputSwitchesIff | Assets/Scripts/Hook/HookSystem.cs:288-293 | a direction switch happens if and only if A is pressed with no switch under way, the Normal phase and the cooldown elapsed |
| HookProperties.InputLaunchesOnlyOnSpace | Assets/Scripts/Hook/HookSystem.cs:283-286 | input changes the motion state only by launching a ready hook on Space |
| HookProperties.RotationStepIsFlooredMod | Assets/Scripts/Hook/HookSystem.cs:509-513 | the waiting hook's new angle is the floored remainder of the advanced angle by 360 |
| HookProperties.MotionRotatesOnlyWhenReady | Assets/Scripts/Hook/HookSystem.cs:338-354 | the angle changes only in ReadyToLaunch and always stays within `[0, 360)` |
| HookProperties.OutOfBoundsRetrieves | Assets/Scripts/Hook/HookSystem.cs:343-350 | a launching hook that leaves the screen is retrieving after the frame |
| HookProperties.HeatGainGrabbedMassOnlyWhileRetrieving | Assets/Scripts/Hook/HookSystem.cs:359-364 | the grabbed mass adds heat only while retrieving |
| HookProperties.HeatGainNonnegative | Assets/Scripts/Hook/HookSystem.cs:356-379 | moving the rope never cools the hook |
| HookProperties.DissipationTowardAmbient | Assets/Scripts/Hook/HookSystem.cs:381-385 | with `k * dt <= 1` one dissipation step moves the temperature toward ambient without crossing it |
| HookProperties.OverheatPhaseOrder | Assets/Scripts/Hook/HookSystem.cs:387-427 | the phases go Normal to Overheating to Cooling to Normal, one step at a time, each on its own condition |
| HookProperties.OverheatEntryKeepsAcceleration | Assets/Scripts/Hook/HookSystem.cs:390-397 | entering Overheating zeroes its timer and leaves acceleration as it was |
| HookProperties.CoolingEntryReleases | Assets/Scripts/Hook/HookSystem.cs:403-417 | entering Cooling stops acceleration and raises the cooling event, and releases the load exactly when retrieving with mass |
| HookProperties.CoolingFloorsAtZero | Assets/Scripts/Hook/HookSystem.cs:418-426 | cooling never takes the temperature below 0 |
| HookProperties.StateStepTarget | Assets/Scripts/Hook/HookSystem.cs:429-440 | outside a switch, the target speed after the frame is the mode's speed (accelerated or base) in the current direction |
| HookProperties.RetrieveSpeedMonotone | Assets/Scripts/Hook/HookSystem.cs:500-506 | more grabbed mass never makes retrieving faster |
| HookProperties.RetrieveSpeedUnloaded | Assets/Scripts/Hook/HookSystem.cs:500-506 | unloaded, the retrieve speed is twice the mode's base speed, or 0.1 if that is larger |
| HookProperties.InvokeStepResumes | Assets/Scripts/Hook/HookSystem.cs:452-462 | only due invokes run; a due resume frees a parked hook |
| HookProperties.ResumedIdempotent | Assets/Scripts/Hook/HookSystem.cs:456-462 | two resumes in a frame act like one |
| HookProperties.InitEstablishesInv | Assets/Scripts/Hook/HookSystem.cs:225-252 | `Init` establishes the frame invariant |
| HookProperties.MotionKeepsInv | Assets/Scripts/Hook/HookSystem.cs:338-354 | motion keeps the rope within `[standbyDistance, maxLength]` and the angle within a turn |
| HookProperties.OverheatKeepsInv | Assets/Scripts/Hook/HookSystem.cs:387-427 | overheat handling keeps the invariant |
| HookProperties.StateStepKeepsInv | Assets/Scripts/Hook/HookSystem.cs:335-441 | the state update keeps the invariant |
| HookProperties.SmoothingKeepsInv | Assets/Scripts/Hook/HookSystem.cs:472-497 | speed smoothing keeps the invariant |
| HookProperties.TickKeepsInv | Assets/Scripts/Hook/HookSystem.cs:255-264 | every frame keeps the invariant (rope within reach, angle within a turn, non-negative speeds and mass, scheduled resumes at most 0.1 s away) |
| HookProperties.TickKeepsTemperatureNonnegative | Assets/Scripts/Hook/HookSystem.cs:356-427 | with a stable step (`k * dt <= 1`) a frame never makes the temperature negative |
| HookProperties.StateStepKeepsTemperatureNonnegative | Assets/Scripts/Hook/HookSystem.cs:356-427 | the same for the state update alone |
| HookProperties.TickNeverSkipsCooling | Assets/Scripts/Hook/HookSystem.cs:403-426 | an overheating hook never returns to Normal in one frame |
| HookTip.NoScorersScoreNothing | Assets/Scripts/Hook/HookTipCollisionHandler.cs:46-54 | a harvest of objects none of which scores adds nothing |
| HookTip.HookTipCollisionHandler.constructor | Assets/Scripts/Hook/HookTipCollisionHandler.cs:5 | the handler knows its hook and the tip's mass |
| HookTip.HookTipCollisionHandler.OnTriggerEnter2D | Assets/Scripts/Hook/HookTipCollisionHandler.cs:7-22 | a tagged collectible takes the hit (`HookCollided` with the tip's momentum) and the grab offered next is refused, so the hook is never recalled; other contacts change nothing |
| HookTip.HookTipCollisionHandler.OnCollisionEnter2D | Assets/Scripts/Hook/HookTipCollisionHandler.cs:24-43 | a tagged obstacle takes the tip's momentum as damage, and the hook turns back exactly when the momentum is at least 0.7 of its destroying momentum |
| HookTip.HookTipCollisionHandler.OnRetrieveComplete | Assets/Scripts/Hook/HookTipCollisionHandler.cs:46-54 | every carried collectible is harvested once and the hook's score grows by their total |
| Collectible.HookCollided | Assets/Scripts/MapObject/CollectibleObject.cs:37-49 | a destroyed object stays destroyed; any other becomes Colliding, or Destroyed exactly when the momentum reaches `destroyedMomentum` |
| Collectible.HarvestScore | Assets/Scripts/MapObject/CollectibleObject.cs:75-91 | a harvest adds the score value for every kind that awards one |
| Collectible.HarvestCalls | Assets/Scripts/MapObject/CollectibleObject.cs:71-94 | a harvest grants energy exactly for resources and energy props, and always ends by destroying the object |
| Collectible.CollectibleObject.constructor | Assets/Scripts/MapObject/CollectibleObject.cs:8-20 | the inspector values, FreeFloating (the enum's default), no calls made |
| Collectible.CollectibleObject.Start | Assets/Scripts/MapObject/CollectibleObject.cs:24-35 | the object becomes FreeFloating |
| Collectible.CollectibleObject.OnHookCollision | Assets/Scripts/MapObject/CollectibleObject.cs:37-49 | the state becomes `HookCollided` of the old one, and the object is destroyed once on a hard hit |
| Collectible.CollectibleObject.OnGrabbed | Assets/Scripts/MapObject/CollectibleObject.cs:51-69 | the grab succeeds exactly for a free-floating object, which becomes Grabbed |
| Collectible.CollectibleObject.OnHarvested | Assets/Scripts/MapObject/CollectibleObject.cs:71-94 | the object becomes Harvested, the score grows by `HarvestScore` and the calls are `HarvestCalls` |
| Collectible.CollectibleObject.DestroyObject | Assets/Scripts/MapObject/CollectibleObject.cs:96-100 | the object becomes Destroyed and is removed |
| Collectible.GrabAfterCollisionRefused | Assets/Scripts/MapObject/CollectibleObject.cs:37-69 | after a hook collision the object is never grabbable, so the Scripts tip can never grab |
| Collectible.DestroyedIsFinal | Assets/Scripts/MapObject/CollectibleObject.cs:39 | a destroyed object stays destroyed under any hit |
| MovingObstacles.Destroyed | Assets/Scripts/MapObject/MovingObstacle.cs:95-106 | destruction marks the obstacle and counts one more removal |
| MovingObstacles.Damaged | Assets/Scripts/MapObject/MovingObstacle.cs:86-93 | health drops by the amount with no floor; the obstacle is destroyed, once, the first time health reaches 0 |
| MovingObstacles.HookHit | Assets/Scripts/MapObject/MovingObstacle.cs:70-83 | a hook hit damages by the momentum and destroys when health reaches 0 or the momentum reaches `destroyedMomentum` |
| MovingObstacles.MovingObstacle.constructor | Assets/Scripts/MapObject/MovingObstacle.cs:7-30 | the inspector values, alive |
| MovingObstacles.MovingObstacle.TakeDamage | Assets/Scripts/MapObject/MovingObstacle.cs:86-93 | the new state is `Damaged` of the old |
| MovingObstacles.MovingObstacle.DestroyObstacle | Assets/Scripts/MapObject/MovingObstacle.cs:95-106 | the new state is `Destroyed` of the old |
| MovingObstacles.MovingObstacle.OnCollisionEnter2D | Assets/Scripts/MapObject/MovingObstacle.cs:59-84 | a destroyed obstacle ignores hits; the ship takes `damage` and the obstacle speed times mass; with the ship's `Die` call logged exactly when its health reaches 0; a hook hit is `HookHit`; other tags change nothing, and no other branch touches the ship's call log |
| MovingObstacles.MovingObstacle.OnHookCollision | Assets/Scripts/MapObject/MovingObstacle.cs:109-121 | a live obstacle takes `HookHit`; a destroyed one is unchanged |
| MovingObstacles.DestructionIsFinal | Assets/Scripts/MapObject/MovingObstacle.cs:86-93 | damage to a destroyed obstacle never destroys it again |
| MovingObstacles.HardHitDestroysTwice | Assets/Scripts/MapObject/MovingObstacle.cs:76-82 | a hook hit that both empties health and reaches `destroyedMomentum` runs `DestroyObstacle` twice |
| Shield.Segments | Assets/Scripts/Shield/ShieldController.cs:241 | the collider has at least 3 segments and at least `collisionSegments * shieldAngle / 360` |
| Shield.ColliderPath | Assets/Scripts/Shield/ShieldController.cs:233-256 | the path is the centre followed by `segments + 1` rim points at the computed angles |
| Shield.Activated | Assets/Scripts/Shield/ShieldController.cs:266-330 | activation makes the shield Active with a shield, a material exactly when the prefab renders, and a fresh collider, keeping health and cooldown |
| Shield.CloseStarted | Assets/Scripts/Shield/ShieldController.cs:161-167 | closing starts only with a shield, and then zeroes the close timer |
| Shield.AnimationStep | Assets/Scripts/Shield/ShieldController.cs:169-193 | without a material nothing happens; otherwise the collider is rebuilt and an exhausted Active shield starts closing |
| Shield.ClosingStep | Assets/Scripts/Shield/ShieldController.cs:119-139 | the close timer advances by `dt`; with a material, reaching the duration removes the shield and starts the full cooldown |
| Shield.CooldownStep | Assets/Scripts/Shield/ShieldController.cs:141-147 | the cooldown counts down and the shield closes at or below 0 |
| Shield.ForcedClosed | Assets/Scripts/Shield/ShieldController.cs:152-159 | the callbacks close only an Active shield |
| Shield.HealthRestored | Assets/Scripts/Shield/ShieldController.cs:358-368 | health grows up to the maximum; a shield in Cooldown that regains health is Closed with the cooldown cleared |
| Shield.ShieldController.constructor | Assets/Scripts/Shield/ShieldController.cs:76-91 | field initialisers plus `Start`: closed, full health, the hook singleton |
| Shield.ShieldController.CanActivateShield | Assets/Scripts/Shield/ShieldController.cs:258-264 | true exactly with a hook in Normal, the cooldown elapsed and health left |
| Shield.ShieldController.UpdateShieldCollider | Assets/Scripts/Shield/ShieldController.cs:233-256 | the collider path becomes `ColliderPath` |
| Shield.ShieldController.StartCloseAnimation | Assets/Scripts/Shield/ShieldController.cs:161-167 | the new state is `CloseStarted` of the old |
| Shield.ShieldController.ActivateShield | Assets/Scripts/Shield/ShieldController.cs:266-330 | the new state is `Activated`, and the hook heats by `activateHeat` |
| Shield.ShieldController.UpdateShieldAnimation | Assets/Scripts/Shield/ShieldController.cs:169-193 | the new state is `AnimationStep` of the old |
| Shield.ShieldController.Update | Assets/Scripts/Shield/ShieldController.cs:93-149 | the new state is `ShieldStep` of the old, and the hook heats by `ShieldHeat` |
| Shield.ShieldController.ForceCloseShieldOnOverheat | Assets/Scripts/Shield/ShieldController.cs:152-159 | the new state is `ForcedClosed` of the old |
| Shield.ShieldController.OnShieldDestroyed | Assets/Scripts/Shield/ShieldController.cs:339-345 | the new state is `ForcedClosed` of the old |
| Shield.ShieldController.OnShieldHealthChanged | Assets/Scripts/Shield/ShieldController.cs:333-336 | health becomes the reported value; nothing else changes |
| Shield.ShieldController.RestoreShieldHealth | Assets/Scripts/Shield/ShieldController.cs:358-368 | the new state is `HealthRestored` of the old |
| Shield.CloseFinishedIff | Assets/Scripts/Shield/ShieldController.cs:121-129 | for a positive duration the close test `timer / duration >= 1` means the timer has reached the duration |
| Shield.ActivationGate | Assets/Scripts/Shield/ShieldController.cs:97-101 | from Closed the shield comes up exactly on the toggle key with the gate open; otherwise it stays as it was |
| Shield.StepFollowsCycle | Assets/Scripts/Shield/ShieldController.cs:93-149 | each state moves only to itself or to its successor in Closed, Active, Closing, Cooldown |
| Shield.ActiveFrame | Assets/Scripts/Shield/ShieldController.cs:104-117 | an Active shield starts closing exactly on the toggle key or on exhaustion with a material; every frame without the key heats the hook by `heatPerSecond * dt` |
| Shield.NoMaterialIgnoresExhaustion | Assets/Scripts/Shield/ShieldController.cs:169-171 | without a material an exhausted Active shield is never closed by `Update` |
| Shield.ForcedCloseCloses | Assets/Scripts/Shield/ShieldController.cs:152-167 | the callbacks move an Active shield into Closing with the timer at 0 |
| Shield.ClosingEndsOnTime | Assets/Scripts/Shield/ShieldController.cs:119-139 | closing with a material ends exactly when the timer reaches the duration, starting the full cooldown |
| Shield.ClosingWithoutMaterialStays | Assets/Scripts/Shield/ShieldController.cs:119-139 | without a material the shield never leaves Closing |
| Shield.CooldownEnds | Assets/Scripts/Shield/ShieldController.cs:141-147 | Cooldown returns to Closed exactly when the decremented timer is at or below 0 |
| Shield.RestoreBounds | Assets/Scripts/Shield/ShieldController.cs:358-361 | restoring never lowers health and never exceeds the maximum |
| Shield.HeatNonnegative | Assets/Scripts/Shield/ShieldController.cs:112-115 | with non-negative rates the shield never cools the hook |
| Shield.StartedInv | Assets/Scripts/Shield/ShieldController.cs:76-91 | a started controller has a shield object exactly in Active and Closing |
| Shield.StepKeepsInv | Assets/Scripts/Shield/ShieldController.cs:93-149 | every frame keeps that invariant |
| Shield.CallbacksKeepInv | Assets/Scripts/Shield/ShieldController.cs:333-368 | the health and destruction callbacks keep it too |
| Shield.ColliderPathSpansArc | Assets/Scripts/Shield/ShieldController.cs:240-253 | the rim runs from `angleOffset - shieldAngle / 2` to `angleOffset + shieldAngle / 2`, in increasing angle for a positive arc |
| Shield.ArcShareIncreasing | Assets/Scripts/Shield/ShieldController.cs:245 | successive rim points sweep a strictly larger share of the arc |
| SimpleShield.ShieldController.constructor | Assets/Scripts/ShieldController.cs:26-30 | closed, no cooldown, the hook found on the same object |
| SimpleShield.ShieldController.CanActivateShield | Assets/Scripts/ShieldController.cs:68-71 | true exactly with a hook in Normal and the cooldown elapsed |
| SimpleShield.ShieldController.ActivateShield | Assets/Scripts/ShieldController.cs:73-93 | the shield appears, the state is Active and the hook heats by the activation heat |
| SimpleShield.ShieldController.DeactivateShield | Assets/Scripts/ShieldController.cs:95-104 | the shield goes away and the full cooldown starts |
| SimpleShield.ShieldController.Update | Assets/Scripts/ShieldController.cs:32-66 | the new state is `SimpleShieldStep` of the old, and the hook heats by `SimpleShieldHeat` |
| SimpleShield.SimpleActivationGate | Assets/Scripts/ShieldController.cs:36-41 | from Closed the shield comes up exactly on the toggle key with a Normal-phase hook and the cooldown elapsed |
| SimpleShield.SimpleActiveFrame | Assets/Scripts/ShieldController.cs:43-55 | an Active frame either takes the shield down into a full cooldown on the key or keeps it and heats the hook |
| SimpleShield.SimpleCooldownEnds | Assets/Scripts/ShieldController.cs:57-64 | Cooldown returns to Closed exactly when the decremented timer is at or below 0 |
| SimpleShield.SimpleStepKeepsInv | Assets/Scripts/ShieldController.cs:32-66 | a shield object exists exactly while Active, through every frame |
| MissileLaunchers.Fired | Assets/Scripts/Missile/MissileLauncher.cs:141-169 | firing a usable launcher with a prefab spends one missile and stamps the time; otherwise nothing changes |
| MissileLaunchers.MissileLauncher.constructor | Assets/Scripts/Missile/MissileLauncher.cs:51-62 | `Awake` clamps the inspector count into `[0, maxMissileCount]` |
| MissileLaunchers.MissileLauncher.CanFire | Assets/Scripts/Missile/MissileLauncher.cs:125-139 | usable, cooled down, hook below its threshold, a missile left |
| MissileLaunchers.MissileLauncher.FireMissile | Assets/Scripts/Missile/MissileLauncher.cs:141-169 | the launcher becomes `Fired` of the old, and the hook heats by `FireHeat` |
| MissileLaunchers.MissileLauncher.Update | Assets/Scripts/Missile/MissileLauncher.cs:64-117 | the new state is `MissileFrame` of the old, and the hook heats by `FrameHeat` |
| MissileLaunchers.MissileLauncher.AddMissiles | Assets/Scripts/Missile/MissileLauncher.cs:236-239 | the count moves by the amount, clamped into `[0, maxMissileCount]` |
| MissileLaunchers.FrameFiresOnlyWhenReady | Assets/Scripts/Missile/MissileLauncher.cs:85-117 | a missile is spent on a frame exactly when `FireMissile` runs with a prefab, and it then costs `launchHeat` |
| MissileLaunchers.AimStartsOnlyWhenReady | Assets/Scripts/Missile/MissileLauncher.cs:89-93 | aiming starts only on key-down with the launcher ready |
| MissileLaunchers.AimEnds | Assets/Scripts/Missile/MissileLauncher.cs:95-116 | key-up or the aim timeout always ends aiming; an unusable launcher drops it |
| MissileLaunchers.TimeoutFrameStillFires | Assets/Scripts/Missile/MissileLauncher.cs:95-116 | the frame in which the aim times out still fires when the key comes up in it |
| MissileLaunchers.FireIgnoresCount | Assets/Scripts/Missile/MissileLauncher.cs:141-148 | `FireMissile` called from outside with no missiles left still spends one |
| MissileLaunchers.FrameKeepsCountInRange | Assets/Scripts/Missile/MissileLauncher.cs:64-117 | the count stays in `[0, maxMissileCount]` through every frame |
| MissileLaunchers.NeverFiredIsCooledDown | Assets/Scripts/Missile/MissileLauncher.cs:133-139 | the first shot is never held back by the cooldown |
| NetLaunchers.Fired | Assets/Scripts/Net/NetLauncher.cs:139-169 | firing a usable launcher with a prefab spends one net and stamps the time; otherwise nothing changes |
| NetLaunchers.NetLauncher.constructor | Assets/Scripts/Net/NetLauncher.cs:54-65 | `Awake` clamps the inspector count into `[0, maxNetCount]` |
| NetLaunchers.NetLauncher.CanFire | Assets/Scripts/Net/NetLauncher.cs:123-137 | usable, cooled down, hook below its threshold, a net left |
| NetLaunchers.NetLauncher.FireNet | Assets/Scripts/Net/NetLauncher.cs:139-169 | the launcher becomes `Fired` of the old, and the hook heats by `FireHeat` |
| NetLaunchers.NetLauncher.Update | Assets/Scripts/Net/NetLauncher.cs:67-115 | the new state is `NetFrame` of the old, and the hook heats by `FrameHeat` |
| NetLaunchers.NetLauncher.AddNets | Assets/Scripts/Net/NetLauncher.cs:231-234 | the count moves by the amount, clamped into `[0, maxNetCount]` |
| NetLaunchers.FrameFiresOnlyWhenReady | Assets/Scripts/Net/NetLauncher.cs:86-115 | a net is spent on a frame exactly when `FireNet` runs with a prefab, and it then costs `launchHeat` |
| NetLaunchers.AimStartsOnlyWhenReady | Assets/Scripts/Net/NetLauncher.cs:90-94 | aiming starts only on key-down with the launcher ready |
| NetLaunchers.AimEnds | Assets/Scripts/Net/NetLauncher.cs:96-114 | key-up or the aim timeout always ends aiming; an unusable launcher drops it |
| NetLaunchers.TimeoutFrameStillFires | Assets/Scripts/Net/NetLauncher.cs:96-114 | the frame in which the aim times out still fires when the key comes up in it |
| NetLaunchers.FireIgnoresCount | Assets/Scripts/Net/NetLauncher.cs:139-146 | `FireNet` called from outside with no nets left still spends one |
| NetLaunchers.FrameKeepsCountInRange | Assets/Scripts/Net/NetLauncher.cs:67-115 | the count stays in `[0, maxNetCount]` through every frame |
| NetLaunchers.NeverFiredIsCooledDown | Assets/Scripts/Net/NetLauncher.cs:131-137 | the first shot is never held back by the cooldown |
| LaserWeapons.Fired | Assets/Scripts/LaserWeapon.cs:188-202 | firing a usable weapon with a charge spends it and stamps the time; otherwise nothing changes |
| LaserWeapons.Grow | Assets/Scripts/LaserWeapon.cs:214-218 | a growing beam never passes the 100-unit cap, a beam at the cap stays, and growth never shortens it |
| LaserWeapons.FramesRun | Assets/Scripts/LaserWeapon.cs:204-230 | the beam runs for no more frames than it is offered |
| LaserWeapons.LaserWeapon.constructor | Assets/Scripts/LaserWeapon.cs:71-89 | `Awake` caps the charges at `maxCount`, without a floor |
| LaserWeapons.LaserWeapon.OnValidate | Assets/Scripts/LaserWeapon.cs:327-336 | the capacity is at least 1 and the charges lie within `[0, maxCount]` |
| LaserWeapons.LaserWeapon.AddLaserCount | Assets/Scripts/LaserWeapon.cs:338-344 | when usable, the charges grow by the amount, capped at `maxCount` |
| LaserWeapons.LaserWeapon.CanFire | Assets/Scripts/LaserWeapon.cs:172-186 | usable, cooled down, hook below its threshold, a charge left |
| LaserWeapons.LaserWeapon.FireLaser | Assets/Scripts/LaserWeapon.cs:188-202 | the weapon becomes `Fired` of the old, and the hook heats by `fireHeat` when a shot is spent |
| LaserWeapons.LaserWeapon.Update | Assets/Scripts/LaserWeapon.cs:118-164 | the new state is `LaserAimFrame` of the old |
| LaserWeapons.LaserWeapon.KeepFiringLaser | Assets/Scripts/LaserWeapon.cs:204-268 | the beam runs `FramesRun` frames, reaches `BeamLength`, deals `damagePerSecond * dt` per target each frame and heats the hook by `BeamHeat` |
| LaserWeapons.FrameFiresOnlyWhenReady | Assets/Scripts/LaserWeapon.cs:135-164 | a charge is spent on a frame exactly when `FireLaser` runs |
| LaserWeapons.AimLifecycle | Assets/Scripts/LaserWeapon.cs:135-164 | aiming starts only on key-down with the weapon ready; key-up or the timeout ends it |
| LaserWeapons.FrameKeepsChargesInRange | Assets/Scripts/LaserWeapon.cs:118-164 | the charges stay in `[0, maxCount]` through every frame |
| LaserWeapons.BeamLengthBounded | Assets/Scripts/LaserWeapon.cs:211-216 | the beam never grows past its cap, and never shrinks for non-negative time and speed |
| LaserWeapons.BeamHeatNonnegative | Assets/Scripts/LaserWeapon.cs:218-222 | the beam never cools the hook for a non-negative rate |
| LaserWeapons.FramesRunStopsOnTimeOrDisable | Assets/Scripts/LaserWeapon.cs:208-229 | the beam runs exactly while the weapon stays usable and the elapsed time is below the duration |
| DelayedSwitchHook.CountDown | Assets/Sprites/HookSystem.cs:117-121 | a cooldown timer moves by exactly `dt` while positive |
| DelayedSwitchHook.HookSystem.constructor | Assets/Sprites/HookSystem.cs:76-115 | field initialisers, then `Init`: the state is `Initial` |
| DelayedSwitchHook.HookSystem.UpdateCDTimers | Assets/Sprites/HookSystem.cs:117-121 | the timers follow `CDTimerStep` |
| DelayedSwitchHook.HookSystem.StartSwitchRotationDir | Assets/Sprites/HookSystem.cs:180-187 | the new state is `SwitchStarted` of the old |
| DelayedSwitchHook.HookSystem.HandleInput | Assets/Sprites/HookSystem.cs:123-146 | the new state is `InputStep` of the old |
| DelayedSwitchHook.HookSystem.UpdateRotation | Assets/Sprites/HookSystem.cs:189-205 | the new state is `RotationStep` of the old |
| DelayedSwitchHook.HookSystem.UpdateLaunching | Assets/Sprites/HookSystem.cs:207-216 | the new state is `LaunchStep` of the old |
| DelayedSwitchHook.HookSystem.UpdateRetrieving | Assets/Sprites/HookSystem.cs:218-227 | the new state is `RetrieveStep` of the old |
| DelayedSwitchHook.HookSystem.UpdateState | Assets/Sprites/HookSystem.cs:148-170 | the new state is `StateStep` of the old |
| DelayedSwitchHook.HookSystem.Update | Assets/Sprites/HookSystem.cs:98-104 | one frame is `DelayedHookStep` of the old state |
| DelayedSwitchHook.DelayedSpaceLaunchesOnlyWhenReady | Assets/Sprites/HookSystem.cs:172-178 | Space launches only a ready hook |
| DelayedSwitchHook.DelayedSwitchGate | Assets/Sprites/HookSystem.cs:123-146 | with no switch pending, a switch starts exactly on A with the gate open (checked after Space); it pays its energy cost without going negative, sets the delay and the cooldown, and does not flip the direction yet |
| DelayedSwitchHook.PendingSwitchFreezesRotation | Assets/Sprites/HookSystem.cs:189-205 | while a switch is pending the angle does not move; the direction flips when the delay runs out |
| DelayedSwitchHook.SwitchFlipsOnce | Assets/Sprites/HookSystem.cs:189-205 | one switch flips the direction at most once over any number of rotation frames |
| DelayedSwitchHook.DelayedLaunchClampsAndTurns | Assets/Sprites/HookSystem.cs:207-216 | launching clamps at `maxLength` and turns back in the same frame |
| DelayedSwitchHook.RetrieveClampsAtZero | Assets/Sprites/HookSystem.cs:218-227 | retrieving clamps at 0, not at a standby distance, and parks exactly then |
| DelayedSwitchHook.DelayedDrainFloorsAtZero | Assets/Sprites/HookSystem.cs:148-170 | the drain never leaves negative energy and ends acceleration exactly when the budget runs out |
| DelayedSwitchHook.InitialDelayedInv | Assets/Sprites/HookSystem.cs:106-115 | the initial state satisfies the invariant |
| DelayedSwitchHook.DelayedStepKeepsInv | Assets/Sprites/HookSystem.cs:98-227 | every frame keeps the energy within `[0, initialEnergy]` and the rope within `[0, maxLength]`, and never raises the energy |
| EnergyHook.SwitchStarted | Assets/Sprites/Hook/HookSystem.cs:253-259 | a switch flips the direction, pays the switch cost and starts the switch cooldown |
| EnergyHook.HookTipCollisionHandler.constructor | Assets/Sprites/Hook/HookTipCollisionHandler.cs:1-7 | an empty grab slot |
| EnergyHook.HookTipCollisionHandler.OnTriggerEnter2D | Assets/Sprites/Hook/HookTipCollisionHandler.cs:8-36 | an Energy-tagged object takes the slot and is attached to the tip, and a launching hook turns back; other contacts change nothing |
| EnergyHook.HookTipCollisionHandler.GetGrabbedEnergy | Assets/Sprites/Hook/HookTipCollisionHandler.cs:38 | returns the held object |
| EnergyHook.HookTipCollisionHandler.ReleaseGrabbedEnergy | Assets/Sprites/Hook/HookTipCollisionHandler.cs:40-47 | detaches and forgets the held object; an empty slot stays empty |
| EnergyHook.HookSystem.constructor | Assets/Sprites/Hook/HookSystem.cs:106-113 | field initialisers plus `Start`: `Init`, then the tip learns its hook |
| EnergyHook.HookSystem.RetrieveHook | Assets/Sprites/Hook/HookSystem.cs:293-299 | only a launching hook turns back |
| EnergyHook.HookSystem.GrabEnergy | Assets/Sprites/Hook/HookSystem.cs:318-321 | energy grows by the amount, capped at the initial budget |
| EnergyHook.HookSystem.UpdateCDTimers | Assets/Sprites/Hook/HookSystem.cs:183-187 | the timers follow `CDTimerStep` |
| EnergyHook.HookSystem.StartSwitchRotationDir | Assets/Sprites/Hook/HookSystem.cs:253-259 | the new state is `SwitchStarted` of the old |
| EnergyHook.HookSystem.HandleInput | Assets/Sprites/Hook/HookSystem.cs:189-212 | the new state is `InputStep` of the old |
| EnergyHook.HookSystem.UpdateRotation | Assets/Sprites/Hook/HookSystem.cs:261-270 | the new state is `RotationStep` of the old |
| EnergyHook.HookSystem.UpdateLaunching | Assets/Sprites/Hook/HookSystem.cs:272-280 | the new state is `LaunchStep` of the old |
| EnergyHook.HookSystem.HandleGrabbedEnergy | Assets/Sprites/Hook/HookSystem.cs:301-316 | the held object is harvested, destroyed and the slot emptied |
| EnergyHook.HookSystem.UpdateRetrieving | Assets/Sprites/Hook/HookSystem.cs:282-291 | the new state is `RetrieveStep` of the old |
| EnergyHook.HookSystem.UpdateMotion | Assets/Sprites/Hook/HookSystem.cs:216-227 | the new state is `MotionStep` of the old |
| EnergyHook.HookSystem.UpdateEnergyAndSpeeds | Assets/Sprites/Hook/HookSystem.cs:229-242 | the new state is `SmoothingStep` of `DrainStep` of the old |
| EnergyHook.HookSystem.UpdateState | Assets/Sprites/Hook/HookSystem.cs:214-243 | the new state is `StateStep` of the old |
| EnergyHook.HookSystem.Update | Assets/Sprites/Hook/HookSystem.cs:151-158 | one frame is `EnergyHookStep` of the old state |
| EnergyHook.SpaceLaunchesOnlyWhenReady | Assets/Sprites/Hook/HookSystem.cs:245-251 | Space launches only a ready hook; `RetrieveHook` turns back only a launching one |
| EnergyHook.SwitchGate | Assets/Sprites/Hook/HookSystem.cs:196-200 | a switch happens exactly on the key with the gate open |
| EnergyHook.LaunchClampsAndTurns | Assets/Sprites/Hook/HookSystem.cs:272-280 | launching clamps at `maxLength` and turns back in the same frame |
| EnergyHook.RetrieveParksAndHarvests | Assets/Sprites/Hook/HookSystem.cs:282-291 | retrieving clamps at standby, parks and harvests exactly then |
| EnergyHook.DrainFloorsAtZero | Assets/Sprites/Hook/HookSystem.cs:229-234 | the drain never leaves negative energy and ends acceleration exactly when the budget runs out |
| EnergyHook.SwitchSettles | Assets/Sprites/Hook/HookSystem.cs:261-270 | a switch settles, in the ready state, exactly when the speed is within 0.5 of the target |
| EnergyHook.SmoothingStaysBetween | Assets/Sprites/Hook/HookSystem.cs:236-242 | each smoothed speed ends between its old value and its target |
| EnergyHook.StepKeepsEnergyInRange | Assets/Sprites/Hook/HookSystem.cs:151-243 | a whole frame keeps the energy within `[0, initialEnergy]`, whatever the input |
| EnergyHook.HarvestCapsEnergy | Assets/Sprites/Hook/HookSystem.cs:301-321 | harvesting never raises energy above the initial budget (or its old value, if higher); an empty slot or an object without `Energy` changes nothing |
| EnergyShield.ShieldController.constructor | Assets/Sprites/ShieldController.cs:30-34 | closed, no cooldown, the hook found on the same object |
| EnergyShield.ShieldController.ActivateShield | Assets/Sprites/ShieldController.cs:74-89 | the cost is paid first; the shield opens only with a prefab |
| EnergyShield.ShieldController.DeactivateShield | Assets/Sprites/ShieldController.cs:91-100 | the shield goes away and the full cooldown starts |
| EnergyShield.ShieldController.DrainEnergy | Assets/Sprites/ShieldController.cs:102-116 | the frame's drain is paid when covered; otherwise the shield is deactivated |
| EnergyShield.ShieldController.Update | Assets/Sprites/ShieldController.cs:36-72 | the new state and hook energy are `EnergyShieldStep` of the old |
| EnergyShield.OpeningPaysCost | Assets/Sprites/ShieldController.cs:40-48 | from Closed the shield opens exactly on the key with a hook holding the cost, and the hook then pays it |
| EnergyShield.MissingPrefabStillCharges | Assets/Sprites/ShieldController.cs:74-80 | without a prefab the cost is still paid but the shield never opens |
| EnergyShield.ActiveFrameDrainsOrCloses | Assets/Sprites/ShieldController.cs:50-60 | an Active frame without the key pays exactly `energyDrainPerSecond * dt`, or closes into Cooldown when it cannot |
| EnergyShield.ToggleWhileActiveCools | Assets/Sprites/ShieldController.cs:50-55 | the key while Active enters Cooldown with the full timer |
| EnergyShield.EnergyShieldCooldownEnds | Assets/Sprites/ShieldController.cs:62-70 | Cooldown returns to Closed exactly when the decremented timer is at or below 0 |
| EnergyShield.EnergyShieldStepKeepsInv | Assets/Sprites/ShieldController.cs:36-116 | the shield never drives the hook's energy below 0, and a shield object exists exactly while Active |
| EnergyMissiles.MissileLauncher.constructor | Assets/Sprites/Missile/MissileLauncher.cs:42-53 | `Awake` clamps the count into `[0, maxMissileCount]` |
| EnergyMissiles.MissileLauncher.CanStartAim | Assets/Sprites/Missile/MissileLauncher.cs:99-102 | cooled down with a missile in stock; energy is not checked |
| EnergyMissiles.MissileLauncher.CanFire | Assets/Sprites/Missile/MissileLauncher.cs:104-109 | cooled down, a missile in stock and a hook holding the energy cost |
| EnergyMissiles.MissileLauncher.FireMissile | Assets/Sprites/Missile/MissileLauncher.cs:111-145 | the launcher and hook energy become `Shot` of the old |
| EnergyMissiles.MissileLauncher.Update | Assets/Sprites/Missile/MissileLauncher.cs:55-91 | the new state and hook energy are `EnergyMissileFrame` of the old |
| EnergyMissiles.EnergyFrameFiresOnlyWhenReady | Assets/Sprites/Missile/MissileLauncher.cs:65-91 | a missile is spent on a frame exactly when `FireMissile` runs with a prefab, and it then costs `energyCost` |
| EnergyMissiles.EnergyAimIgnoresEnergy | Assets/Sprites/Missile/MissileLauncher.cs:99-102 | with the cooldown elapsed and stock, key-down starts aiming whatever the energy, even with no hook |
| EnergyMissiles.EnergyAimEnds | Assets/Sprites/Missile/MissileLauncher.cs:75-90 | key-up or the aim timeout always ends aiming |
| EnergyMissiles.EnergyFrameKeepsRanges | Assets/Sprites/Missile/MissileLauncher.cs:55-145 | the count stays in `[0, maxMissileCount]` and the launcher never makes the energy negative |
| EnergyLaser.BeamFrames | Assets/Sprites/LaserWeapon.cs:152-166 | the beam runs for no more frames than it is offered |
| EnergyLaser.LaserWeapon.constructor | Assets/Sprites/LaserWeapon.cs:44-61 | `Awake`: no blocking tags, so by `UpdateLaserLine`'s contract every beam has full range; the beam hidden |
| EnergyLaser.LaserWeapon.CanStartAim | Assets/Sprites/LaserWeapon.cs:121-124 | true exactly with the cooldown elapsed |
| EnergyLaser.LaserWeapon.CanFire | Assets/Sprites/LaserWeapon.cs:126-130 | cooled down with a hook holding the energy cost |
| EnergyLaser.LaserWeapon.FireLaser | Assets/Sprites/LaserWeapon.cs:132-150 | the weapon and hook energy become `Shot` of the old |
| EnergyLaser.LaserWeapon.Update | Assets/Sprites/LaserWeapon.cs:77-113 | the new state and hook energy are `EnergyLaserFrame` of the old |
| EnergyLaser.LaserWeapon.IsBlockingTag | Assets/Sprites/LaserWeapon.cs:208-218 | true exactly when the tag is among the blocking tags |
| EnergyLaser.LaserWeapon.UpdateLaserLine | Assets/Sprites/LaserWeapon.cs:168-181 | the beam ends at the first hit only when that hit's tag blocks; otherwise, and always with the empty tag list the constructor sets, it has full range |
| EnergyLaser.LaserWeapon.ApplyLaserEffect | Assets/Sprites/LaserWeapon.cs:183-206 | the hits destroyed are exactly `Destroyable` |
| EnergyLaser.LaserWeapon.KeepFiringLaser | Assets/Sprites/LaserWeapon.cs:152-166 | the beam runs `BeamFrames` frames, destroying the `Destroyable` hits of each, and is hidden once the duration is reached |
| EnergyLaser.EnergyLaserFiresOnlyWhenReady | Assets/Sprites/LaserWeapon.cs:87-113 | a shot is paid on a frame exactly when `FireLaser` runs, and costs `energyCost` |
| EnergyLaser.EnergyLaserAimLifecycle | Assets/Sprites/LaserWeapon.cs:87-113 | key-up or the timeout ends aiming; aiming starts only on key-down with the weapon ready |
| EnergyLaser.EnergyLaserKeepsEnergy | Assets/Sprites/LaserWeapon.cs:126-150 | a shot never makes a non-negative energy negative |
| EnergyLaser.BeamRunsForDuration | Assets/Sprites/LaserWeapon.cs:152-166 | the beam runs exactly until its accumulated time reaches `fireDuration` |
| EnergyLaser.BeamRunsFrom | Assets/Sprites/LaserWeapon.cs:152-166 | the same from a running timer |
| EnergyLaser.DestroyableExactly | Assets/Sprites/LaserWeapon.cs:183-206 | a hit is destroyed exactly when its tag is `Obstacle` or `Energy` |
| Obstacles.Obstacle.constructor | Assets/Scripts/Obstacle/Obstacle.cs:44-64 | `Awake` and `Start`: the state is `Initial` of the inspector mass and the random draw |
| Obstacles.Obstacle.InitMassAndSize | Assets/Scripts/Obstacle/Obstacle.cs:122-130 | the mass is clamped into the range and the size follows it |
| Obstacles.Obstacle.Update | Assets/Scripts/Obstacle/Obstacle.cs:66-83 | the new state is `ObstacleStep` of the old |
| Obstacles.Obstacle.CheckScreenBounds | Assets/Scripts/Obstacle/Obstacle.cs:85-120 | the new state is `ScreenCheck` of the old |
| Obstacles.Obstacle.DestroyObstacle | Assets/Scripts/Obstacle/Obstacle.cs:214-217 | the obstacle is destroyed |
| Obstacles.ApproximatelyZero | Assets/Scripts/Obstacle/Obstacle.cs:49 | `Mathf.Approximately(m, 0)` holds exactly within eight float epsilons of zero |
| Obstacles.MassClampedAndSized | Assets/Scripts/Obstacle/Obstacle.cs:122-130 | with an ordered range the mass lands in it, and the size is `mass * 0.3` |
| Obstacles.AwakeRandomisesOnlyUnsetMass | Assets/Scripts/Obstacle/Obstacle.cs:44-64 | a mass set before waking is kept with its scale; a zero one is replaced by the clamped random draw; the lifetime starts only for a positive `autoDestroyTime` |
| Obstacles.LifetimeExpiry | Assets/Scripts/Obstacle/Obstacle.cs:66-77 | when the lifetime runs out the obstacle is destroyed and the screen check is skipped for that frame |
| Obstacles.OffScreenTimerRules | Assets/Scripts/Obstacle/Obstacle.cs:85-120 | the first frame outside raises the flag and zeroes the timer, later ones add `dt`, coming back clears both, and the delay destroys |
| Obstacles.NoScreenCheckWhenDisabled | Assets/Scripts/Obstacle/Obstacle.cs:79-82 | with the screen check disabled only the lifetime can destroy |
| Obstacles.StepKeepsScreenInv | Assets/Scripts/Obstacle/Obstacle.cs:66-120 | the off-screen timer stays non-negative and is 0 while on screen |
| Obstacles.StayingOffScreenDestroys | Assets/Scripts/Obstacle/Obstacle.cs:85-120 | an obstacle that stays off screen with no lifetime running is destroyed once the summed frame times pass the delay |
| Spawning.ObjectSpawner.constructor | Assets/Scripts/MapObject/ObjectSpawner.cs:51-59 | `Start`: every schedule is one interval from now, enabled exactly when auto-spawning |
| Spawning.ObjectSpawner.InitializeSpawnTimes | Assets/Scripts/MapObject/ObjectSpawner.cs:61-76 | every item's next spawn is now plus its interval |
| Spawning.ObjectSpawner.Update | Assets/Scripts/MapObject/ObjectSpawner.cs:78-97 | at or above the cap nothing happens; otherwise the new state and the spawned indices are `Pass` of the old |
| Spawning.ObjectSpawner.RegisterSpawnedObject | Assets/Scripts/MapObject/ObjectSpawner.cs:125-138 | the live count grows by one |
| Spawning.ObjectSpawner.OnObjectDespawned | Assets/Scripts/MapObject/ObjectSpawner.cs:140-143 | the live count drops by one |
| Spawning.ObjectSpawner.StartAutoSpawn | Assets/Scripts/MapObject/ObjectSpawner.cs:146-151 | spawning resumes with every schedule restarted from now |
| Spawning.ObjectSpawner.StopAutoSpawn | Assets/Scripts/MapObject/ObjectSpawner.cs:154-158 | spawning stops, schedules untouched |
| Spawning.AtCapIsIdle | Assets/Scripts/MapObject/ObjectSpawner.cs:80-88 | at or above the cap the loop spawns nothing and changes no schedule |
| Spawning.PassRespectsCap | Assets/Scripts/MapObject/ObjectSpawner.cs:83-96 | the count grows by exactly the number of spawns and never passes the cap |
| Spawning.PassSchedules | Assets/Scripts/MapObject/ObjectSpawner.cs:87-95 | an item spawns only with a prefab and when due, and its next spawn is then one interval from now; other schedules stay |
| Spawning.PassSpawnsInOrder | Assets/Scripts/MapObject/ObjectSpawner.cs:83-96 | the spawned indices are items the loop visited, each at most once, in increasing order |
| Spawning.DueItemsSpawnUnlessCapped | Assets/Scripts/MapObject/ObjectSpawner.cs:87-95 | a due item with a prefab is skipped only because the cap was reached |
| CollectibleSpawning.SpawnData.constructor | Assets/Scripts/CollectibleSpawnManager.cs:10-30 | a configuration not yet spawned |
| CollectibleSpawning.CollectibleSpawnManager.constructor | Assets/Scripts/CollectibleSpawnManager.cs:40-45 | the game time starts at 0 |
| CollectibleSpawning.CollectibleSpawnManager.Update | Assets/Scripts/CollectibleSpawnManager.cs:47-54 | the game time is the level time, then every due unspawned configuration spawns once at `SpawnPosition` and is marked |
| CollectibleSpawning.CollectibleSpawnManager.CheckAndSpawnCollectibles | Assets/Scripts/CollectibleSpawnManager.cs:59-74 | exactly the valid, due, unspawned entries spawn, each once even if listed twice, and are marked spawned |
| CollectibleSpawning.CollectibleSpawnManager.SpawnCollectible | Assets/Scripts/CollectibleSpawnManager.cs:79-137 | returns `SpawnPosition`, which exists for every valid configuration |
| CollectibleSpawning.SpawnPositionReachesTarget | Assets/Scripts/CollectibleSpawnManager.cs:89-104 | moving from the spawn position at the collectible's velocity for the move duration lands exactly on the target |
| CollectibleSpawning.NoSpawnWithoutTravelTime | Assets/Scripts/CollectibleSpawnManager.cs:89-95 | a non-positive move duration spawns nothing |
| EnergySpawning.Rejected | Assets/Scripts/Energy/EnergySpawner.cs:75-88 | the number of draws rejected before the first one outside the safe circle, which it points at |
| EnergySpawning.Prune | Assets/Scripts/Energy/EnergySpawner.cs:36 | the pruned list holds exactly the live blocks |
| EnergySpawning.EnergySpawner.constructor | Assets/Scripts/Energy/EnergySpawner.cs:28-32 | `Start` spawns the initial blocks, well spaced |
| EnergySpawning.EnergySpawner.GetRandomPosition | Assets/Scripts/Energy/EnergySpawner.cs:75-88 | returns the first drawn position outside the safe circle |
| EnergySpawning.EnergySpawner.IsPositionValid | Assets/Scripts/Energy/EnergySpawner.cs:90-108 | true exactly when the position is at least `minDistance` from every live block |
| EnergySpawning.EnergySpawner.TrySpawnEnergy | Assets/Scripts/Energy/EnergySpawner.cs:56-73 | places a block at the first valid of up to eleven candidates, or nothing |
| EnergySpawning.EnergySpawner.SpawnInitialEnergies | Assets/Scripts/Energy/EnergySpawner.cs:48-54 | exactly `targetCount` attempts (none when negative), keeping the blocks spaced |
| EnergySpawning.EnergySpawner.Update | Assets/Scripts/Energy/EnergySpawner.cs:34-46 | destroyed blocks are dropped, then one attempt per missing block; the survivors keep their order and the blocks stay spaced and live |
| EnergySpawning.CloserSymmetric | Assets/Scripts/Energy/EnergySpawner.cs:100-104 | the distance test is symmetric |
| EnergySpawning.FirstValidIsValid | Assets/Scripts/Energy/EnergySpawner.cs:56-73 | a chosen position lies outside the safe circle and far enough from every live block |
| EnergySpawning.NoneMeansAllInvalid | Assets/Scripts/Energy/EnergySpawner.cs:56-73 | an attempt places nothing only when all eleven candidates are invalid |
| EnergySpawning.SpacedAppend | Assets/Scripts/Energy/EnergySpawner.cs:110-124 | adding a block valid against the live ones keeps the spacing |
| EnergySpawning.PruneKeepsSpacing | Assets/Scripts/Energy/EnergySpawner.cs:36 | dropping destroyed blocks keeps the spacing |
| PathFollowing.PathFollower.constructor | Assets/Scripts/PathSystem/PathFollower.cs:5-7 | no coroutine yet |
| PathFollowing.PathFollower.Start | Assets/Scripts/PathSystem/PathFollower.cs:9-28 | the position and first frame are `StartFrame` |
| PathFollowing.PathFollower.Resume | Assets/Scripts/PathSystem/PathFollower.cs:30-74 | a later frame is `ResumeFrame` of the coroutine's state |
| PathFollowing.PathFollower.FollowLegs | Assets/Scripts/PathSystem/PathFollower.cs:34-73 | the `while (true)` loop up to its next yield is `Legs` |
| PathFollowing.StartCases | Assets/Scripts/PathSystem/PathFollower.cs:11-23 | nothing happens without nodes, one node only places the object, two or more start the coroutine at node 0 |
| PathFollowing.IdleStaysIdle | Assets/Scripts/PathSystem/PathFollower.cs:36-37 | a stopped coroutine stays stopped |
| PathFollowing.LegIndexRules | Assets/Scripts/PathSystem/PathFollower.cs:39-51 | an index past the end restarts at 0; a looping path wraps, an open one ends at its last node |
| PathFollowing.MovingFrame | Assets/Scripts/PathSystem/PathFollower.cs:53-72 | while the next node is farther than 0.05 each frame requests a move toward it of `moveSpeed * dt`; on arrival the follower waits or goes on to the next leg |
| PathFollowing.WaitingFrame | Assets/Scripts/PathSystem/PathFollower.cs:67-71 | a wait lasts until the frame times reach the node's wait, with no move requested |
| PathFollowing.StopsWithoutTwoNodes | Assets/Scripts/PathSystem/PathFollower.cs:36-37 | a frame that finds fewer than two nodes ends the coroutine without moving |
| PathFollowing.OpenPathNeverFreezes | Assets/Scripts/PathSystem/PathFollower.cs:43-51 | an open path never runs a frame without yielding |
| PathFollowing.LoopFreezesFrom | Assets/Scripts/PathSystem/PathFollower.cs:30-74 | on a looping path, the legs freeze exactly when every node they visit is already here with no wait |
| PathFollowing.FreezesExactlyWhenEveryNodeIsHere | Assets/Scripts/PathSystem/PathFollower.cs:30-74 | a frame never yields if and only if the path loops and every node is within 0.05 of the object with no wait |
| Dialogue.DialogManager.constructor | Assets/Scripts/DialogManager.cs:90-96 | the script is read and the first line shown |
| Dialogue.DialogManager.ReadText | Assets/Scripts/DialogManager.cs:118-122 | the rows are the text split on line feeds |
| Dialogue.DialogManager.OnClickNext | Assets/Scripts/DialogManager.cs:158-161 | shows the next line, as `Scan` says |
| Dialogue.DialogManager.ShowDiaLogRow | Assets/Scripts/DialogManager.cs:124-156 | the new state and any exception are `Scan` over all rows |
| Dialogue.DialogManager.ShowRow | Assets/Scripts/DialogManager.cs:128-154 | one pass of the loop is `RowStep` |
| Dialogue.DialogManager.ShowLineOf | Assets/Scripts/DialogManager.cs:132-144 | the `#` branch is `ShowLine` |
| Dialogue.DialogManager.UpdateText | Assets/Scripts/DialogManager.cs:99-103 | name and text are replaced |
| Dialogue.DialogManager.UpdateImage | Assets/Scripts/DialogManager.cs:106-116 | the portrait on the named side becomes the named sprite; an unknown name throws |
| Dialogue.DialogManager.OptionEffect | Assets/Scripts/DialogManager.cs:199-243 | the effect is recorded; exits and endings reset both portraits |
| Dialogue.DialogManager.GenerateOption | Assets/Scripts/DialogManager.cs:163-187 | the buttons become `Options` from the given row |
| Dialogue.DialogManager.OnOptionClick | Assets/Scripts/DialogManager.cs:189-197 | jump to the id, show, then destroy every button, including the ones just made, unless the show threw |
| Dialogue.DialogManager.ClickChoice | Assets/Scripts/DialogManager.cs:173-184 | the choice's effect, then `OnOptionClick` with its cell 5, as `ChoiceOutcome` |
| Dialogue.SplitJoin | Assets/Scripts/DialogManager.cs:120-128 | splitting then joining gives the text back, and no piece holds the separator |
| Dialogue.JoinSplit | Assets/Scripts/DialogManager.cs:120-128 | joining pieces free of the separator and splitting again gives the pieces back |
| Dialogue.ShowNatValue | Assets/Scripts/DialogManager.cs:130 | a number's decimal digits denote it |
| Dialogue.ShowIntTrimmed | Assets/Scripts/DialogManager.cs:130 | a number's decimal form has no white space at its ends |
| Dialogue.ParseTrimmedShowInt | Assets/Scripts/DialogManager.cs:130 | the sign and digits of every 32-bit number's decimal form read back as that number |
| Dialogue.ParseShowInt | Assets/Scripts/DialogManager.cs:130 | `int.Parse` reads back every 32-bit number's decimal form |
| Dialogue.ParseSkipsCarriageReturn | Assets/Scripts/DialogManager.cs:130-135 | `int.Parse` accepts white space, a carriage return included, around the number |
| Dialogue.EffectCellRoundTrip | Assets/Scripts/DialogManager.cs:138-143 | an effect cell `name@param` reads back as that effect |
| Dialogue.EffectCellNeedsSeparator | Assets/Scripts/DialogManager.cs:141-142 | an effect cell without '@' throws `IndexOutOfRange` |
| Dialogue.SingletonSplit | Assets/Scripts/DialogManager.cs:128 | text without the separator is a single piece |
| Dialogue.ShowLineOutcome | Assets/Scripts/DialogManager.cs:130-144 | the `#` branch completes exactly when the row has nine cells, a known portrait, a number in cell 5 and a well-formed effect; a failure keeps the index unless only the effect was bad |
| Dialogue.ScanFindsFirstLine | Assets/Scripts/DialogManager.cs:126-145 | a scan that ends without an exception either met no stopping row and keeps the index, or stopped at the first `#` row whose id is the current index and took the new index from its cell 5 |
| Dialogue.StopIsALine | Assets/Scripts/DialogManager.cs:130-154 | only the `#` branch stops the scan |
| Dialogue.ContinueKeepsIndex | Assets/Scripts/DialogManager.cs:146-154 | rows that let the scan go on leave the index alone |
| Dialogue.StopDependsOnIndex | Assets/Scripts/DialogManager.cs:130 | whether a row stops the scan depends only on the current index |
| Dialogue.ShowLineStopsAlike | Assets/Scripts/DialogManager.cs:130-144 | showing a line ends the scan the same way from any state |
| Dialogue.OptionsKeepIndex | Assets/Scripts/DialogManager.cs:163-187 | generating options touches only the buttons |
| Dialogue.OptionsForRun | Assets/Scripts/DialogManager.cs:163-187 | one bound choice per consecutive `&` row, ignoring their ids, in order; a run reaching the end of the table throws `IndexOutOfRange` |
| Dialogue.OptionsKeepButtons | Assets/Scripts/DialogManager.cs:163-187 | generating options only appends buttons |
| Dialogue.EndRowUsesRowNumber | Assets/Scripts/DialogManager.cs:151 | the `end` branch indexes the row's cells with the row number, so an `end` row with too few cells throws |

## Left out

- Rendering, the UI, audio, gizmos and `OnGUI` drawing. These are presentation only.
- The line renderer's geometry and the hook tip's position (`UpdateHookPosition`,
  `UpdateRopePath`, `UpdateHookVisual`). These are trigonometry on the transform.
- Physics: rigid bodies, forces, `relativeVelocity` and box/ray casts. Contacts and cast hits
  are given as inputs.
- The camera. Its out-of-screen and viewport verdicts are inputs.
- Randomness. `Random.Range` draws are inputs.
- Time. `Time.deltaTime` and `Time.time` are parameters.
- Integer and float precision. int32 overflow (score, counts) and IEEE float rounding are not
  modelled: integers are unbounded and floats are reals.
- Coroutines. `WaitForSeconds` and `Invoke` are modelled as timers that sum frame times.
  `yield return null` is modelled as the end of a frame.
- Hook.HookSystem: the singleton `Instance` and `Awake` are not modelled.
- Hook.HookSystem: `hookTipMass` is read by its callers but not declared. It is a parameter.
- Hook.HookSystem: `ReleaseAllGrabbedObjects` and `ResetGrabState` on the tip are not declared.
  They are recorded as calls, not given a meaning.
- Hook.HookSystem: the death handler only logs. It is recorded as a call.
- Collectible.CollectibleObject.OnHarvested: `GrabEnergy` is called on the Scripts hook, which
  does not declare it. It is recorded as a call.
- MovingObstacles.MovingObstacle: movement and spin in `Update` are transform motion and are
  not modelled. The `fragmentPrefab` instantiation is not modelled.
- Collectible.CollectibleObject: the velocity set in `Start` is physics and is not modelled.
- Shield.ShieldController: the mouse-following rotation, the shader radius and intensity, and the
  collision handler's own damage logic are not modelled.
- Shield.ShieldController: the collider's rim points are modelled by their angles; the
  cos/sin coordinates are not.
- Shield.ShieldController: `Update` in Closing without a material throws a null reference
  (line 127). Only its timer advance is modelled.
- MissileLaunchers, NetLaunchers and LaserWeapons (the Scripts launchers): a missing hook makes
  `CanFire` throw a null reference. The model treats a missing hook as "not cool".
- MissileLaunchers, NetLaunchers and LaserWeapons: `canUse` is set from outside and is an input
  field. The projectile behaviour after spawning (Missile.cs, Net.cs) is not part of this model.
- LaserWeapons.LaserWeapon.KeepFiringLaser: the ray casts that choose which targets are hit, and
  the beam's drawn end point, are not modelled. The damage per target per frame is returned as an
  amount. The `TakeDamage` call that delivers it is not declared on `CollectibleObject`.
- EnergyLaser.LaserWeapon: the null-line guard in `FireLaser` is not modelled, because `Awake`
  always creates the line.
- EnergyShield.ShieldController.ActivateShield: the missing-prefab exception is modelled as "the
  shield does not open".
- EnergyHook.HookSystem: HookSystem consumers other than the shield, launcher and laser of the
  same generation are not modelled.
- Spawning.ObjectSpawner: the singleton `Instance` and the null `nextSpawnTimes` after a null
  item array are not modelled. A null array becomes empty, and the component is then idle.
- Spawning.ObjectSpawner: the spawn position and the random obstacle velocity are not modelled.
- CollectibleSpawning.CollectibleSpawnManager: the instantiation, the initial rotation and the
  debug timers are not modelled.
- EnergySpawning.EnergySpawner: each block's random energy amount and name are not modelled.
- EnergySpawning.EnergySpawner.GetRandomPosition: the draws are an input sequence assumed to
  contain an acceptable one. The source loops until it finds one.
- PathFollowing.PathFollower: `Vector2.MoveTowards` is supplied by the engine as an input.
- PathFollowing.PathFollower.FollowLegs: a frame that never yields, on a looping path whose
  nodes are all within 0.05 with no wait, hangs the source. The model cuts it off as Frozen
  after one pass over the nodes, and `FreezesExactlyWhenEveryNodeIsHere` characterises when
  that happens.
- PathFollowing.PathFollower: the second bounds check after the index step (line 52) can never
  fail, so it is not modelled.
- Dialogue.DialogManager.OptionEffect: the camera, music, background and scene-loading effects
  are recorded as calls only.
- Dialogue.DialogManager: `Awake`'s sprite list must hold the 20 portraits it reads (`sprites[0]` to `sprites[19]`). Sprites are modelled
  as indices.
- Dialogue.ParseInt: the culture-specific signs and a trailing NUL accepted by `int.Parse` are
  not modelled. The model accepts optional white space, one optional sign and decimal digits.
- Assets/Sprites/MissileLauncher.cs is not part of this model. It is only a two-condition gate
  around instantiation and the camera.
- Assets/Sprites/EnergySpawner.cs is not part of this model. Its retry loop decrements its own
  counter and ends only if the random generator cooperates, so it has no behaviour to prove.
- The Missile and Net projectiles (Missile.cs, Net.cs) and Assets/Scripts/MapObject/EnvironmentalEvent.cs
  are not part of this model. They only query overlaps and destroy what they find.
- Both ObstacleLauncher.cs files are not part of this model. They are random placement plus
  trigonometry.
- Assets/Sprites/Obstacle/Obstacle.cs is not part of this model. It holds physics impulses and a
  one-line mass clamp.
- The impulse formulas of Assets/Scripts/Obstacle/Obstacle.cs (lines 194-212) are not modelled.
  They are float physics.
- The UI scripts, GameOverController.cs, CameraController.cs and BackGroundController.cs are not
  part of this model. They are scene navigation and presentation.
- The editor scripts under Assets/Editor are not part of this model. They are tooling.
- Energy.cs, PathData.cs, PathNode.cs, MapObject.cs, MapObjectEnums.cs, FixedObstacle.cs,
  ShieldCollisionHandler.cs and InterferenceObject.cs are not modelled as separate components.
  They are data-only or trivial; path nodes and energy values appear as datatypes.
