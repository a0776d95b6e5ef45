# FTC robot library core, modelled in Dafny

This project models the core of an FTC (FIRST Tech Challenge) robot library written in Java:
the command-based `Trigger` bindings and `ProxyCommand`, the `BaseOpMode` lifecycle, the
conversions between WPILib and FTC SDK coordinate systems, two- and three-pod dead-wheel
odometry kinematics, the `Motor` duty-cycle deadband, the dashboard `Telemetry` helpers,
and the struct serialisers of the geometry types and of fixed-length vectors.

Everything is a pure function over immutable datatypes, except two methods with loops
(`Triggers.PollLoop`, one poll of an event loop; `OpMode.RunSession`, one OpMode session,
which `OpMode.RunOpMode` calls).
Arithmetic is over `real`. Side effects become values:

- The command scheduler is an abstract set of scheduled command ids. Bindings and
  `ProxyCommand` emit `Schedule`/`Cancel` actions on that set (module `Scheduler`).
- A trigger's condition is an expression tree (`Triggers.Cond`). It is evaluated against one
  poll's snapshot of the suppliers (`Triggers.Env`). Evaluation also returns the stateful
  suppliers it polled, so the short-circuit of Java's `&&` and `||` is visible.
- `BaseOpMode.runOpMode` produces a trace of events: bulk-caching setup, `Robot.init`,
  `initialize`, bulk reads and scheduler runs. The globals it leaves behind are a record.
- Motor writes, driver-station telemetry lines and sent dashboard packets are append-only logs.
- A `ByteBuffer` is a sequence of 8-byte double slots and a cursor counted in slots.
- Java exceptions are `Wrappers.Result` errors: a null parameter, a null dereference, an
  empty iterator, a missing unit, and buffer overflow or underflow. An error carries no
  partial effects; the one that matters, a buffer written partway, is stated separately.

Modules: `Wrappers`, `Scheduler`, `Triggers`, `Proxy`, `OpMode`, `Geometry`,
`CoordinateSystems`, `TwoPodKinematics`, `ThreePodKinematics`, `Motor`, `Telemetry`,
`ByteBuffer`, `GeometryStructs`, `VectorStruct`.

Where the code and its documented intent differ, the model states what the code does; where
the code is evidently wrong, the model also defines the intended behaviour and proves its
properties about that (see Findings):

- `fieldCoordinatesToWPILib` and `robotCoordinatesToWPILib` switch on the position's unit.
  A null unit throws a `NullPointerException` in the switch itself, so the
  `IllegalArgumentException` default branch is never reached; the SDK's `DistanceUnit` has
  exactly the four cases the switch lists. The model returns `Err(UnitMissing)` for a
  missing unit.
- The centimetre and millimetre branches multiply where they should divide (see Findings).
- `BaseOpMode` declares a static `hardwareMap` field, which hides the `hardwareMap` field
  every OpMode inherits. The unqualified Lynx-module and voltage-sensor lookups at the start
  of `runOpMode` therefore read the static field. It is null at start-up and cleared at the
  end of every session, so as written a session dereferences null before doing anything
  (`OpMode.SessionAsWritten`). `OpMode.RunOpMode` and the session lemmas describe the
  intended session, which looks the hardware up in the OpMode's own map.

## Model

| member | source | states |
|---|---|---|
| Scheduler.Apply | TeamCode/src/main/java/org/firstinspires/ftc/lib/wpilib/command/button/Trigger.java:225-231 | schedule adds the command to the scheduled set, cancel removes it, no action leaves the set unchanged |
| Triggers.Eval | TeamCode/src/main/java/org/firstinspires/ftc/lib/wpilib/command/button/Trigger.java:268-290 | evaluation yields the logical value of the condition; a source polls only itself; a false left operand of `and` and a true left operand of `or` stop evaluation, so the right operand is not polled, and otherwise the right operand is polled after the left; the robot-enabled flag polls nothing, a negation polls what its operand polls, and a debouncer is polled after its input |
| Triggers.NewTrigger | TeamCode/src/main/java/org/firstinspires/ftc/lib/wpilib/command/button/Trigger.java:52-56 | construction succeeds exactly when loop, condition and context are all present; otherwise it reports the first missing one, checked in the order loop, condition, context, with caller "Trigger" |
| Triggers.NewTriggerInActiveOpMode | TeamCode/src/main/java/org/firstinspires/ftc/lib/wpilib/command/button/Trigger.java:77-91 | the condition-only constructor uses the default button loop and the active OpMode as context, and fails when no OpMode is active |
| Triggers.InContext | TeamCode/src/main/java/org/firstinspires/ftc/lib/wpilib/command/button/Trigger.java:93-95 | a trigger is in context exactly when its context is "ALWAYS" or equals the active OpMode |
| Triggers.GetAsBoolean | TeamCode/src/main/java/org/firstinspires/ftc/lib/wpilib/command/button/Trigger.java:258-260 | the trigger's value is its raw condition, whatever the context |
| Triggers.AndTrigger | TeamCode/src/main/java/org/firstinspires/ftc/lib/wpilib/command/button/Trigger.java:268-270 | same loop and context; holds exactly when both conditions hold; the other condition is not polled when this one is false, and is polled after this one when this one holds |
| Triggers.OrTrigger | TeamCode/src/main/java/org/firstinspires/ftc/lib/wpilib/command/button/Trigger.java:278-280 | same loop and context; holds exactly when either condition holds; the other condition is not polled when this one is true, and is polled after this one when this one is false |
| Triggers.NegateTrigger | TeamCode/src/main/java/org/firstinspires/ftc/lib/wpilib/command/button/Trigger.java:288-290 | same loop and context; holds exactly when the condition does not; polls the same suppliers |
| Triggers.DebounceTrigger | TeamCode/src/main/java/org/firstinspires/ftc/lib/wpilib/command/button/Trigger.java:299-323 | same loop and context; the value is the debouncer's output for the raw condition; the debouncer is advanced after the condition |
| Triggers.Decide | TeamCode/src/main/java/org/firstinspires/ftc/lib/wpilib/command/button/Trigger.java:124-255 | for each binding method, the request made for a (previous, current) pair: onChange schedules iff they differ; onTrue/onFalse schedule iff rising/falling; whileTrue schedules on rise and cancels on fall; whileFalse is the mirror; the toggles act only on their edge and cancel iff the command is scheduled; no other case acts |
| Triggers.Bind | TeamCode/src/main/java/org/firstinspires/ftc/lib/wpilib/command/button/Trigger.java:102-125 | a null command is rejected with the binding method's name; otherwise exactly one binding is appended to the trigger's loop, seeded from the raw condition, and no other loop changes |
| Triggers.Current | TeamCode/src/main/java/org/firstinspires/ftc/lib/wpilib/command/button/Trigger.java:109 | the value a poll sees is the condition and the context gate |
| Triggers.PollBinding | TeamCode/src/main/java/org/firstinspires/ftc/lib/wpilib/command/button/Trigger.java:108-114 | one poll decides on (previous, gated current), applies the request, and stores the gated current as the new previous value; nothing else in the binding changes |
| Triggers.PollLoop | TeamCode/src/main/java/org/firstinspires/ftc/lib/wpilib/command/button/Trigger.java:102-116 | polling a loop steps every binding in registration order, each seeing the scheduled set its predecessors left, and polls the suppliers binding by binding |
| Triggers.RunBindingFrame | TeamCode/src/main/java/org/firstinspires/ftc/lib/wpilib/command/button/Trigger.java:102-116 | over any sequence of polls a binding touches only its own command, and ends with its previous value equal to the last value seen |
| Triggers.WhileTrueFollowsCondition | TeamCode/src/main/java/org/firstinspires/ftc/lib/wpilib/command/button/Trigger.java:179-190 | a whileTrue command that starts in step with the condition is scheduled after any sequence of polls exactly when the last gated value was true |
| Triggers.WhileFalseFollowsNegation | TeamCode/src/main/java/org/firstinspires/ftc/lib/wpilib/command/button/Trigger.java:202-213 | a whileFalse command that starts in step is scheduled exactly when the last gated value was false |
| Triggers.OnTrueSchedulesOnRise | TeamCode/src/main/java/org/firstinspires/ftc/lib/wpilib/command/button/Trigger.java:141-150 | after any sequence of polls an onTrue command is scheduled iff it was already or a rising edge occurred |
| Triggers.OnFalseSchedulesOnFall | TeamCode/src/main/java/org/firstinspires/ftc/lib/wpilib/command/button/Trigger.java:158-167 | after any sequence of polls an onFalse command is scheduled iff it was already or a falling edge occurred |
| Triggers.ToggleOnTrueParity | TeamCode/src/main/java/org/firstinspires/ftc/lib/wpilib/command/button/Trigger.java:221-234 | each rising edge flips whether the command is scheduled, so the final state is the initial one flipped by the parity of rising edges |
| Triggers.ToggleOnFalseParity | TeamCode/src/main/java/org/firstinspires/ftc/lib/wpilib/command/button/Trigger.java:242-255 | each falling edge flips whether the command is scheduled |
| Triggers.LeavingContextCancels | TeamCode/src/main/java/org/firstinspires/ftc/lib/wpilib/command/button/Trigger.java:93-116 | when the active OpMode leaves a held whileTrue trigger's context, the next poll sees a falling edge and cancels the command |
| Triggers.SeedIgnoresContext | TeamCode/src/main/java/org/firstinspires/ftc/lib/wpilib/command/button/Trigger.java:102-116 | the seed ignores the context gate: an onFalse bound out of context while its condition holds schedules its command on the first poll |
| Proxy.NewProxy | TeamCode/src/main/java/org/firstinspires/ftc/lib/wpilib/command/ProxyCommand.java:32-36 | a null command is rejected with caller "ProxyCommand"; otherwise the proxy targets the command, holds nothing yet, and is named "Proxy(" + inner name + ")" |
| Proxy.Initialize | TeamCode/src/main/java/org/firstinspires/ftc/lib/wpilib/command/ProxyCommand.java:38-42 | initialize holds the target and adds it to the scheduled set |
| Proxy.End | TeamCode/src/main/java/org/firstinspires/ftc/lib/wpilib/command/ProxyCommand.java:44-50 | end(true) cancels the held target, end(false) leaves the scheduled set untouched, both drop the held target; an interrupted end with nothing held is a null dereference |
| Proxy.Execute | TeamCode/src/main/java/org/firstinspires/ftc/lib/wpilib/command/ProxyCommand.java:52-53 | execute changes nothing |
| Proxy.IsFinished | TeamCode/src/main/java/org/firstinspires/ftc/lib/wpilib/command/ProxyCommand.java:55-61 | finished iff nothing is held or the held target is not scheduled |
| Proxy.RunsWhenDisabled | TeamCode/src/main/java/org/firstinspires/ftc/lib/wpilib/command/ProxyCommand.java:69-72 | always true |
| Proxy.FinishedTracksTarget | TeamCode/src/main/java/org/firstinspires/ftc/lib/wpilib/command/ProxyCommand.java:38-61 | after initialize the proxy is unfinished, and later finished exactly when its target is no longer scheduled |
| Proxy.EndAfterInitialize | TeamCode/src/main/java/org/firstinspires/ftc/lib/wpilib/command/ProxyCommand.java:38-61 | an initialized proxy can always be ended and is finished afterwards; interruption leaves the target unscheduled; a natural end leaves the scheduled set as it was |
| Proxy.NameRoundTrip | TeamCode/src/main/java/org/firstinspires/ftc/lib/wpilib/command/ProxyCommand.java:35 | the inner command's name can be read back from the proxy's name |
| OpMode.LastIndexOf | TeamCode/src/main/java/org/firstinspires/ftc/lib/trobotix/BaseOpMode.java:25 | the result is -1 or the index of the character, and no later position holds it |
| OpMode.OpModeName | TeamCode/src/main/java/org/firstinspires/ftc/lib/trobotix/BaseOpMode.java:23-26 | the name is the suffix of the class name after its last '.', or the whole name if there is none; it contains no '.' |
| OpMode.StopIndex | TeamCode/src/main/java/org/firstinspires/ftc/lib/trobotix/BaseOpMode.java:45 | the loop runs for exactly the ticks before the first stop request |
| OpMode.RunSession | TeamCode/src/main/java/org/firstinspires/ftc/lib/trobotix/BaseOpMode.java:29-57 | with the modules and sensors of one map and another map to publish: with no voltage sensor the session fails after switching every Lynx module to manual bulk caching, leaving the globals unchanged; otherwise the name is recorded as initialised, the last event is a scheduler run with robotEnabled false, and activeOpMode, hardwareMap and voltageSensor end cleared |
| OpMode.SessionAsWritten | TeamCode/src/main/java/org/firstinspires/ftc/lib/trobotix/BaseOpMode.java:29-37 | as written, the lookups read the static hardware map: when it is null the session fails with a null dereference, traces nothing and changes no global; when it is stale, the session enumerates the stale map's modules and sensors but publishes the OpMode's own map |
| OpMode.ClearedGlobalsSessionFails | TeamCode/src/main/java/org/firstinspires/ftc/lib/trobotix/BaseOpMode.java:31 | from the start-up globals, a session as written fails with nothing traced, where the intended session with a voltage sensor initialises the OpMode once |
| OpMode.AsWrittenSessionsNeverStart | TeamCode/src/main/java/org/firstinspires/ftc/lib/trobotix/BaseOpMode.java:31 | as written, once the static map is null every later session fails at the first lookup: the combined trace is empty and the globals never change |
| OpMode.SetupContents | TeamCode/src/main/java/org/firstinspires/ftc/lib/trobotix/BaseOpMode.java:31-33 | the caching setup and each tick's bulk reads visit module i at position i, in order |
| OpMode.RunOpMode | TeamCode/src/main/java/org/firstinspires/ftc/lib/trobotix/BaseOpMode.java:29-57 | as intended, with the lookups in the OpMode's own map: with no voltage sensor the session fails after switching every Lynx module to manual bulk caching, leaving the globals unchanged; otherwise the name is recorded as initialised, the last event is a scheduler run with robotEnabled false, and activeOpMode, hardwareMap and voltageSensor end cleared |
| OpMode.SessionSchedulerRuns | TeamCode/src/main/java/org/firstinspires/ftc/lib/trobotix/BaseOpMode.java:45-53 | in the intended session, the scheduler runs once per tick before the stop request, with robotEnabled equal to that tick's opModeIsActive and activeOpMode equal to the name, then exactly once more disabled |
| OpMode.RunsOfLoop | TeamCode/src/main/java/org/firstinspires/ftc/lib/trobotix/BaseOpMode.java:45-51 | each loop tick contributes exactly one scheduler run, after its bulk reads |
| OpMode.SessionInitCount | TeamCode/src/main/java/org/firstinspires/ftc/lib/trobotix/BaseOpMode.java:39-43 | in the intended session, a session calls initialize for a name once if it runs that name and the name was not yet recorded, and never otherwise; it records the name it ran |
| OpMode.SessionInitsSeePublished | TeamCode/src/main/java/org/firstinspires/ftc/lib/trobotix/BaseOpMode.java:30-43 | in the intended session, a session that starts calls Robot.init right after the bulk-caching setup, then initialize() exactly when the name is new; both already see activeOpMode set to the name, the hardware map and the first voltage sensor, and no other event is an initialisation |
| OpMode.TriggersBuiltInInitializeTakeTheName | TeamCode/src/main/java/org/firstinspires/ftc/lib/wpilib/command/button/Trigger.java:88-90 | a Trigger built with the one-argument constructor during initialize() gets the running OpMode's name as its context, on the default button loop |
| OpMode.InitializeAtMostOncePerName | TeamCode/src/main/java/org/firstinspires/ftc/lib/trobotix/BaseOpMode.java:40-43 | across any sequence of sessions initialize runs at most once per name, exactly once when the name became recorded, and recorded names stay recorded |
| OpMode.Enabled | TeamCode/src/main/java/org/firstinspires/ftc/lib/trobotix/BaseOpMode.java:65-68 | enabled() returns the cached trigger for the name, creating one on robotEnabled with the name as context when absent |
| OpMode.EnabledIsCached | TeamCode/src/main/java/org/firstinspires/ftc/lib/trobotix/BaseOpMode.java:65-68 | a repeated call with the same name returns the same trigger and leaves the cache unchanged |
| CoordinateSystems.ToMetersAsWritten | TeamCode/src/main/java/org/firstinspires/ftc/lib/trobotix/CoordinateSystems.java:46-68 | the unit switch as written: metres pass through, centimetres are multiplied by 100, millimetres by 1000, inches scaled by 0.0254, and a missing unit fails |
| CoordinateSystems.WPILibToFieldCoordinates | TeamCode/src/main/java/org/firstinspires/ftc/lib/trobotix/CoordinateSystems.java:25-32 | the SDK field position is in metres at time 0, with x = 6 in + WPILib y, y = 6 in - WPILib x, z unchanged |
| CoordinateSystems.FieldCoordinatesToWPILib | TeamCode/src/main/java/org/firstinspires/ftc/lib/trobotix/CoordinateSystems.java:42-71 | fails exactly when the unit is missing; otherwise each coordinate is first multiplied by the unit switch's factor as written (1 for metres, 100 for centimetres, 1000 for millimetres, 0.0254 for inches) and the scaled (x, y, z) maps to (6 in - y, x - 6 in, z) |
| CoordinateSystems.WPILibToRobotCoordinates | TeamCode/src/main/java/org/firstinspires/ftc/lib/trobotix/CoordinateSystems.java:80-83 | the SDK robot position is in metres at time 0, with x = -WPILib y, y = WPILib x, z unchanged |
| CoordinateSystems.RobotCoordinatesToWPILib | TeamCode/src/main/java/org/firstinspires/ftc/lib/trobotix/CoordinateSystems.java:92-120 | fails exactly when the unit is missing; otherwise each coordinate is first multiplied by the unit switch's factor as written (1, 100, 1000 or 0.0254) and the scaled (x, y, z) maps to (y, -x, z) |
| CoordinateSystems.WPILibToSDKRotation | TeamCode/src/main/java/org/firstinspires/ftc/lib/trobotix/CoordinateSystems.java:130-133 | yaw is the z angle, pitch the negated y angle, roll the x angle, in radians at time 0 |
| CoordinateSystems.SDKRotationToWPILib | TeamCode/src/main/java/org/firstinspires/ftc/lib/trobotix/CoordinateSystems.java:142-147 | x is the roll, y the negated pitch, z the yaw, each read in radians |
| CoordinateSystems.FieldRoundTrip | TeamCode/src/main/java/org/firstinspires/ftc/lib/trobotix/CoordinateSystems.java:25-71 | converting to SDK field coordinates and back gives the original translation |
| CoordinateSystems.FieldRoundTripFromSDK | TeamCode/src/main/java/org/firstinspires/ftc/lib/trobotix/CoordinateSystems.java:25-71 | a metre position at time 0 survives the conversion to WPILib and back |
| CoordinateSystems.RobotRoundTrip | TeamCode/src/main/java/org/firstinspires/ftc/lib/trobotix/CoordinateSystems.java:80-120 | converting to SDK robot coordinates and back gives the original translation |
| CoordinateSystems.RobotRoundTripFromSDK | TeamCode/src/main/java/org/firstinspires/ftc/lib/trobotix/CoordinateSystems.java:80-120 | a metre position at time 0 survives the conversion to WPILib and back |
| CoordinateSystems.ZPassesThrough | TeamCode/src/main/java/org/firstinspires/ftc/lib/trobotix/CoordinateSystems.java:25-120 | the forward maps copy z; the reverse maps only multiply z by the unit switch's factor as written, so a position in metres keeps its z |
| CoordinateSystems.RotationRoundTrip | TeamCode/src/main/java/org/firstinspires/ftc/lib/trobotix/CoordinateSystems.java:130-147 | converting a rotation to yaw/pitch/roll and back gives the original angles |
| CoordinateSystems.CentimetresDisagreeWithMetres | TeamCode/src/main/java/org/firstinspires/ftc/lib/trobotix/CoordinateSystems.java:52-61 | as written, 100 cm converts to 10000 m, and 100 cm or 1000 mm convert to a different point from 1 m |
| CoordinateSystems.ToMeters | TeamCode/src/main/java/org/firstinspires/ftc/lib/trobotix/CoordinateSystems.java:46-68 | the corrected unit switch: fails exactly when the unit is missing; metres pass through, centimetres and millimetres are divided down so that 100 (resp. 1000) times the result gives the input, inches are scaled by 0.0254 |
| CoordinateSystems.FieldCoordinatesToWPILibCorrected | TeamCode/src/main/java/org/firstinspires/ftc/lib/trobotix/CoordinateSystems.java:42-71 | with the corrected switch: fails exactly when the unit is missing; otherwise the metres (x, y, z) map to (6 in - y, x - 6 in, z), WPILibToFieldCoordinates maps the result back to those metres, and metres and inches convert as the code does |
| CoordinateSystems.RobotCoordinatesToWPILibCorrected | TeamCode/src/main/java/org/firstinspires/ftc/lib/trobotix/CoordinateSystems.java:92-120 | with the corrected switch: fails exactly when the unit is missing; otherwise the metres (x, y, z) map to (y, -x, z), WPILibToRobotCoordinates maps the result back to those metres, and metres and inches convert as the code does |
| CoordinateSystems.CorrectedConversionIsUnitInvariant | TeamCode/src/main/java/org/firstinspires/ftc/lib/trobotix/CoordinateSystems.java:46-119 | with the corrected switch, one point given in metres, centimetres, millimetres or inches converts to the same WPILib point |
| CoordinateSystems.CorrectedRoundTrips | TeamCode/src/main/java/org/firstinspires/ftc/lib/trobotix/CoordinateSystems.java:25-120 | the corrected conversions still invert the WPILib-to-SDK conversions |
| TwoPodKinematics.ToChassisSpeeds | TeamCode/src/main/java/org/firstinspires/ftc/lib/wpilib/math/kinematics/TwoPodDeadwheelKinematics.java:27-32 | the chassis speeds reproduce the measured pod speeds once each pod's rotation term is removed |
| TwoPodKinematics.ToWheelSpeeds | TeamCode/src/main/java/org/firstinspires/ftc/lib/wpilib/math/kinematics/TwoPodDeadwheelKinematics.java:35-40 | each pod speed is the chassis speed along its axis minus the rotation term at the pod's offset |
| TwoPodKinematics.ChassisRoundTrip | TeamCode/src/main/java/org/firstinspires/ftc/lib/wpilib/math/kinematics/TwoPodDeadwheelKinematics.java:27-40 | chassis speeds to pod speeds and back is the identity |
| TwoPodKinematics.WheelRoundTrip | TeamCode/src/main/java/org/firstinspires/ftc/lib/wpilib/math/kinematics/TwoPodDeadwheelKinematics.java:27-40 | pod speeds to chassis speeds and back is the identity |
| TwoPodKinematics.ToTwist2d | TeamCode/src/main/java/org/firstinspires/ftc/lib/wpilib/math/kinematics/TwoPodDeadwheelKinematics.java:43-49 | the twist is the chassis motion of the position deltas, with the heading change as dtheta |
| TwoPodKinematics.NoMotionNoTwist | TeamCode/src/main/java/org/firstinspires/ftc/lib/wpilib/math/kinematics/TwoPodDeadwheelKinematics.java:43-49 | equal start and end positions give the zero twist |
| TwoPodKinematics.Copy | TeamCode/src/main/java/org/firstinspires/ftc/lib/wpilib/math/kinematics/TwoPodDeadwheelKinematics.java:52-55 | the copy equals the original positions |
| TwoPodKinematics.CopyInto | TeamCode/src/main/java/org/firstinspires/ftc/lib/wpilib/math/kinematics/TwoPodDeadwheelKinematics.java:58-62 | the output ends up equal to the source, whatever it held before |
| ThreePodKinematics.ToWheelSpeeds | TeamCode/src/main/java/org/firstinspires/ftc/lib/wpilib/math/kinematics/ThreePodDeadwheelKinematics.java:44-49 | each pod speed is the chassis speed along its axis minus the rotation term; the two x pods differ by the offset difference times omega |
| ThreePodKinematics.ToChassisSpeeds | TeamCode/src/main/java/org/firstinspires/ftc/lib/wpilib/math/kinematics/ThreePodDeadwheelKinematics.java:31-41 | for distinct x-pod offsets, the chassis speeds reproduce all three measured pod speeds |
| ThreePodKinematics.WheelRoundTrip | TeamCode/src/main/java/org/firstinspires/ftc/lib/wpilib/math/kinematics/ThreePodDeadwheelKinematics.java:31-49 | pod speeds to chassis speeds and back is the identity |
| ThreePodKinematics.ChassisRoundTrip | TeamCode/src/main/java/org/firstinspires/ftc/lib/wpilib/math/kinematics/ThreePodDeadwheelKinematics.java:31-49 | chassis speeds to pod speeds and back is the identity |
| ThreePodKinematics.ToTwist2d | TeamCode/src/main/java/org/firstinspires/ftc/lib/wpilib/math/kinematics/ThreePodDeadwheelKinematics.java:52-60 | the twist is the chassis motion of the three position deltas |
| ThreePodKinematics.NoMotionNoTwist | TeamCode/src/main/java/org/firstinspires/ftc/lib/wpilib/math/kinematics/ThreePodDeadwheelKinematics.java:52-60 | equal start and end positions give the zero twist |
| ThreePodKinematics.Copy | TeamCode/src/main/java/org/firstinspires/ftc/lib/wpilib/math/kinematics/ThreePodDeadwheelKinematics.java:63-66 | the copy equals the original positions |
| ThreePodKinematics.CopyInto | TeamCode/src/main/java/org/firstinspires/ftc/lib/wpilib/math/kinematics/ThreePodDeadwheelKinematics.java:69-73 | the output ends up equal to the source |
| ThreePodKinematics.Interpolate | TeamCode/src/main/java/org/firstinspires/ftc/lib/wpilib/math/kinematics/ThreePodDeadwheelKinematics.java:76-79 | each pod position is interpolated on its own with the same fraction |
| Motor.Clamp | TeamCode/src/main/java/org/firstinspires/ftc/lib/trobotix/hardware/Motor.java:27 | the result lies in the bounds, equals the input inside them and the nearer bound outside |
| Motor.SetBrake | TeamCode/src/main/java/org/firstinspires/ftc/lib/trobotix/hardware/Motor.java:18-21 | true selects BRAKE and false FLOAT; duty cycle and tolerance are untouched |
| Motor.Set | TeamCode/src/main/java/org/firstinspires/ftc/lib/trobotix/hardware/Motor.java:26-32 | the clamped value is written, and becomes the last duty cycle, exactly when it is not near the last one under the tolerance; otherwise nothing changes; anything written lies in [-1, 1] |
| Motor.SetVoltage | TeamCode/src/main/java/org/firstinspires/ftc/lib/trobotix/hardware/Motor.java:34-36 | behaves as a set of volts over the bus voltage |
| Motor.SetTolerance | TeamCode/src/main/java/org/firstinspires/ftc/lib/trobotix/hardware/Motor.java:38-40 | only the tolerance changes |
| Motor.InitialIsConsistent | TeamCode/src/main/java/org/firstinspires/ftc/lib/trobotix/hardware/Motor.java:23-24 | a new motor has last duty cycle 0, tolerance 0.01 and no writes |
| Motor.PerformKeepsConsistent | TeamCode/src/main/java/org/firstinspires/ftc/lib/trobotix/hardware/Motor.java:18-40 | every public operation keeps all written powers in [-1, 1] and the last duty cycle equal to the last power written |
| Motor.CallsKeepConsistent | TeamCode/src/main/java/org/firstinspires/ftc/lib/trobotix/hardware/Motor.java:18-40 | over any sequence of calls, every power written lies in [-1, 1] and the last duty cycle is the last power written, or 0 before any write |
| Telemetry.NewPacket | TeamCode/src/main/java/org/firstinspires/ftc/lib/trobotix/Telemetry.java:16 | a new packet is empty and draws the default field as asked |
| Telemetry.SetTelemetry | TeamCode/src/main/java/org/firstinspires/ftc/lib/trobotix/Telemetry.java:19-21 | only the driver-station telemetry changes |
| Telemetry.SendDashboardTelemetry | TeamCode/src/main/java/org/firstinspires/ftc/lib/trobotix/Telemetry.java:28-31 | the current packet is sent, then replaced by an empty packet that draws the default field |
| Telemetry.AddDSLine | TeamCode/src/main/java/org/firstinspires/ftc/lib/trobotix/Telemetry.java:33-38 | without driver-station telemetry nothing changes; otherwise one line is appended |
| Telemetry.AddDSData | TeamCode/src/main/java/org/firstinspires/ftc/lib/trobotix/Telemetry.java:40-46 | without driver-station telemetry nothing changes; otherwise the datum is appended and mirrored into the packet under "DS/" + name |
| Telemetry.AddDashboardData | TeamCode/src/main/java/org/firstinspires/ftc/lib/trobotix/Telemetry.java:48-68 | no key is removed and the packet's flag is untouched |
| Telemetry.AddIsFlatten | TeamCode/src/main/java/org/firstinspires/ftc/lib/trobotix/Telemetry.java:48-68 | flattening adds exactly the reference keys and values of the value's type, and every other key keeps its value |
| Telemetry.RotIsFlatten | TeamCode/src/main/java/org/firstinspires/ftc/lib/trobotix/Telemetry.java:49-51 | a Rotation2d adds path/.type = "Rotation2d" and path/value = radians |
| Telemetry.TransIsFlatten | TeamCode/src/main/java/org/firstinspires/ftc/lib/trobotix/Telemetry.java:52-55 | a Translation2d adds path/.type, path/x and path/y |
| Telemetry.PoseIsFlatten | TeamCode/src/main/java/org/firstinspires/ftc/lib/trobotix/Telemetry.java:56-59 | a Pose2d adds path/.type = "Pose2d" and its translation and rotation flattened under path/translation and path/rotation |
| Telemetry.SpeedsIsFlatten | TeamCode/src/main/java/org/firstinspires/ftc/lib/trobotix/Telemetry.java:60-64 | a ChassisSpeeds adds path/.type, path/vx, path/vy and path/omega |
| Telemetry.PoseKeys | TeamCode/src/main/java/org/firstinspires/ftc/lib/trobotix/Telemetry.java:56-59 | the nested flattenings of a pose's parts give the pose's six reference keys |
| Telemetry.PoseHasSixKeys | TeamCode/src/main/java/org/firstinspires/ftc/lib/trobotix/Telemetry.java:56-59 | a Pose2d flattens to six distinct keys |
| Telemetry.FlattenKeysUnderPath | TeamCode/src/main/java/org/firstinspires/ftc/lib/trobotix/Telemetry.java:48-68 | every key written starts with the path |
| Telemetry.OtherStoredUnderPath | TeamCode/src/main/java/org/firstinspires/ftc/lib/trobotix/Telemetry.java:65-66 | a value of any other type is stored under the path itself and no other key changes |
| Telemetry.AddDashboardDataTo | TeamCode/src/main/java/org/firstinspires/ftc/lib/trobotix/Telemetry.java:48-68 | dashboard data is added whether or not driver-station telemetry is set, and only the packet changes |
| ByteBuffer.PutDouble | TeamCode/src/main/java/org/firstinspires/ftc/lib/wpilib/math/geometry/struct/Translation3dStruct.java:41 | a write succeeds iff a slot remains, stores the value at the cursor and advances it; otherwise overflow |
| ByteBuffer.GetDouble | TeamCode/src/main/java/org/firstinspires/ftc/lib/wpilib/math/geometry/struct/Translation3dStruct.java:33 | a read succeeds iff a slot remains, returns the slot at the cursor and advances it; otherwise underflow |
| ByteBuffer.PutAll | TeamCode/src/main/java/org/firstinspires/ftc/lib/wpilib/math/struct/VectorStruct.java:53-56 | writing an array succeeds iff it fits, stores it in order at the cursor, leaves every other slot alone and advances by its length |
| ByteBuffer.PutPartial | TeamCode/src/main/java/org/firstinspires/ftc/lib/wpilib/math/geometry/struct/Translation3dStruct.java:39-44 | single writes that overflow partway leave every value that fitted written, in order, the rest of the buffer untouched and the cursor at the limit; when all fit this is the buffer PutAll returns |
| ByteBuffer.GetMany | TeamCode/src/main/java/org/firstinspires/ftc/lib/wpilib/math/struct/VectorStruct.java:47-51 | reading n doubles succeeds iff n slots remain and returns the next n slots in order |
| ByteBuffer.ReadBack | TeamCode/src/main/java/org/firstinspires/ftc/lib/wpilib/math/struct/VectorStruct.java:47-56 | reading from where a write started returns the values written and ends where the write ended |
| ByteBuffer.PutThenGet | TeamCode/src/main/java/org/firstinspires/ftc/lib/wpilib/math/struct/VectorStruct.java:47-56 | writing values and reading as many from the starting position gives them back |
| GeometryStructs.TypeNameIdentifiesStruct | TeamCode/src/main/java/org/firstinspires/ftc/lib/wpilib/math/geometry/struct/Pose3dStruct.java:18-21 | no two structs share a type name |
| GeometryStructs.IsImmutable | TeamCode/src/main/java/org/firstinspires/ftc/lib/wpilib/math/geometry/struct/Pose3dStruct.java:51-54 | every geometry struct reports immutable |
| GeometryStructs.Size | TeamCode/src/main/java/org/firstinspires/ftc/lib/wpilib/math/geometry/struct/Pose3dStruct.java:23-26 | sizes are multiples of the double size; composite sizes are the sums of their parts' sizes |
| GeometryStructs.TypeName | TeamCode/src/main/java/org/firstinspires/ftc/lib/wpilib/math/geometry/struct/Pose3dStruct.java:18-21 | the type name is the one schemas use for the struct: reading it back names the same struct |
| GeometryStructs.Schema | TeamCode/src/main/java/org/firstinspires/ftc/lib/wpilib/math/geometry/struct/Pose3dStruct.java:28-31 | the schema string is the rendering of the struct's field list, "type name" declarations in declaration order joined by ';' |
| GeometryStructs.Nested | TeamCode/src/main/java/org/firstinspires/ftc/lib/wpilib/math/geometry/struct/Pose3dStruct.java:33-36 | the nested structs are the ones the schema's fields name, in schema order, each strictly simpler than the struct; a struct with no nested ones has no struct-typed field |
| GeometryStructs.NestedAgreesWithSchema | TeamCode/src/main/java/org/firstinspires/ftc/lib/wpilib/math/geometry/struct/Pose3dStruct.java:23-36 | the size is the sum of the schema's field sizes; the nested structs are the schema's field types in order; structs without nested ones have only double fields |
| GeometryStructs.PackTranslation3d | TeamCode/src/main/java/org/firstinspires/ftc/lib/wpilib/math/geometry/struct/Translation3dStruct.java:39-44 | writes x, y, z in that order at the cursor, three slots, which is the struct's size; overflow when they do not fit |
| GeometryStructs.UnpackTranslation3d | TeamCode/src/main/java/org/firstinspires/ftc/lib/wpilib/math/geometry/struct/Translation3dStruct.java:31-37 | reads three slots as x, y, z and advances by three; underflow when they are not there |
| GeometryStructs.PackQuaternion | TeamCode/src/main/java/org/firstinspires/ftc/lib/wpilib/math/geometry/struct/QuaternionStruct.java:42-48 | writes w, x, y, z in that order, four slots, which is the struct's size |
| GeometryStructs.UnpackQuaternion | TeamCode/src/main/java/org/firstinspires/ftc/lib/wpilib/math/geometry/struct/QuaternionStruct.java:33-40 | reads four slots as w, x, y, z with no other processing |
| GeometryStructs.PackRotation2d | TeamCode/src/main/java/org/firstinspires/ftc/lib/wpilib/math/geometry/struct/Rotation2dStruct.java:37-40 | writes only the radians, one slot |
| GeometryStructs.UnpackRotation2d | TeamCode/src/main/java/org/firstinspires/ftc/lib/wpilib/math/geometry/struct/Rotation2dStruct.java:31-35 | reads one slot as the radians |
| GeometryStructs.PackRotation3d | TeamCode/src/main/java/org/firstinspires/ftc/lib/wpilib/math/geometry/struct/Rotation3dStruct.java:43-46 | writes only the quaternion, four slots, which is the struct's size |
| GeometryStructs.UnpackRotation3d | TeamCode/src/main/java/org/firstinspires/ftc/lib/wpilib/math/geometry/struct/Rotation3dStruct.java:37-41 | reads one quaternion and advances by four slots |
| GeometryStructs.PackPose3d | TeamCode/src/main/java/org/firstinspires/ftc/lib/wpilib/math/geometry/struct/Pose3dStruct.java:45-49 | writes the translation's slots, then the rotation's: seven slots, the struct's size |
| GeometryStructs.UnpackPose3d | TeamCode/src/main/java/org/firstinspires/ftc/lib/wpilib/math/geometry/struct/Pose3dStruct.java:38-43 | reads the translation, then the rotation, from seven slots |
| GeometryStructs.PackTransform3d | TeamCode/src/main/java/org/firstinspires/ftc/lib/wpilib/math/geometry/struct/Transform3dStruct.java:45-49 | writes the translation's slots, then the rotation's: seven slots |
| GeometryStructs.UnpackTransform3d | TeamCode/src/main/java/org/firstinspires/ftc/lib/wpilib/math/geometry/struct/Transform3dStruct.java:38-43 | reads the translation, then the rotation, from seven slots |
| GeometryStructs.Translation3dRoundTrip | TeamCode/src/main/java/org/firstinspires/ftc/lib/wpilib/math/geometry/struct/Translation3dStruct.java:31-44 | unpacking from where packing started returns the translation and ends where packing ended |
| GeometryStructs.QuaternionRoundTrip | TeamCode/src/main/java/org/firstinspires/ftc/lib/wpilib/math/geometry/struct/QuaternionStruct.java:33-48 | unpacking from where packing started returns the quaternion and leaves the cursor at start + 4 |
| GeometryStructs.Rotation2dRoundTrip | TeamCode/src/main/java/org/firstinspires/ftc/lib/wpilib/math/geometry/struct/Rotation2dStruct.java:31-40 | unpacking from where packing started returns the rotation |
| GeometryStructs.Rotation3dRoundTrip | TeamCode/src/main/java/org/firstinspires/ftc/lib/wpilib/math/geometry/struct/Rotation3dStruct.java:37-46 | unpacking from where packing started returns the rotation |
| GeometryStructs.Pose3dRoundTrip | TeamCode/src/main/java/org/firstinspires/ftc/lib/wpilib/math/geometry/struct/Pose3dStruct.java:38-49 | unpacking from where packing started returns the pose |
| GeometryStructs.Transform3dRoundTrip | TeamCode/src/main/java/org/firstinspires/ftc/lib/wpilib/math/geometry/struct/Transform3dStruct.java:38-49 | unpacking from where packing started returns the transform |
| VectorStruct.NatToString | TeamCode/src/main/java/org/firstinspires/ftc/lib/wpilib/math/struct/VectorStruct.java:34 | the decimal rendering of the row count is non-empty, all digits, with no leading zero |
| VectorStruct.ParseNatToString | TeamCode/src/main/java/org/firstinspires/ftc/lib/wpilib/math/struct/VectorStruct.java:34 | the rendering reads back as the same number |
| VectorStruct.Size | TeamCode/src/main/java/org/firstinspires/ftc/lib/wpilib/math/struct/VectorStruct.java:37-40 | the size is the double size times the row count |
| VectorStruct.TypeName | TeamCode/src/main/java/org/firstinspires/ftc/lib/wpilib/math/struct/VectorStruct.java:32-35 | the type name "Vector__" + rows gives back the row count fixed at construction |
| VectorStruct.Schema | TeamCode/src/main/java/org/firstinspires/ftc/lib/wpilib/math/struct/VectorStruct.java:42-45 | the schema "double data[" + rows + "]" gives back the row count fixed at construction |
| VectorStruct.Unpack | TeamCode/src/main/java/org/firstinspires/ftc/lib/wpilib/math/struct/VectorStruct.java:47-51 | reads exactly rows doubles in order; underflow when they are not there |
| VectorStruct.Pack | TeamCode/src/main/java/org/firstinspires/ftc/lib/wpilib/math/struct/VectorStruct.java:53-56 | writes the whole data array, whatever the row count |
| VectorStruct.RoundTrip | TeamCode/src/main/java/org/firstinspires/ftc/lib/wpilib/math/struct/VectorStruct.java:47-56 | a vector with as many entries as rows survives pack then unpack |

## Left out

- Command scheduler internals: requirements, conflict resolution, default commands and the event loop's own code are not part of this model. Scheduling adds to a set and cancelling removes from it. The event loop is assumed to run its bindings in registration order.
- Triggers.PollLoop: every binding of one poll reads the same snapshot of the suppliers. Java calls each binding's condition afresh, so a supplier shared by several bindings is read once per binding and could change between those reads; that is not modelled.
- Debouncer: its timing is not part of this model. Each debounced trigger is a stateful supplier whose output is a parameter of the poll snapshot.
- Robot.init, initialize and the scheduler run are trace events that record the globals they observe; their own effects are not modelled. Lynx bulk caching and the voltage-sensor lookup are trace events too.
- OpMode.SessionSchedulerRuns: states the intended session; as written, a session from cleared globals fails before any scheduler run, which OpMode.AsWrittenSessionsNeverStart states.
- OpMode.SessionInitCount: states the intended session; as written, initialize() never runs while the static hardware map is null (OpMode.ClearedGlobalsSessionFails).
- OpMode.SessionInitsSeePublished: states the intended session; as written, Robot.init is never reached from cleared globals (OpMode.AsWrittenSessionsNeverStart).
- OpMode.RunOpMode: the driver polls isStopRequested forever; the model takes a finite sequence of poll results and treats its end as a stop request.
- Trigger and(other) and or(other) with a null operand: the lambdas would throw when polled; operands are always present in the model.
- Motor.SetVoltage: requires a nonzero bus voltage, because the bus voltage is read from a BaseOpMode field that BaseOpMode does not declare, so it is a parameter. The Java division by a zero bus voltage is not modelled: a nonzero voltage gives an infinite quotient that the clamp turns into a written -1 or 1, and 0/0 writes NaN. Motor.Perform drops such a call, so Motor.CallsKeepConsistent says nothing about it.
- Motor.Set: MathUtil.isNear is not part of this model and is a parameter.
- ThreePodKinematics.ToChassisSpeeds: requires distinct x-pod offsets; with equal offsets Java divides by zero and produces infinities or NaN, which reals cannot express.
- ThreePodKinematics.ToTwist2d: requires distinct x-pod offsets, for the same reason.
- TwoPodKinematics.ToTwist2d: Rotation2d.minus is not part of this model; the heading change is a parameter.
- ThreePodKinematics.Interpolate: ThreePodDeadwheelPositions.interpolate and MathUtil.interpolate are not part of this model; the scalar interpolation is a parameter. The two-pod interpolate delegates to Rotation2d.interpolate, which is not part of this model either.
- CoordinateSystems.SDKRotationToWPILib: the SDK's AngleUnit conversion is not part of this model and is a parameter.
- Rotation3d: the struct model stores the quaternion as read; any normalisation in the unseen Rotation3d constructor is not modelled. The coordinate conversions see a rotation through its x, y, z angles.
- Rotation2d: the unseen constructor is assumed to store the radians it is given.
- IEEE-754 doubles: all arithmetic is over the reals, so rounding, infinities and NaN are not modelled. Struct slots hold reals.
- Telemetry.initTelemetry: it only sets transmission intervals on external objects.
- Telemetry: the SDK telemetry and the dashboard are external; they are an optional log and a list of sent packets.
- Encoder, ModeledMotor, Pinpoint, the AprilTag detector, TwoPodDeadwheelOdometry, the Positions and Speeds classes' own methods, subsystems and OpModes: outside the modelled core.
- ByteBuffer: a pack or unpack that fails partway returns only the overflow or underflow error, not the buffer. Java keeps the doubles written or read before the exception and leaves the position past them; ByteBuffer.PutPartial states the state a failed write leaves, and a failed read leaves the position at the limit with nothing changed. The struct serialisers' errors do not carry that state.
- getTypeClass of every struct: Java reflection, with nothing to model.

## Findings

| source | as written | input that shows it | evidently intended | confidence | as-written member | corrected member |
|---|---|---|---|---|---|---|
| TeamCode/src/main/java/org/firstinspires/ftc/lib/trobotix/CoordinateSystems.java:52-61 | the CM and MM branches of fieldCoordinatesToWPILib multiply by 100 and 1000; robotCoordinatesToWPILib does the same at lines 102-111 | a Position of 100 cm on x converts as if it were 10000 m | divide by 100 and 1000 so every unit gives metres | high, not executed | CoordinateSystems.CentimetresDisagreeWithMetres | CoordinateSystems.CorrectedConversionIsUnitInvariant |
| TeamCode/src/main/java/org/firstinspires/ftc/lib/trobotix/BaseOpMode.java:31-35 | the Lynx-module and voltage-sensor lookups use the unqualified `hardwareMap`, which names BaseOpMode's static field (declared at line 95) rather than the OpMode's own map; the static field is null at start-up and reset at line 55 | the first session after start-up, whatever its hardware: it throws a NullPointerException at line 31 before any event | look the hardware up in `super.hardwareMap`, as line 37 already does when publishing it | high, not executed | OpMode.AsWrittenSessionsNeverStart | OpMode.RunOpMode |
