# Line-following robot controller, modelled in Dafny

This project models the control core of a line-following robot built on a
TM4C123 micro-controller. The robot has eight reflectance sensors, two
PWM-driven motors, four push buttons and a character display.

The core consists of two handlers that share a set of global variables:

- **The periodic control tick** (`SysTickIntHandler`) reads the eight sensor
  bits. If all eight are set, it stops both motors. While the robot runs, it:
  - computes the line error as the mean index of the active sensors minus
    the centre position 3;
  - feeds that error to a PID controller;
  - mixes the correction into two motor speeds: the midpoint between the
    minimum speed and 255, minus the correction for motor A and plus it for
    motor B, each clamped into [minimum speed, 255].
- **The button pass** (`buttonsHandler`) polls the buttons and dispatches on
  the masked sample:
  - CONFIG cycles through the five settings (P, I, D, speed, sensor view).
    It fires on the first pass of a hold and then every 10th.
  - DEC and INC lower or raise the selected setting by one step, clamped.
    They fire on the first pass and then every 5th, and only while the robot
    is stopped.
  - RUN toggles the motors on a new sample. It then falls through into the
    default case, which clears the hold counter.

The project is laid out by the firmware's structure:

- `cintegers.dfy` (`CIntegers`) writes out the C integer conversions the
  firmware relies on: `uint32_t`, `int32_t`, `uint8_t` and the wrapping
  `uint32_t` increment.
- `helpers.dfy` (`Helpers`) holds `decInRange`, `incInRange`, `ensureValue`
  and `numTo3Char`.
- `buttons.dfy` (`Buttons`) holds the pin masks and the press/release macros
  of `buttons.h`.
- `motors.dfy` (`Motors`) holds the motor constants and a record of what each
  driver was last told.
- `sensor_fusion.dfy` (`SensorFusion`) holds the sensor loop and the line
  error.
- `pid.dfy` (`Pid`) holds `computePID`.
- `mixer.dfy` (`Mixer`) holds the differential mixing, with its unsigned and
  signed conversions.
- `controller.dfy` (`Controller`) holds:
  - the whole global state as one value, `Globals`;
  - the invariant `Inv`;
  - the two handlers as step functions, `TickStep` and `ButtonsStep`;
  - the properties of one call, of a held button, and of any interleaving of
    calls.
- `robot.dfy` (`Robot`) holds the class `LineFollower`. Its fields are the
  firmware's globals, and its methods update them in place. Each method
  that changes the fields is proved to produce exactly the state its step
  function describes (`SetRunning`, `PidUpdate`, `Steer`, `Decrement`,
  `Increment`, `ButtonsDispatch`, `TickStep`, `ButtonsStep`), and to keep the
  invariant. `ReadError` is a static method without state, proved equal to
  `LineError`.

Three consequences of the code shape the model:

- `computePID` is called only inside `if (bRunning)`
  (line_following_robot.c:177). While the robot is stopped, a tick records
  the sample and computes nothing else.
- `i32LastErr` (line_following_robot.c:83) is never assigned, so the
  derivative part computed at line 90 is `KD * e`. With the default gains
  every correction is `5 * e`: errors 2, 2, -1 give 10, 10, -5.
- `motorASpeed` and `motorBSpeed` start at 180 (line_following_robot.c:171)
  and are written only by a running tick (lines 192-193). Raising the minimum
  speed above 180 while stopped therefore leaves them below it. What always
  holds is that both lie in [95, 255]. A running tick also puts them in
  [minimum speed, 255].

## Model

| member | source | states |
|---|---|---|
| CIntegers.ToUint32 | line_following_robot.c:190 | conversion to `uint32_t`: the result is in [0, 2^32), congruent to the input modulo 2^32, and equal to it when it already fits |
| CIntegers.ToInt32 | line_following_robot.c:192-193 | passing a value to an `int32_t` parameter: the result is an int32, congruent modulo 2^32, and unchanged for int32 inputs |
| CIntegers.ToUint8 | line_following_robot.c:192-193 | storing into a `uint8_t` speed: the result is in [0, 256), congruent modulo 256, and unchanged when it fits |
| CIntegers.Increment32IsConversion | line_following_robot.c:119 | the wrapping increment of the button counter is C's `++` on a `uint32_t` |
| CIntegers.Int32ThroughUint32 | line_following_robot.c:190-193 | an int32 value survives the trip through `uint32_t` arithmetic and back to `int32_t` |
| Helpers.DecInRange | line_following_robot.c:67-70 | the result is never below `lower`; it is `x - step` when that stays at or above `lower`, and `lower` otherwise |
| Helpers.IncInRange | line_following_robot.c:72-75 | the result is never above `upper`; it is `x + step` when that stays at or below `upper`, and `upper` otherwise |
| Helpers.StepsStayInRange | line_following_robot.c:67-75 | a value inside [lower, upper] stays inside after one decrement or increment, moving only in its direction |
| Helpers.EnsureValue | line_following_robot.c:77-81 | `x` inside [lower, upper], the violated bound outside it; with an inverted range the upper bound wins |
| Helpers.EnsureValueIsNearest | line_following_robot.c:77-81 | over a proper range the result is the value of the range nearest to `x` |
| Helpers.NumTo3Char | line_following_robot.c:58-65 | three decimal digit characters whose value is `x mod 1000` |
| Helpers.LastThreeDigits | line_following_robot.c:61-63 | peeling digits off with `% 10` and `/= 10` three times yields the last three decimal digits |
| Helpers.NumTo3CharRoundTrip | line_following_robot.c:58-65 | below 1000, reading the three digits back gives `x` |
| Helpers.NumTo3CharOfValue | line_following_robot.c:58-65 | every three-digit string is the rendering of the number it denotes, so the rendering is onto |
| Helpers.NumTo3CharExamples | line_following_robot.c:58-65 | 5 renders as "005", 1234 as "234", 255 as "255" |
| Buttons.ButtonMasks | buttons.h:24-29 | the four buttons are the masks of pins 4 to 7, and ALL_BUTTONS is 0xF0 |
| Buttons.ButtonPins | buttons.h:23-29 | each button mask covers exactly its own pin, and ALL_BUTTONS covers exactly the NUM_BUTTONS button pins |
| Buttons.MaskPins | line_following_robot.c:121 | masking a sample keeps exactly the pins set in both operands |
| Buttons.MaskKeepsOnlyButtons | line_following_robot.c:121 | `sample & ALL_BUTTONS` keeps exactly the button pins that are set in the sample |
| Buttons.PressedIffPinSetInBoth | buttons.h:35-36 | BUTTON_PRESSED of a single-pin button holds iff its pin is set both in `changed` and in `buttons` |
| Buttons.ReleasedIffPinChangedAndClear | buttons.h:38-39 | BUTTON_RELEASED holds iff the pin is set in `changed` and clear in `buttons` |
| Buttons.PressedReleasedExclusive | buttons.h:35-39 | no button is pressed and released at once, and neither happens when its bit did not change |
| SensorFusion.NoActiveIffLowBitsClear | line_following_robot.c:183-187 | no sensor among the low `n` counts as active iff those bits of the sample are clear |
| SensorFusion.NoActiveIffZero | line_following_robot.c:182-189 | the count of active sensors is zero exactly for the all-zero sample, the one sample on which `sum/cnt` divides by zero |
| SensorFusion.IndexSumBound | line_following_robot.c:183-187 | at most `n` sensors are active and their index sum is at most 7 per active sensor |
| SensorFusion.LineError | line_following_robot.c:182-189 | the line error of a non-zero sample lies in [-3, 4] |
| SensorFusion.ScanSensors | line_following_robot.c:182-187 | the 8-bit loop computes the true index sum and active count, and neither 8-bit counter wraps |
| SensorFusion.LineErrorCentred | line_following_robot.c:189 | a line under sensors 3 and 4, or under sensor 3 alone, gives error 0 |
| SensorFusion.LineErrorLowEdge | line_following_robot.c:189 | a line under sensor 0 alone gives error -3 |
| SensorFusion.LineErrorHighEdge | line_following_robot.c:189 | a line under sensor 7 alone gives error 4 |
| Pid.PidStep | line_following_robot.c:86-95 | P becomes KP*e, the integral grows by exactly KI*e, and D is KD*e because the previous error stays 0 |
| Pid.PidRunIntegral | line_following_robot.c:89 | windup: after any error sequence the integral is its start plus KI times the sum of the errors |
| Pid.OutputsClosedForm | line_following_robot.c:86-95 | the k-th correction is (KP+KD)*e_k plus the starting integral plus KI times the sum of e_0..e_k |
| Pid.DefaultGainsCorrection | line_following_robot.c:86-95 | with the default gains 4, 0, 1 every correction is 5 times the current error |
| Mixer.Mix | line_following_robot.c:190-193 | both speeds are 8-bit values, and they lie in [minimum speed, 255] for a minimum speed within [0, 255] |
| Mixer.SubtractionDoesNotWrap | line_following_robot.c:190-192 | `offset - add` in `uint32_t`, read back as `int32_t`, is `offset - correction` for any correction that leaves room for the offset |
| Mixer.AdditionDoesNotWrap | line_following_robot.c:190-193 | the same for `offset + add` |
| Mixer.MixIsClampedDifferential | line_following_robot.c:190-193 | the offset is the midpoint (minimum + 255) / 2; motor A gets the clamped midpoint minus the correction, motor B the clamped midpoint plus it |
| Mixer.MixSteers | line_following_robot.c:190-193 | a positive correction puts motor A at or below the midpoint and motor B at or above it, a negative one the reverse, and zero gives the midpoint to both |
| Mixer.MixExamples | line_following_robot.c:190-193 | with minimum speed 105, correction 30 gives (150, 210), and 200 clamps to (105, 255) |
| Controller.InitialSatisfiesInv | line_following_robot.c:46-52 | the initial values of the globals satisfy the invariant |
| Controller.TickKeepsInv | line_following_robot.c:174-197 | a control tick keeps the invariant |
| Controller.DriveKeepsInv | line_following_robot.c:190-195 | storing the mixed speeds and sending them to both drivers keeps the invariant |
| Controller.ButtonsKeepsInv | line_following_robot.c:115-158 | a button pass keeps the invariant |
| Controller.DispatchKeepsInv | line_following_robot.c:121-155 | every case of the button switch keeps the invariant |
| Controller.DecrementKeepsInv | line_following_robot.c:129-138 | DEC clamps the value it lowers: gains stay in [0, 255] and the minimum speed stays in [95, 255] |
| Controller.IncrementKeepsInv | line_following_robot.c:139-148 | INC clamps the value it raises into the same ranges |
| Controller.TickLeavesTuning | line_following_robot.c:174-197 | a tick stores the sample and writes no tuning value and no button bookkeeping; it can only clear the run flag, and only on 0xFF |
| Controller.SafetyCutout | line_following_robot.c:176 | the all-sensors sample stops both drivers and changes nothing but the stored sample |
| Controller.StoppedTickOnlySamples | line_following_robot.c:174-177 | while stopped a tick only records the sample |
| Controller.RunningTick | line_following_robot.c:177-196 | a running tick sets the line error in [-3, 4], runs one PID step and sends both drivers speeds within [minimum speed, 255]; without wrap-around those are the clamped midpoint minus and plus the correction |
| Controller.ButtonsLeaveControl | line_following_robot.c:115-158 | a button pass writes none of the tick's values |
| Controller.ButtonsBookkeeping | line_following_robot.c:119-157 | the sample is remembered whole; the counter advances on CONFIG, DEC or INC alone and is cleared otherwise |
| Controller.RunToggle | line_following_robot.c:149-152 | the run flag flips exactly when RUN alone is pressed and the sample differs from the previous one, and the drivers follow it |
| Controller.NoEditsWhileRunning | line_following_robot.c:123-147 | while running no button changes the selection, a gain or the minimum speed |
| Controller.SensorViewEditsNothing | line_following_robot.c:131-146 | with the sensor view selected, DEC and INC change no tuning value |
| Controller.EditsOnlyOnCadence | line_following_robot.c:121-148 | the selection changes only on a CONFIG pass whose counter is 1 mod 10, a tuning value only on a DEC or INC pass whose counter is 1 mod 5, and only while stopped |
| Controller.HoldCounts | line_following_robot.c:119-148 | holding CONFIG, DEC or INC from a cleared counter counts the passes and keeps the run flag (and, for DEC and INC, the selection) |
| Controller.RepeatPass | line_following_robot.c:119-148 | one CONFIG, DEC or INC pass advances the counter and keeps the run flag |
| Controller.HoldIncrementGain | line_following_robot.c:139-145 | holding INC on P for `n` passes raises KP by ceil(n/5) steps, never beyond 255 |
| Controller.HoldGainPass | line_following_robot.c:140-142 | pass `n` of that hold steps KP up exactly when `n` is 1 mod 5 |
| Controller.IncPassGain | line_following_robot.c:140-142 | one INC pass on P steps KP up exactly when the new counter is 1 mod 5 |
| Controller.HoldDecrementMinSpeed | line_following_robot.c:129-135 | holding DEC on the speed for `n` passes lowers it by 5 per firing pass, ceil(n/5) of them, never below 95 |
| Controller.HoldSpeedPass | line_following_robot.c:130-135 | pass `n` of that hold steps the speed down exactly when `n` is 1 mod 5 |
| Controller.DecPassSpeed | line_following_robot.c:130-135 | one DEC pass on the speed steps it down exactly when the new counter is 1 mod 5 |
| Controller.DecPassEdits | line_following_robot.c:129-138 | one DEC pass, whatever is selected: the selected value steps down exactly when stopped with a new counter of 1 mod 5, and no tuning value changes otherwise; selection and run flag stay |
| Controller.IncPassEdits | line_following_robot.c:139-148 | one INC pass, whatever is selected: the selected value steps up exactly when stopped with a new counter of 1 mod 5, and no tuning value changes otherwise; selection and run flag stay |
| Controller.HoldSelectCycles | line_following_robot.c:122-127 | holding CONFIG for `n` passes advances the selection ceil(n/10) times, cyclically through the five settings |
| Controller.SelectPass | line_following_robot.c:122-127 | one CONFIG pass advances the selection exactly when the new counter is 1 mod 10 while stopped |
| Controller.HoldRunTogglesOnce | line_following_robot.c:149-154 | holding RUN for any number of passes flips the run flag once and keeps the counter cleared |
| Controller.HoldOtherKeepsRunning | line_following_robot.c:121-155 | a held sample that is not RUN alone never changes the run flag |
| Controller.PressAndRelease | line_following_robot.c:149-157 | a RUN press held and then released flips the run flag exactly once and arms the next press as a new edge |
| Controller.RunKeepsInv | line_following_robot.c:115-197 | the invariant holds after any interleaving of ticks and button passes that does not divide by zero |
| Robot.LineFollower.constructor | line_following_robot.c:46-52 | the fields start at the firmware's initial values, which satisfy the invariant |
| Robot.LineFollower.ToggleMotors | line_following_robot.c:97-107 | the run flag becomes `run` and both drivers are enabled or stopped to match; nothing else changes, and the invariant is kept |
| Robot.LineFollower.ComputePid | line_following_robot.c:86-95 | P and D are overwritten, I accumulates, the returned correction is their sum; nothing else changes, and the invariant is kept |
| Robot.LineFollower.SysTickHandler | line_following_robot.c:174-197 | the new fields are exactly `TickStep` of the old ones, and the invariant is kept |
| Robot.LineFollower.ReadError | line_following_robot.c:182-189 | the sensor loop followed by the division yields the line error |
| Robot.LineFollower.SteerMotors | line_following_robot.c:177-196 | the running branch of the tick produces exactly `Steer` of the old state, and the invariant is kept |
| Robot.LineFollower.SetSpeeds | line_following_robot.c:190-195 | the mixed speeds are stored and sent to both drivers; nothing else changes, and the invariant is kept |
| Robot.LineFollower.DecrementSelected | line_following_robot.c:131-136 | the DEC edit of the selected setting, as `Decrement` describes, keeping the invariant |
| Robot.LineFollower.IncrementSelected | line_following_robot.c:141-146 | the INC edit of the selected setting, as `Increment` describes, keeping the invariant |
| Robot.LineFollower.ButtonsHandler | line_following_robot.c:115-158 | the new fields are exactly `ButtonsStep` of the old ones, and the invariant is kept |
| Robot.LineFollower.Dispatch | line_following_robot.c:121-155 | the switch on the masked sample, with RUN falling through into the counter reset, as `ButtonsDispatch` describes, keeping the invariant |

## Left out

- The start-up code, the LCD handler, the other main loops and all
  peripheral setup: `main`, `lcdHandler`, `systickInit`, and the
  initialisation and direction functions of the motor, sensor and button
  drivers. They configure hardware or write to the display; the control
  state does not depend on them.
- The driver calls themselves. `sensorsRead` and `buttonsPoll` become the
  handlers' sample parameters. `motorsASetState`, `motorsBSetState`,
  `motorsASetSpeed` and `motorsBSetSpeed` are recorded in the ghost `Driver`
  fields as the last state and speed each driver was given. motors.c is not
  part of this model beyond that.
- Interrupt preemption. The model treats each handler call as atomic and
  reasons about any order of calls (`Controller.Run`). A tick that preempts
  a button pass halfway through `toggleMotors` is not modelled.
- `i32ErrSum`: it is declared and never used.
- Robot.LineFollower.SysTickHandler: requires that the robot is stopped
  whenever the sample is all zero. On that sample while running, the
  firmware divides by zero, which C leaves undefined. `Controller.Run`
  returns no state in that case.
- Robot.LineFollower.ComputePid: the P, I and D parts are unbounded integers.
  The firmware's `int32_t` arithmetic overflows, which is undefined behaviour
  in C, once the integral winds up past 2^31. The int32 range of the sum is
  only assumed where the mixing relies on it (`Mixer.PID_NO_WRAP`); beyond
  it, the mixing wraps as the hardware does.
- Helpers.NumTo3Char: requires `x >= 0`. Every caller in the core passes a
  speed or a gain. For negative `x`, C's truncating `%` produces characters
  below `'0'`; this is not modelled.
- Helpers.NumTo3Char: models the returned three characters, not the shared
  heap buffer. The firmware allocates 3 bytes for it and also writes the
  terminator at index 3, one byte past the allocation.
- The minimum speed and the gains are `uint32_t` and `int32_t` variables
  passed to `int32_t` parameters. The model keeps them as integers, which
  agrees with C as long as they stay within [0, 255], as the invariant
  guarantees.
