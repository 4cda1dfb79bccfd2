/**
 * The controller's global state as one value, and what each of the two
 * execution contexts does to it: the periodic control tick (safety cutout,
 * sensor fusion, PID, motor mixing) and one pass of the button handler
 * (parameter selection and editing with hold-repeat, run/stop toggle).
 * Each handler call is one atomic step on this state.
 */
module Controller {
  import opened CIntegers
  import opened Helpers
  import opened Buttons
  import opened Motors
  import opened SensorFusion
  import opened Pid
  import opened Mixer

  // The parameter the operator has selected, as numbered by the firmware.
  const CONFIG_P: int := 0
  const CONFIG_I: int := 1
  const CONFIG_D: int := 2
  const CONFIG_SPEED: int := 3
  const CONFIG_SEN: int := 4
  const NUM_CONFIG: int := 5

  // Hold-repeat dividers of the button pass counter.
  const BUTTON_POLL_DIVIDER_5: int := 5
  const BUTTON_POLL_DIVIDER_10: int := 10

  // Bounds and steps of the tuning edits.
  const GAIN_MIN: int := 0
  const GAIN_MAX: int := 255
  const GAIN_STEP: int := 1
  const MIN_SPEED_FLOOR: int := 95
  const MIN_SPEED_STEP: int := 5

  /** The sensor sample that stops the motors whatever the run flag says. */
  const ALL_SENSORS_SET: bv8 := 0xFF

  /** The globals of the firmware that the two handlers read and write. */
  datatype Globals = Globals(
    running: bool,     // bRunning
    config: int,       // ui8Config
    gains: Gains,      // i32KP, i32KI, i32KD
    minSpeed: int,     // ui32MotorMinSpeed
    pid: PidState,     // i32PPart, i32IPart, i32DPart, i32LastErr
    counter: Uint32,   // ui32ButtonsCounter
    lastButtons: bv8,  // ui8LastButtons
    sensors: bv8,      // sensorsData
    error: int,        // error
    speedA: int,       // motorASpeed
    speedB: int,       // motorBSpeed
    motorA: Driver,    // what motor driver A was last told
    motorB: Driver)    // what motor driver B was last told

  /** The static initial values, with both motor drivers freshly initialised. */
  const INITIAL: Globals :=
    Globals(false, CONFIG_P, Gains(4, 0, 1), 105, INITIAL_PID, 0, 0, 0, 0, 180, 180,
            INITIAL_DRIVER, INITIAL_DRIVER)

  predicate InGainRange(v: int) {
    GAIN_MIN <= v <= GAIN_MAX
  }

  predicate InSpeedRange(v: int) {
    MIN_SPEED_FLOOR <= v <= MOTOR_MAX_SPEED
  }

  /**
   * What holds between any two handler calls: the selection and the tuning
   * values within their bounds, the previous error still zero, the stored
   * speeds within [95, 255], the motor drivers enabled exactly while the run
   * flag is set, and each driver's speed either the initial 0 or the stored
   * speed.
   */
  predicate Inv(c: Globals) {
    && 0 <= c.config < NUM_CONFIG
    && InGainRange(c.gains.kp) && InGainRange(c.gains.ki) && InGainRange(c.gains.kd)
    && InSpeedRange(c.minSpeed)
    && c.pid.lastErr == 0
    && InSpeedRange(c.speedA) && InSpeedRange(c.speedB)
    && c.motorA.enabled == c.running && c.motorB.enabled == c.running
    && (c.motorA.speed == 0 || c.motorA.speed == c.speedA)
    && (c.motorB.speed == 0 || c.motorB.speed == c.speedB)
  }

  function Min(a: int, b: int): int {
    if a <= b then a else b
  }

  function Max(a: int, b: int): int {
    if a >= b then a else b
  }

  // ---------------------------------------------------------------- toggleMotors

  /** toggleMotors: set the run flag and send RUN or STOP to both drivers. */
  function SetRunning(c: Globals, run: bool): Globals {
    var state := if run then MOTOR_RUN else MOTOR_STOP;
    c.(running := run, motorA := c.motorA.(enabled := state), motorB := c.motorB.(enabled := state))
  }

  // ------------------------------------------------------------ the control tick

  /** The tick divides by the number of active sensors, which is zero for the all-zero sample. */
  predicate TickDefined(c: Globals, s: bv8) {
    s == 0 ==> !c.running
  }

  /** SysTickIntHandler with sensor sample `s`. */
  function TickStep(c: Globals, s: bv8): Globals
    requires TickDefined(c, s)
  {
    var c1 := c.(sensors := s);
    var c2 := if s == ALL_SENSORS_SET then SetRunning(c1, false) else c1;
    if !c2.running then c2 else Steer(c2, s)
  }

  /** The running part of the tick: line error, PID correction, differential speeds. */
  function Steer(c: Globals, s: bv8): Globals
    requires s != 0
  {
    var e := LineError(s);
    var pid := PidUpdate(c.gains, c.pid, e);
    var speeds := Mix(Output(pid), c.minSpeed);
    c.(error := e, pid := pid, speedA := speeds.0, speedB := speeds.1,
       motorA := c.motorA.(speed := speeds.0), motorB := c.motorB.(speed := speeds.1))
  }

  // -------------------------------------------------------- the button handler

  /** DEC on the selected parameter; nothing when the sensor view is selected. */
  function Decrement(c: Globals): Globals {
    if c.config == CONFIG_P then c.(gains := c.gains.(kp := DecInRange(c.gains.kp, GAIN_MIN, GAIN_STEP)))
    else if c.config == CONFIG_I then c.(gains := c.gains.(ki := DecInRange(c.gains.ki, GAIN_MIN, GAIN_STEP)))
    else if c.config == CONFIG_D then c.(gains := c.gains.(kd := DecInRange(c.gains.kd, GAIN_MIN, GAIN_STEP)))
    else if c.config == CONFIG_SPEED then c.(minSpeed := DecInRange(c.minSpeed, MIN_SPEED_FLOOR, MIN_SPEED_STEP))
    else c
  }

  /** INC on the selected parameter; nothing when the sensor view is selected. */
  function Increment(c: Globals): Globals {
    if c.config == CONFIG_P then c.(gains := c.gains.(kp := IncInRange(c.gains.kp, GAIN_MAX, GAIN_STEP)))
    else if c.config == CONFIG_I then c.(gains := c.gains.(ki := IncInRange(c.gains.ki, GAIN_MAX, GAIN_STEP)))
    else if c.config == CONFIG_D then c.(gains := c.gains.(kd := IncInRange(c.gains.kd, GAIN_MAX, GAIN_STEP)))
    else if c.config == CONFIG_SPEED then c.(minSpeed := IncInRange(c.minSpeed, MOTOR_MAX_SPEED, MIN_SPEED_STEP))
    else c
  }

  /** The buttons of a sample, with every non-button bit cleared. */
  function ButtonBits(sample: bv8): bv8 {
    sample & ALL_BUTTONS
  }

  /** Samples that press exactly one of the three buttons that use the hold-repeat counter. */
  predicate IsRepeatButton(sample: bv8) {
    ButtonBits(sample) == CONFIG_BUTTON || ButtonBits(sample) == DEC_BUTTON || ButtonBits(sample) == INC_BUTTON
  }

  /** The CONFIG_BUTTON case, on a state whose counter is already incremented. */
  function ConfigPass(c: Globals): Globals {
    if c.counter % BUTTON_POLL_DIVIDER_10 == 1 && !c.running then c.(config := (c.config + 1) % NUM_CONFIG)
    else c
  }

  /** The DEC_BUTTON case, on a state whose counter is already incremented. */
  function DecPass(c: Globals): Globals {
    if !c.running && c.counter % BUTTON_POLL_DIVIDER_5 == 1 then Decrement(c) else c
  }

  /** The INC_BUTTON case, on a state whose counter is already incremented. */
  function IncPass(c: Globals): Globals {
    if !c.running && c.counter % BUTTON_POLL_DIVIDER_5 == 1 then Increment(c) else c
  }

  /**
   * The RUN_BUTTON case, which falls through into the default case: RUN toggles
   * the motors on a new sample, and the counter is cleared either way.
   */
  function OtherPass(c: Globals, sample: bv8): Globals {
    (if ButtonBits(sample) == RUN_BUTTON && c.lastButtons != sample then SetRunning(c, !c.running) else c)
      .(counter := 0)
  }

  /** buttonsHandler with button sample `sample` (a set bit is a pressed button). */
  function ButtonsStep(c: Globals, sample: bv8): Globals {
    ButtonsDispatch(c.(counter := Increment32(c.counter)), sample).(lastButtons := sample)
  }

  /** The switch on the pressed buttons, on a state whose counter is already incremented. */
  function ButtonsDispatch(c: Globals, sample: bv8): Globals {
    var pressed := ButtonBits(sample);
    if pressed == CONFIG_BUTTON then ConfigPass(c)
    else if pressed == DEC_BUTTON then DecPass(c)
    else if pressed == INC_BUTTON then IncPass(c)
    else OtherPass(c, sample)
  }

  // ------------------------------------------------------------------ invariant

  lemma InitialSatisfiesInv()
    ensures Inv(INITIAL)
  {
  }

  /** A control tick keeps the invariant. */
  lemma TickKeepsInv(c: Globals, s: bv8)
    requires Inv(c) && TickDefined(c, s)
    ensures Inv(TickStep(c, s))
  {
  }

  /** Sending mixed speeds to both drivers keeps the invariant: they lie in [minimum speed, 255]. */
  lemma DriveKeepsInv(c: Globals, add: int)
    requires Inv(c)
    ensures var speeds := Mix(add, c.minSpeed);
      Inv(c.(speedA := speeds.0, speedB := speeds.1,
             motorA := c.motorA.(speed := speeds.0), motorB := c.motorB.(speed := speeds.1)))
  {
  }

  /** A button pass keeps the invariant: every edit is clamped where it is made. */
  lemma ButtonsKeepsInv(c: Globals, sample: bv8)
    requires Inv(c)
    ensures Inv(ButtonsStep(c, sample))
  {
    DispatchKeepsInv(c.(counter := Increment32(c.counter)), sample);
  }

  lemma DispatchKeepsInv(c: Globals, sample: bv8)
    requires Inv(c)
    ensures Inv(ButtonsDispatch(c, sample))
  {
    var pressed := ButtonBits(sample);
    if pressed == DEC_BUTTON {
      DecrementKeepsInv(c);
      assert ButtonsDispatch(c, sample) == DecPass(c);
    } else if pressed == INC_BUTTON {
      IncrementKeepsInv(c);
      assert ButtonsDispatch(c, sample) == IncPass(c);
    }
  }

  /** DEC clamps the parameter it lowers, so it keeps the invariant. */
  lemma DecrementKeepsInv(c: Globals)
    requires Inv(c)
    ensures Inv(Decrement(c))
  {
    if c.config == CONFIG_P {
      assert InGainRange(DecInRange(c.gains.kp, GAIN_MIN, GAIN_STEP));
    } else if c.config == CONFIG_I {
      assert InGainRange(DecInRange(c.gains.ki, GAIN_MIN, GAIN_STEP));
    } else if c.config == CONFIG_D {
      assert InGainRange(DecInRange(c.gains.kd, GAIN_MIN, GAIN_STEP));
    } else if c.config == CONFIG_SPEED {
      assert InSpeedRange(DecInRange(c.minSpeed, MIN_SPEED_FLOOR, MIN_SPEED_STEP));
    }
  }

  /** INC clamps the parameter it raises, so it keeps the invariant. */
  lemma IncrementKeepsInv(c: Globals)
    requires Inv(c)
    ensures Inv(Increment(c))
  {
    if c.config == CONFIG_P {
      assert InGainRange(IncInRange(c.gains.kp, GAIN_MAX, GAIN_STEP));
    } else if c.config == CONFIG_I {
      assert InGainRange(IncInRange(c.gains.ki, GAIN_MAX, GAIN_STEP));
    } else if c.config == CONFIG_D {
      assert InGainRange(IncInRange(c.gains.kd, GAIN_MAX, GAIN_STEP));
    } else if c.config == CONFIG_SPEED {
      assert InSpeedRange(IncInRange(c.minSpeed, MOTOR_MAX_SPEED, MIN_SPEED_STEP));
    }
  }

  // ------------------------------------------------------ properties of a tick

  /**
   * The tick writes none of the tuning values and none of the button
   * handler's bookkeeping; the only shared value it writes is the run flag,
   * which it can only clear, and only on the all-sensors sample.
   */
  lemma TickLeavesTuning(c: Globals, s: bv8)
    requires TickDefined(c, s)
    ensures var r := TickStep(c, s);
      && r.sensors == s
      && r.running == (c.running && s != ALL_SENSORS_SET)
      && r.config == c.config && r.gains == c.gains && r.minSpeed == c.minSpeed
      && r.counter == c.counter && r.lastButtons == c.lastButtons
  {
  }

  /**
   * Safety cutout: the all-sensors sample clears the run flag and sends STOP
   * to both drivers, and nothing else changes but the stored sample: no
   * error, PID part or speed is computed on that tick.
   */
  lemma SafetyCutout(c: Globals)
    ensures TickDefined(c, ALL_SENSORS_SET)
    ensures TickStep(c, ALL_SENSORS_SET) == SetRunning(c, false).(sensors := ALL_SENSORS_SET)
    ensures !TickStep(c, ALL_SENSORS_SET).running
    ensures !TickStep(c, ALL_SENSORS_SET).motorA.enabled && !TickStep(c, ALL_SENSORS_SET).motorB.enabled
  {
  }

  /** While stopped, a tick only records the sample: error, PID state and speeds stay as they were. */
  lemma StoppedTickOnlySamples(c: Globals, s: bv8)
    requires Inv(c) && !c.running
    ensures TickDefined(c, s)
    ensures TickStep(c, s) == c.(sensors := s)
  {
  }

  /**
   * A running tick on a sample with at least one active sensor (and not all
   * eight) computes the line error, runs one PID step and sends both motors
   * their mixed speeds, which lie in [minimum speed, 255]. When the
   * correction is within int32 range, motor A gets the midpoint minus the
   * correction and motor B the midpoint plus it, clamped.
   */
  lemma RunningTick(c: Globals, s: bv8)
    requires Inv(c) && c.running
    requires s != 0 && s != ALL_SENSORS_SET
    ensures TickDefined(c, s)
    ensures var r := TickStep(c, s);
      var e := LineError(s);
      var out := Output(r.pid);
      && r.running
      && r.error == e && -CENTER <= e <= 7 - CENTER
      && r.pid.p == c.gains.kp * e
      && r.pid.i == c.pid.i + c.gains.ki * e
      && r.pid.d == c.gains.kd * e
      && c.minSpeed <= r.speedA <= MOTOR_MAX_SPEED && c.minSpeed <= r.speedB <= MOTOR_MAX_SPEED
      && r.motorA == Driver(MOTOR_RUN, r.speedA) && r.motorB == Driver(MOTOR_RUN, r.speedB)
      && (-PID_NO_WRAP <= out <= PID_NO_WRAP ==>
            && r.speedA == EnsureValue(Offset(c.minSpeed) - out, c.minSpeed, MOTOR_MAX_SPEED)
            && r.speedB == EnsureValue(Offset(c.minSpeed) + out, c.minSpeed, MOTOR_MAX_SPEED))
  {
    var r := TickStep(c, s);
    var out := Output(r.pid);
    if -PID_NO_WRAP <= out <= PID_NO_WRAP {
      MixIsClampedDifferential(out, c.minSpeed);
    }
  }

  // ----------------------------------------------- properties of a button pass

  /**
   * A button pass writes none of the tick's values: sample, error, PID
   * state, stored speeds and the speeds sent to the drivers stay as they were.
   */
  lemma ButtonsLeaveControl(c: Globals, sample: bv8)
    ensures var r := ButtonsStep(c, sample);
      && r.sensors == c.sensors && r.error == c.error && r.pid == c.pid
      && r.speedA == c.speedA && r.speedB == c.speedB
      && r.motorA.speed == c.motorA.speed && r.motorB.speed == c.motorB.speed
  {
  }

  /**
   * Bookkeeping of every pass: the sample is remembered whole, and the
   * counter advances (modulo 2^32) when exactly one of CONFIG, DEC, INC is
   * pressed and is cleared otherwise, including after any RUN pass.
   */
  lemma ButtonsBookkeeping(c: Globals, sample: bv8)
    ensures ButtonsStep(c, sample).lastButtons == sample
    ensures IsRepeatButton(sample) ==> ButtonsStep(c, sample).counter == Increment32(c.counter)
    ensures !IsRepeatButton(sample) ==> ButtonsStep(c, sample).counter == 0
  {
  }

  /**
   * The run flag flips exactly when RUN alone is pressed and the whole
   * sample differs from the previous pass's sample; the drivers follow it.
   */
  lemma RunToggle(c: Globals, sample: bv8)
    requires Inv(c)
    ensures var r := ButtonsStep(c, sample);
      && r.running == (if ButtonBits(sample) == RUN_BUTTON && c.lastButtons != sample then !c.running else c.running)
      && r.motorA.enabled == r.running && r.motorB.enabled == r.running
  {
  }

  /** While running, no button changes the selection, a gain or the minimum speed. */
  lemma NoEditsWhileRunning(c: Globals, sample: bv8)
    requires c.running
    ensures var r := ButtonsStep(c, sample);
      r.config == c.config && r.gains == c.gains && r.minSpeed == c.minSpeed
  {
  }

  /** With the sensor view selected, DEC and INC change no tuning value. */
  lemma SensorViewEditsNothing(c: Globals, sample: bv8)
    requires c.config == CONFIG_SEN
    ensures var r := ButtonsStep(c, sample);
      r.gains == c.gains && r.minSpeed == c.minSpeed
  {
  }

  /**
   * Edits happen only on the cadence of the counter: the selection moves only
   * on a CONFIG pass whose counter is 1 mod 10, a tuning value only on a DEC
   * or INC pass whose counter is 1 mod 5, and only while stopped.
   */
  lemma EditsOnlyOnCadence(c: Globals, sample: bv8)
    ensures var r := ButtonsStep(c, sample);
      && (r.config != c.config ==>
            ButtonBits(sample) == CONFIG_BUTTON && r.counter % BUTTON_POLL_DIVIDER_10 == 1 && !c.running)
      && (r.gains != c.gains || r.minSpeed != c.minSpeed ==>
            (ButtonBits(sample) == DEC_BUTTON || ButtonBits(sample) == INC_BUTTON)
            && r.counter % BUTTON_POLL_DIVIDER_5 == 1 && !c.running)
  {
  }

  // -------------------------------------------------------- holding a button

  /** The state after `n` consecutive passes that all read `sample`. */
  function Hold(c: Globals, sample: bv8, n: nat): Globals
    decreases n
  {
    if n == 0 then c else ButtonsStep(Hold(c, sample, n - 1), sample)
  }

  /**
   * Holding one of CONFIG, DEC or INC from a cleared counter counts the
   * passes, and touches neither the run flag nor (for DEC and INC) the
   * selection.
   */
  lemma {:induction false} HoldCounts(c: Globals, sample: bv8, n: nat)
    requires IsRepeatButton(sample)
    requires c.counter == 0 && n < TWO_32
    ensures Hold(c, sample, n).counter == n
    ensures Hold(c, sample, n).running == c.running
    ensures ButtonBits(sample) != CONFIG_BUTTON ==> Hold(c, sample, n).config == c.config
    decreases n
  {
    if n > 0 {
      HoldCounts(c, sample, n - 1);
      RepeatPass(Hold(c, sample, n - 1), sample);
    }
  }

  /** One pass of CONFIG, DEC or INC counts, and leaves the run flag (and, for DEC and INC, the selection) alone. */
  lemma RepeatPass(c: Globals, sample: bv8)
    requires IsRepeatButton(sample)
    ensures ButtonsStep(c, sample).counter == Increment32(c.counter)
    ensures ButtonsStep(c, sample).running == c.running
    ensures ButtonBits(sample) != CONFIG_BUTTON ==> ButtonsStep(c, sample).config == c.config
  {
  }

  /**
   * Hold-repeat of INC on the proportional gain: the first pass fires and
   * then every 5th, so `n` passes raise the gain by ceil(n / 5) steps,
   * never beyond 255.
   */
  lemma {:induction false} HoldIncrementGain(c: Globals, sample: bv8, n: nat)
    requires ButtonBits(sample) == INC_BUTTON
    requires !c.running && c.config == CONFIG_P && c.counter == 0
    requires c.gains.kp <= GAIN_MAX && n < TWO_32
    ensures Hold(c, sample, n).gains.kp == Min(GAIN_MAX, c.gains.kp + (n + 4) / 5)
    decreases n
  {
    if n > 0 {
      HoldIncrementGain(c, sample, n - 1);
      HoldGainPass(c, sample, n);
      GainArith(c.gains.kp, n, Hold(c, sample, n - 1).gains.kp, Hold(c, sample, n).gains.kp);
    }
  }

  /** Pass `n` of an INC hold from a cleared counter steps the gain up exactly when `n` is 1 mod 5. */
  lemma HoldGainPass(c: Globals, sample: bv8, n: nat)
    requires ButtonBits(sample) == INC_BUTTON
    requires !c.running && c.config == CONFIG_P && c.counter == 0
    requires 0 < n < TWO_32
    ensures var k := Hold(c, sample, n - 1).gains.kp;
      Hold(c, sample, n).gains.kp ==
        if n % BUTTON_POLL_DIVIDER_5 == 1 then IncInRange(k, GAIN_MAX, GAIN_STEP) else k
  {
    HoldCounts(c, sample, n - 1);
    var before := Hold(c, sample, n - 1);
    assert Increment32(before.counter) == n;
    IncPassGain(before, sample);
  }

  /** One INC pass while stopped with P selected: the gain steps up when the new counter is 1 mod 5. */
  lemma IncPassGain(c: Globals, sample: bv8)
    requires ButtonBits(sample) == INC_BUTTON && !c.running && c.config == CONFIG_P
    ensures var count := Increment32(c.counter);
      ButtonsStep(c, sample).gains.kp ==
        if count % BUTTON_POLL_DIVIDER_5 == 1 then IncInRange(c.gains.kp, GAIN_MAX, GAIN_STEP) else c.gains.kp
  {
  }

  /**
   * Hold-repeat of DEC on the minimum speed: `n` passes lower it by 5 for
   * each of the ceil(n / 5) firing passes, never below 95.
   */
  lemma {:induction false} HoldDecrementMinSpeed(c: Globals, sample: bv8, n: nat)
    requires ButtonBits(sample) == DEC_BUTTON
    requires !c.running && c.config == CONFIG_SPEED && c.counter == 0
    requires MIN_SPEED_FLOOR <= c.minSpeed && n < TWO_32
    ensures Hold(c, sample, n).minSpeed == Max(MIN_SPEED_FLOOR, c.minSpeed - MIN_SPEED_STEP * ((n + 4) / 5))
    decreases n
  {
    if n > 0 {
      HoldDecrementMinSpeed(c, sample, n - 1);
      HoldSpeedPass(c, sample, n);
      SpeedArith(c.minSpeed, n, Hold(c, sample, n - 1).minSpeed, Hold(c, sample, n).minSpeed);
    }
  }

  /** Pass `n` of a DEC hold from a cleared counter steps the speed down exactly when `n` is 1 mod 5. */
  lemma HoldSpeedPass(c: Globals, sample: bv8, n: nat)
    requires ButtonBits(sample) == DEC_BUTTON
    requires !c.running && c.config == CONFIG_SPEED && c.counter == 0
    requires 0 < n < TWO_32
    ensures var v := Hold(c, sample, n - 1).minSpeed;
      Hold(c, sample, n).minSpeed ==
        if n % BUTTON_POLL_DIVIDER_5 == 1 then DecInRange(v, MIN_SPEED_FLOOR, MIN_SPEED_STEP) else v
  {
    HoldCounts(c, sample, n - 1);
    var before := Hold(c, sample, n - 1);
    assert Increment32(before.counter) == n;
    DecPassSpeed(before, sample);
  }

  /** One DEC pass while stopped with the speed selected: it steps down when the new counter is 1 mod 5. */
  lemma DecPassSpeed(c: Globals, sample: bv8)
    requires ButtonBits(sample) == DEC_BUTTON && !c.running && c.config == CONFIG_SPEED
    ensures var count := Increment32(c.counter);
      ButtonsStep(c, sample).minSpeed ==
        if count % BUTTON_POLL_DIVIDER_5 == 1 then DecInRange(c.minSpeed, MIN_SPEED_FLOOR, MIN_SPEED_STEP)
        else c.minSpeed
  {
  }

  /**
   * One DEC pass, whatever is selected: the selected value steps down exactly
   * when the robot is stopped and the new counter is 1 mod 5; otherwise no
   * tuning value changes. The selection and the run flag stay as they were.
   */
  lemma DecPassEdits(c: Globals, sample: bv8)
    requires ButtonBits(sample) == DEC_BUTTON
    ensures var r := ButtonsStep(c, sample);
      var fires := !c.running && Increment32(c.counter) % BUTTON_POLL_DIVIDER_5 == 1;
      && (fires ==> r.gains == Decrement(c).gains && r.minSpeed == Decrement(c).minSpeed)
      && (!fires ==> r.gains == c.gains && r.minSpeed == c.minSpeed)
      && r.config == c.config && r.running == c.running
  {
  }

  /**
   * One INC pass, whatever is selected: the selected value steps up exactly
   * when the robot is stopped and the new counter is 1 mod 5; otherwise no
   * tuning value changes. The selection and the run flag stay as they were.
   */
  lemma IncPassEdits(c: Globals, sample: bv8)
    requires ButtonBits(sample) == INC_BUTTON
    ensures var r := ButtonsStep(c, sample);
      var fires := !c.running && Increment32(c.counter) % BUTTON_POLL_DIVIDER_5 == 1;
      && (fires ==> r.gains == Increment(c).gains && r.minSpeed == Increment(c).minSpeed)
      && (!fires ==> r.gains == c.gains && r.minSpeed == c.minSpeed)
      && r.config == c.config && r.running == c.running
  {
  }

  /**
   * Hold-repeat of CONFIG: the first pass fires and then every 10th, each
   * firing advancing the selection cyclically through the 5 parameters.
   */
  lemma {:induction false} HoldSelectCycles(c: Globals, sample: bv8, n: nat)
    requires ButtonBits(sample) == CONFIG_BUTTON
    requires !c.running && c.counter == 0 && 0 <= c.config < NUM_CONFIG && n < TWO_32
    ensures Hold(c, sample, n).config == (c.config + (n + 9) / 10) % NUM_CONFIG
    decreases n
  {
    if n > 0 {
      HoldSelectCycles(c, sample, n - 1);
      HoldCounts(c, sample, n - 1);
      var before := Hold(c, sample, n - 1);
      assert Increment32(before.counter) == n;
      SelectPass(before, sample);
      CycleArith(c.config, n, before.config, Hold(c, sample, n).config);
    }
  }

  /** The gain arithmetic of one INC pass of a hold. */
  lemma GainArith(k0: int, n: nat, before: int, after: int)
    requires n > 0 && k0 <= GAIN_MAX
    requires before == Min(GAIN_MAX, k0 + (n + 3) / 5)
    requires after == if n % BUTTON_POLL_DIVIDER_5 == 1 then IncInRange(before, GAIN_MAX, GAIN_STEP) else before
    ensures after == Min(GAIN_MAX, k0 + (n + 4) / 5)
  {
    FiringCount5(n);
  }

  /** The speed arithmetic of one DEC pass of a hold. */
  lemma SpeedArith(v0: int, n: nat, before: int, after: int)
    requires n > 0 && MIN_SPEED_FLOOR <= v0
    requires before == Max(MIN_SPEED_FLOOR, v0 - MIN_SPEED_STEP * ((n + 3) / 5))
    requires after == if n % BUTTON_POLL_DIVIDER_5 == 1 then DecInRange(before, MIN_SPEED_FLOOR, MIN_SPEED_STEP) else before
    ensures after == Max(MIN_SPEED_FLOOR, v0 - MIN_SPEED_STEP * ((n + 4) / 5))
  {
    FiringCount5(n);
  }

  /** The selection arithmetic of one CONFIG pass of a hold. */
  lemma CycleArith(c0: int, n: nat, before: int, after: int)
    requires n > 0
    requires before == (c0 + (n + 8) / 10) % NUM_CONFIG
    requires after == if n % BUTTON_POLL_DIVIDER_10 == 1 then (before + 1) % NUM_CONFIG else before
    ensures after == (c0 + (n + 9) / 10) % NUM_CONFIG
  {
    FiringCount10(n);
    if n % 10 == 1 {
      NextModulo(c0 + (n + 8) / 10);
    }
  }

  /** One CONFIG pass: the selection advances exactly when the new counter is 1 mod 10 while stopped. */
  lemma SelectPass(c: Globals, sample: bv8)
    requires ButtonBits(sample) == CONFIG_BUTTON
    ensures var count := Increment32(c.counter);
      ButtonsStep(c, sample).config ==
        if count % BUTTON_POLL_DIVIDER_10 == 1 && !c.running then (c.config + 1) % NUM_CONFIG else c.config
  {
  }

  /** Pass n of a hold fires a DEC or INC edit exactly when it raises ceil(n / 5). */
  lemma FiringCount5(n: nat)
    requires n > 0
    ensures (n + 4) / 5 == (n + 3) / 5 + (if n % 5 == 1 then 1 else 0)
  {
  }

  /** Pass n of a hold fires a CONFIG step exactly when it raises ceil(n / 10). */
  lemma FiringCount10(n: nat)
    requires n > 0
    ensures (n + 9) / 10 == (n + 8) / 10 + (if n % 10 == 1 then 1 else 0)
  {
  }

  lemma NextModulo(v: int)
    ensures (v % NUM_CONFIG + 1) % NUM_CONFIG == (v + 1) % NUM_CONFIG
  {
  }

  /** Holding RUN over any number of passes flips the run flag once. */
  lemma {:induction false} HoldRunTogglesOnce(c: Globals, sample: bv8, n: nat)
    requires ButtonBits(sample) == RUN_BUTTON
    requires c.lastButtons != sample && n >= 1
    ensures Hold(c, sample, n).running == !c.running
    ensures Hold(c, sample, n).lastButtons == sample
    ensures Hold(c, sample, n).counter == 0
    decreases n
  {
    if n > 1 {
      HoldRunTogglesOnce(c, sample, n - 1);
    }
  }

  /** A held sample that does not press RUN alone never changes the run flag. */
  lemma {:induction false} HoldOtherKeepsRunning(c: Globals, sample: bv8, n: nat)
    requires ButtonBits(sample) != RUN_BUTTON
    ensures Hold(c, sample, n).running == c.running
    decreases n
  {
    if n > 0 {
      HoldOtherKeepsRunning(c, sample, n - 1);
    }
  }

  /**
   * One press of RUN held for `n` passes and then released for `m` passes
   * flips the run flag exactly once, and leaves the handler ready to see the
   * next press as a new edge.
   */
  lemma PressAndRelease(c: Globals, press: bv8, release: bv8, n: nat, m: nat)
    requires ButtonBits(press) == RUN_BUTTON && ButtonBits(release) == 0
    requires c.lastButtons != press && n >= 1 && m >= 1
    ensures Hold(Hold(c, press, n), release, m).running == !c.running
    ensures Hold(Hold(c, press, n), release, m).lastButtons != press
  {
    HoldRunTogglesOnce(c, press, n);
    HoldOtherKeepsRunning(Hold(c, press, n), release, m);
    assert Hold(Hold(c, press, n), release, m).lastButtons == release;
  }

  // ------------------------------------------------------ any interleaving

  /** One atomic handler call: a control tick or a button pass. */
  datatype Event = SysTick(sensorSample: bv8) | ButtonsPass(buttonSample: bv8)

  datatype Option<T> = None | Some(value: T)

  /**
   * The state after the handler calls of `events` in order, or None when a
   * running tick meets the all-zero sample (the firmware divides by zero).
   */
  function Run(c: Globals, events: seq<Event>): Option<Globals>
    decreases |events|
  {
    if events == [] then Some(c)
    else
      match events[0]
      case SysTick(s) => if TickDefined(c, s) then Run(TickStep(c, s), events[1..]) else None
      case ButtonsPass(b) => Run(ButtonsStep(c, b), events[1..])
  }

  /** The invariant holds after any interleaving of ticks and button passes. */
  lemma {:induction false} RunKeepsInv(c: Globals, events: seq<Event>)
    requires Inv(c)
    ensures Run(c, events).Some? ==> Inv(Run(c, events).value)
    decreases |events|
  {
    if events != [] {
      match events[0]
      case SysTick(s) =>
        if TickDefined(c, s) {
          TickKeepsInv(c, s);
          RunKeepsInv(TickStep(c, s), events[1..]);
        }
      case ButtonsPass(b) =>
        ButtonsKeepsInv(c, b);
        RunKeepsInv(ButtonsStep(c, b), events[1..]);
    }
  }
}
