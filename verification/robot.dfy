/**
 * The firmware's globals as the fields of one object, and its handlers as
 * methods that update them in place. Each method is proved to leave the
 * object in the state the corresponding step function of the Controller
 * module describes; the motor driver calls are recorded in ghost fields.
 */
module Robot {
  import opened CIntegers
  import opened Helpers
  import opened Buttons
  import opened Motors
  import opened SensorFusion
  import opened Pid
  import opened Mixer
  import opened Controller

  class LineFollower {
    // Tuning parameters and run flag (written by the button handler).
    var running: bool
    var config: int
    var kp: int
    var ki: int
    var kd: int
    var minSpeed: int

    // PID state.
    var lastErr: int
    var pPart: int
    var iPart: int
    var dPart: int

    // Button handler bookkeeping.
    var buttonsCounter: Uint32
    var lastButtons: bv8

    // Values of the last control tick.
    var sensorsData: bv8
    var error: int
    var motorASpeed: int
    var motorBSpeed: int

    // What each motor driver was last told.
    ghost var motorA: Driver
    ghost var motorB: Driver

    /** The object's fields as one value. */
    ghost function State(): Globals
      reads this
    {
      Globals(running, config, Gains(kp, ki, kd), minSpeed, PidState(pPart, iPart, dPart, lastErr),
              buttonsCounter, lastButtons, sensorsData, error, motorASpeed, motorBSpeed, motorA, motorB)
    }

    ghost predicate Valid()
      reads this
    {
      Inv(State())
    }

    /** The static initialisers, and both motor drivers after initialisation. */
    constructor ()
      ensures State() == INITIAL
      ensures Valid()
    {
      running := false;
      config := CONFIG_P;
      kp, ki, kd := 4, 0, 1;
      minSpeed := 105;
      lastErr, pPart, iPart, dPart := 0, 0, 0, 0;
      buttonsCounter := 0;
      lastButtons := 0;
      sensorsData := 0;
      error := 0;
      motorASpeed, motorBSpeed := 180, 180;
      motorA, motorB := INITIAL_DRIVER, INITIAL_DRIVER;
    }

    /** toggleMotors */
    method ToggleMotors(run: bool)
      modifies this
      ensures State() == SetRunning(old(State()), run)
      ensures old(Valid()) ==> Valid()
    {
      running := run;
      if running {
        motorA := motorA.(enabled := MOTOR_RUN);
        motorB := motorB.(enabled := MOTOR_RUN);
      } else {
        motorA := motorA.(enabled := MOTOR_STOP);
        motorB := motorB.(enabled := MOTOR_STOP);
      }
    }

    /** computePID: overwrite P and D, accumulate I, return their sum. */
    method ComputePid(curErr: int) returns (r: int)
      modifies this
      ensures State() == old(State()).(pid := PidUpdate(old(State()).gains, old(State()).pid, curErr))
      ensures r == Output(State().pid)
      ensures old(Valid()) ==> Valid()
    {
      pPart := kp * curErr;
      iPart := iPart + ki * curErr;
      dPart := kd * (curErr - lastErr);
      r := pPart + iPart + dPart;
    }

    /** SysTickIntHandler, given the sensor sample it reads. */
    method SysTickHandler(sample: bv8)
      requires TickDefined(State(), sample)
      modifies this
      ensures State() == TickStep(old(State()), sample)
      ensures old(Valid()) ==> Valid()
    {
      sensorsData := sample;
      if sensorsData == ALL_SENSORS_SET {
        ToggleMotors(false);
      }
      if running {
        SteerMotors();
      }
      if old(Valid()) {
        TickKeepsInv(old(State()), sample);
      }
    }

    /** The line error of a sample: the mean index of the active sensors minus the centre. */
    static method ReadError(sample: bv8) returns (e: int)
      requires sample != 0
      ensures e == LineError(sample)
    {
      var sum, cnt := ScanSensors(sample);
      NoActiveIffZero(sample);
      e := sum / cnt - CENTER;
    }

    /** The running branch of SysTickIntHandler, on the sample already stored. */
    method SteerMotors()
      requires sensorsData != 0
      modifies this
      ensures State() == Steer(old(State()), old(sensorsData))
      ensures old(Valid()) ==> Valid()
    {
      error := ReadError(sensorsData);
      var add := ComputePid(error);
      SetSpeeds(add);
    }

    /** Mix a PID correction into both motor speeds and hand them to the drivers. */
    method SetSpeeds(add: int)
      modifies this
      ensures var speeds := Mix(add, old(minSpeed));
        State() == old(State()).(speedA := speeds.0, speedB := speeds.1,
          motorA := old(motorA).(speed := speeds.0), motorB := old(motorB).(speed := speeds.1))
      ensures old(Valid()) ==> Valid()
    {
      var speeds := Mix(add, minSpeed);
      motorASpeed := speeds.0;
      motorBSpeed := speeds.1;
      motorA := motorA.(speed := motorASpeed);
      motorB := motorB.(speed := motorBSpeed);
      if old(Valid()) {
        DriveKeepsInv(old(State()), add);
      }
    }

    /** The DEC_BUTTON case: step the selected parameter down to its floor. */
    method DecrementSelected()
      modifies this
      ensures State() == Decrement(old(State()))
      ensures old(Valid()) ==> Valid()
    {
      if config == CONFIG_P {
        kp := DecInRange(kp, GAIN_MIN, GAIN_STEP);
      } else if config == CONFIG_I {
        ki := DecInRange(ki, GAIN_MIN, GAIN_STEP);
      } else if config == CONFIG_D {
        kd := DecInRange(kd, GAIN_MIN, GAIN_STEP);
      } else if config == CONFIG_SPEED {
        minSpeed := DecInRange(minSpeed, MIN_SPEED_FLOOR, MIN_SPEED_STEP);
      }
    }

    /** The INC_BUTTON case: step the selected parameter up to its ceiling. */
    method IncrementSelected()
      modifies this
      ensures State() == Increment(old(State()))
      ensures old(Valid()) ==> Valid()
    {
      if config == CONFIG_P {
        kp := IncInRange(kp, GAIN_MAX, GAIN_STEP);
      } else if config == CONFIG_I {
        ki := IncInRange(ki, GAIN_MAX, GAIN_STEP);
      } else if config == CONFIG_D {
        kd := IncInRange(kd, GAIN_MAX, GAIN_STEP);
      } else if config == CONFIG_SPEED {
        minSpeed := IncInRange(minSpeed, MOTOR_MAX_SPEED, MIN_SPEED_STEP);
      }
    }

    /** buttonsHandler, given the button sample it polls (a set bit is a pressed button). */
    method ButtonsHandler(sample: bv8)
      modifies this
      ensures State() == ButtonsStep(old(State()), sample)
      ensures old(Valid()) ==> Valid()
    {
      buttonsCounter := Increment32(buttonsCounter);
      Dispatch(sample);
      lastButtons := sample;
      if old(Valid()) {
        ButtonsKeepsInv(old(State()), sample);
      }
    }

    /** The switch of buttonsHandler, after the counter has been incremented. */
    method Dispatch(sample: bv8)
      modifies this
      ensures State() == ButtonsDispatch(old(State()), sample)
      ensures old(Valid()) ==> Valid()
    {
      var pressed := ButtonBits(sample);
      if pressed == CONFIG_BUTTON {
        if buttonsCounter % BUTTON_POLL_DIVIDER_10 == 1 && !running {
          config := (config + 1) % NUM_CONFIG;
        }
      } else if pressed == DEC_BUTTON {
        if !running && buttonsCounter % BUTTON_POLL_DIVIDER_5 == 1 {
          DecrementSelected();
        }
      } else if pressed == INC_BUTTON {
        if !running && buttonsCounter % BUTTON_POLL_DIVIDER_5 == 1 {
          IncrementSelected();
        }
      } else {
        if pressed == RUN_BUTTON && lastButtons != sample {
          ToggleMotors(!running);
        }
        buttonsCounter := 0;
      }
    }
  }
}
