/**
 * The motor interface the controller drives: the 8-bit speed ceiling, the
 * run/stop state values, and a record of what one motor driver was last told.
 */
module Motors {

  const MOTOR_MAX_SPEED: int := 255
  const MOTOR_STOP: bool := false
  const MOTOR_RUN: bool := true

  /**
   * The last commands a motor driver received: whether its PWM output is
   * enabled, and the last 8-bit speed sent to it.
   */
  datatype Driver = Driver(enabled: bool, speed: int)

  /** After driver initialisation: output disabled, pulse width 0. */
  const INITIAL_DRIVER: Driver := Driver(MOTOR_STOP, 0)
}
