/**
 * Differential motor mixing: the PID correction is subtracted from and added
 * to the midpoint between the minimum speed and the maximum speed, and each
 * result is clamped into [minimum speed, 255]. The firmware does this in
 * unsigned 32-bit arithmetic, passes the result to a signed 32-bit parameter
 * and stores the clamped value in an 8-bit variable; all three conversions
 * are written out.
 */
module Mixer {
  import opened CIntegers
  import opened Helpers
  import opened Motors

  /** The midpoint between the minimum speed and the maximum speed. */
  function Offset(minSpeed: int): int {
    ToUint32(minSpeed + MOTOR_MAX_SPEED) / 2
  }

  /** The speeds of motor A and motor B for correction `pid`. */
  function Mix(pid: int, minSpeed: int): (speeds: (int, int))
    ensures 0 <= speeds.0 < 256 && 0 <= speeds.1 < 256
    ensures 0 <= minSpeed <= MOTOR_MAX_SPEED ==>
              minSpeed <= speeds.0 <= MOTOR_MAX_SPEED && minSpeed <= speeds.1 <= MOTOR_MAX_SPEED
  {
    var add := ToUint32(pid);
    var offset := Offset(minSpeed);
    var lower := ToInt32(minSpeed);
    (ToUint8(EnsureValue(ToInt32(ToUint32(offset - add)), lower, MOTOR_MAX_SPEED)),
     ToUint8(EnsureValue(ToInt32(ToUint32(offset + add)), lower, MOTOR_MAX_SPEED)))
  }

  /** The correction bound below which the 32-bit arithmetic never wraps. */
  const PID_NO_WRAP: int := INT32_MAX - MOTOR_MAX_SPEED

  /** `offset - add` computed in uint32 and read back as int32 is `offset - pid`. */
  lemma SubtractionDoesNotWrap(offset: int, pid: int)
    requires 0 <= offset <= MOTOR_MAX_SPEED
    requires -PID_NO_WRAP <= pid <= PID_NO_WRAP
    ensures ToInt32(ToUint32(offset - ToUint32(pid))) == offset - pid
  {
    var add := ToUint32(pid);
    var below := ToUint32(offset - add);
    MultiplesClosed(below - (offset - add), add - pid);
    assert below - (offset - pid) == (below - (offset - add)) - (add - pid);
    Int32ThroughUint32(below, offset - pid);
  }

  /** `offset + add` computed in uint32 and read back as int32 is `offset + pid`. */
  lemma AdditionDoesNotWrap(offset: int, pid: int)
    requires 0 <= offset <= MOTOR_MAX_SPEED
    requires -PID_NO_WRAP <= pid <= PID_NO_WRAP
    ensures ToInt32(ToUint32(offset + ToUint32(pid))) == offset + pid
  {
    var add := ToUint32(pid);
    var above := ToUint32(offset + add);
    MultiplesClosed(above - (offset + add), add - pid);
    assert above - (offset + pid) == (above - (offset + add)) + (add - pid);
    Int32ThroughUint32(above, offset + pid);
  }

  /**
   * As long as the correction stays within int32 range with room for the
   * offset, the wrapping arithmetic is ordinary arithmetic: motor A gets the
   * midpoint minus the correction and motor B the midpoint plus it, each
   * clamped into [minimum speed, 255].
   */
  lemma MixIsClampedDifferential(pid: int, minSpeed: int)
    requires 0 <= minSpeed <= MOTOR_MAX_SPEED
    requires -PID_NO_WRAP <= pid <= PID_NO_WRAP
    ensures Offset(minSpeed) == (minSpeed + MOTOR_MAX_SPEED) / 2
    ensures Mix(pid, minSpeed).0 == EnsureValue(Offset(minSpeed) - pid, minSpeed, MOTOR_MAX_SPEED)
    ensures Mix(pid, minSpeed).1 == EnsureValue(Offset(minSpeed) + pid, minSpeed, MOTOR_MAX_SPEED)
  {
    SubtractionDoesNotWrap(Offset(minSpeed), pid);
    AdditionDoesNotWrap(Offset(minSpeed), pid);
  }

  /**
   * Differential steering: a positive correction slows motor A and speeds up
   * motor B relative to the midpoint, a negative one the other way round,
   * and a zero correction drives both at the midpoint.
   */
  lemma MixSteers(pid: int, minSpeed: int)
    requires 0 <= minSpeed <= MOTOR_MAX_SPEED
    requires -PID_NO_WRAP <= pid <= PID_NO_WRAP
    ensures pid >= 0 ==> Mix(pid, minSpeed).0 <= Offset(minSpeed) <= Mix(pid, minSpeed).1
    ensures pid <= 0 ==> Mix(pid, minSpeed).1 <= Offset(minSpeed) <= Mix(pid, minSpeed).0
    ensures pid == 0 ==> Mix(pid, minSpeed) == (Offset(minSpeed), Offset(minSpeed))
  {
    MixIsClampedDifferential(pid, minSpeed);
  }

  /** Minimum speed 105 gives the midpoint 180: correction 30 gives 150 and 210, correction 200 clamps to 105 and 255. */
  lemma MixExamples()
    ensures Mix(30, 105) == (150, 210)
    ensures Mix(200, 105) == (105, 255)
  {
    MixIsClampedDifferential(30, 105);
    MixIsClampedDifferential(200, 105);
  }
}
