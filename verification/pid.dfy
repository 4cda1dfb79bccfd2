/**
 * The PID controller of the control tick. The proportional and derivative
 * parts are overwritten on every call; the integral part accumulates and is
 * never reset or clamped. The previous error the derivative subtracts is
 * kept in a variable that no code ever assigns.
 */
module Pid {

  datatype Gains = Gains(kp: int, ki: int, kd: int)

  /** The running parts of the controller and the (never updated) previous error. */
  datatype PidState = PidState(p: int, i: int, d: int, lastErr: int)

  const INITIAL_PID: PidState := PidState(0, 0, 0, 0)

  /** One computePID call on error `e`: the new running parts. */
  function PidUpdate(g: Gains, s: PidState, e: int): PidState {
    PidState(g.kp * e, s.i + g.ki * e, g.kd * (e - s.lastErr), s.lastErr)
  }

  /** The correction computePID returns: the sum of the three parts. */
  function Output(s: PidState): int {
    s.p + s.i + s.d
  }

  /** The parts after feeding the errors of `errs` in order. */
  function PidRun(g: Gains, s: PidState, errs: seq<int>): PidState
    decreases |errs|
  {
    if errs == [] then s else PidRun(g, PidUpdate(g, s, errs[0]), errs[1..])
  }

  /** The corrections returned, one per error of `errs`. */
  function Outputs(g: Gains, s: PidState, errs: seq<int>): (out: seq<int>)
    ensures |out| == |errs|
    decreases |errs|
  {
    if errs == [] then []
    else
      var s' := PidUpdate(g, s, errs[0]);
      [Output(s')] + Outputs(g, s', errs[1..])
  }

  function Sum(errs: seq<int>): int
    decreases |errs|
  {
    if errs == [] then 0 else errs[0] + Sum(errs[1..])
  }

  /**
   * One call: P is KP*e, the integral grows by exactly KI*e, and since the
   * previous error is never written D is KD*e. With KI = 0 the integral
   * stays where it was.
   */
  lemma PidStep(g: Gains, s: PidState, e: int)
    requires s.lastErr == 0
    ensures PidUpdate(g, s, e).p == g.kp * e
    ensures PidUpdate(g, s, e).i - s.i == g.ki * e
    ensures PidUpdate(g, s, e).d == g.kd * e
    ensures PidUpdate(g, s, e).lastErr == 0
    ensures Output(PidUpdate(g, s, e)) == (g.kp + g.kd) * e + s.i + g.ki * e
    ensures g.ki == 0 ==> PidUpdate(g, s, e).i == s.i
  {
  }

  /**
   * Windup: after any sequence of errors the integral part holds its
   * starting value plus KI times the sum of all errors seen, and the
   * previous error is still what it was.
   */
  lemma {:induction false} PidRunIntegral(g: Gains, s: PidState, errs: seq<int>)
    ensures PidRun(g, s, errs).i == s.i + g.ki * Sum(errs)
    ensures PidRun(g, s, errs).lastErr == s.lastErr
    decreases |errs|
  {
    if errs != [] {
      PidRunIntegral(g, PidUpdate(g, s, errs[0]), errs[1..]);
      assert g.ki * errs[0] + g.ki * Sum(errs[1..]) == g.ki * Sum(errs);
    }
  }

  /**
   * Each correction depends on the current error and on the integral only:
   * the k-th output is (KP + KD) * e_k plus the starting integral plus KI
   * times the sum of the errors up to and including e_k.
   */
  lemma {:induction false} OutputsClosedForm(g: Gains, s: PidState, errs: seq<int>, k: nat)
    requires s.lastErr == 0
    requires k < |errs|
    ensures Outputs(g, s, errs)[k] == (g.kp + g.kd) * errs[k] + s.i + g.ki * Sum(errs[..k + 1])
    decreases |errs|
  {
    var s' := PidUpdate(g, s, errs[0]);
    if k == 0 {
      assert Sum(errs[..1]) == errs[0] by {
        assert errs[..1][1..] == [];
      }
    } else {
      OutputsClosedForm(g, s', errs[1..], k - 1);
      assert errs[1..][..k] == errs[..k + 1][1..];
      assert g.ki * errs[0] + g.ki * Sum(errs[..k + 1][1..]) == g.ki * Sum(errs[..k + 1]);
    }
  }

  /**
   * With the firmware's default gains (KP 4, KI 0, KD 1) and a zero starting
   * state, every correction is exactly 5 times the current error: the errors
   * 2, 2, -1 give 10, 10, -5.
   */
  lemma DefaultGainsCorrection(errs: seq<int>, k: nat)
    requires k < |errs|
    ensures Outputs(Gains(4, 0, 1), INITIAL_PID, errs)[k] == 5 * errs[k]
  {
    OutputsClosedForm(Gains(4, 0, 1), INITIAL_PID, errs, k);
  }
}
