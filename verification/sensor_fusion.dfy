/**
 * Sensor fusion: the lateral error of the line from the centre of the
 * eight-sensor array, as the centroid of the active sensor positions.
 */
module SensorFusion {

  const NUM_SENSORS: nat := 8
  const CENTER: int := 3

  /** 1 when sensor `i` sees the line in the sample, 0 otherwise. */
  function Bit(s: bv8, i: nat): (b: nat)
    requires i < NUM_SENSORS
    ensures b <= 1
  {
    if (s >> i) & 1 == 1 then 1 else 0
  }

  /** The number of active sensors among positions 0 .. n-1. */
  function ActiveCount(s: bv8, n: nat): nat
    requires n <= NUM_SENSORS
  {
    if n == 0 then 0 else ActiveCount(s, n - 1) + Bit(s, n - 1)
  }

  /** The sum of the positions of the active sensors among 0 .. n-1. */
  function IndexSum(s: bv8, n: nat): nat
    requires n <= NUM_SENSORS
  {
    if n == 0 then 0 else IndexSum(s, n - 1) + (n - 1) * Bit(s, n - 1)
  }

  /** The mask of the low `n` bits. */
  function LowBits(n: nat): bv8
    requires n <= NUM_SENSORS
  {
    ((1 as bv8) << n) - 1
  }

  /** No sensor among the low `n` is active exactly when those bits are all clear. */
  lemma {:induction false} NoActiveIffLowBitsClear(s: bv8, n: nat)
    requires n <= NUM_SENSORS
    ensures ActiveCount(s, n) == 0 <==> s & LowBits(n) == 0
  {
    if n > 0 {
      NoActiveIffLowBitsClear(s, n - 1);
      LowBitsStep(s, n - 1);
    }
  }

  /** The low k+1 bits are clear exactly when the low k bits and bit k are. */
  lemma LowBitsStep(s: bv8, k: nat)
    requires k < NUM_SENSORS
    ensures s & LowBits(k + 1) == 0 <==> s & LowBits(k) == 0 && Bit(s, k) == 0
  {
  }

  /** The centroid is undefined (zero active sensors) exactly for the all-zero sample. */
  lemma NoActiveIffZero(s: bv8)
    ensures ActiveCount(s, NUM_SENSORS) == 0 <==> s == 0
  {
    NoActiveIffLowBitsClear(s, NUM_SENSORS);
  }

  /** Every position is at most 7, so the index sum is at most 7 per active sensor. */
  lemma {:induction false} IndexSumBound(s: bv8, n: nat)
    requires n <= NUM_SENSORS
    ensures ActiveCount(s, n) <= n
    ensures IndexSum(s, n) <= 7 * ActiveCount(s, n)
  {
    if n > 0 {
      IndexSumBound(s, n - 1);
      assert (n - 1) * Bit(s, n - 1) <= 7 * Bit(s, n - 1);
    }
  }

  /** A quotient by a positive divisor is at most `c` when the dividend is at most `c` times it. */
  lemma DivAtMost(a: nat, b: nat, c: nat)
    requires 0 < b && a <= c * b
    ensures a / b <= c
  {
    var q := a / b;
    assert q * b <= a;
    assert (q - c) * b <= 0;
  }

  /**
   * The lateral error of a sample with at least one active sensor: the
   * truncated mean of the active positions minus the centre. It lies in
   * [-3, 4], and it is 0 when the line sits under sensor 3 alone.
   */
  function LineError(s: bv8): (e: int)
    requires s != 0
    ensures -CENTER <= e <= 7 - CENTER
  {
    NoActiveIffZero(s);
    IndexSumBound(s, NUM_SENSORS);
    var sum, cnt := IndexSum(s, NUM_SENSORS), ActiveCount(s, NUM_SENSORS);
    DivAtMost(sum, cnt, 7);
    sum / cnt - CENTER
  }

  /**
   * The sensor loop of the control tick: one pass over the eight bits,
   * accumulating in 8-bit counters. Neither counter ever wraps.
   */
  method ScanSensors(s: bv8) returns (sum: nat, cnt: nat)
    ensures sum == IndexSum(s, NUM_SENSORS) && cnt == ActiveCount(s, NUM_SENSORS)
    ensures sum <= 7 * cnt && cnt <= NUM_SENSORS
  {
    sum, cnt := 0, 0;
    for i := 0 to NUM_SENSORS
      invariant sum == IndexSum(s, i)
      invariant cnt == ActiveCount(s, i)
    {
      var bit: nat := if (s >> i) & 1 == 1 then 1 else 0;
      IndexSumBound(s, i + 1);
      sum := (sum + i * bit) % 256;
      cnt := (cnt + bit) % 256;
    }
    IndexSumBound(s, NUM_SENSORS);
  }

  /** A line under the two middle sensors, or under sensor 3 alone, is on course. */
  lemma LineErrorCentred()
    ensures LineError(0x18) == 0
    ensures LineError(0x08) == 0
  {
  }

  /** A line under sensor 0 alone is the furthest to one side. */
  lemma LineErrorLowEdge()
    ensures LineError(0x01) == -3
  {
  }

  /** A line under sensor 7 alone is the furthest to the other side. */
  lemma LineErrorHighEdge()
    ensures LineError(0x80) == 4
  {
  }
}
