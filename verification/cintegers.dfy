/**
 * The fixed-width C integer conversions the controller relies on, written out
 * explicitly over Dafny's unbounded integers.
 */
module CIntegers {

  const TWO_32: int := 0x1_0000_0000
  const INT32_MIN: int := -0x8000_0000
  const INT32_MAX: int := 0x7FFF_FFFF

  /** The values of a `uint32_t`. */
  type Uint32 = v: int | 0 <= v < TWO_32

  /** `v++` on a `uint32_t`: the largest value wraps around to 0. */
  function Increment32(v: Uint32): Uint32 {
    if v == TWO_32 - 1 then 0 else v + 1
  }

  /** The wrapping increment is C's increment followed by the conversion back to `uint32_t`. */
  lemma Increment32IsConversion(v: Uint32)
    ensures Increment32(v) == ToUint32(v + 1)
  {
  }

  predicate IsInt32(v: int) {
    INT32_MIN <= v <= INT32_MAX
  }

  /** C's conversion of an integer value to `uint32_t`: keep the low 32 bits. */
  function ToUint32(v: int): (r: int)
    ensures 0 <= r < TWO_32
    ensures (r - v) % TWO_32 == 0
    ensures 0 <= v < TWO_32 ==> r == v
  {
    v % TWO_32
  }

  /** Reinterpretation of the low 32 bits of `v` as a two's-complement `int32_t`. */
  function ToInt32(v: int): (r: int)
    ensures IsInt32(r)
    ensures (r - v) % TWO_32 == 0
    ensures IsInt32(v) ==> r == v
  {
    (v - INT32_MIN) % TWO_32 + INT32_MIN
  }

  /** C's conversion of an integer value to `uint8_t`: keep the low 8 bits. */
  function ToUint8(v: int): (r: int)
    ensures 0 <= r < 256
    ensures (r - v) % 256 == 0
    ensures 0 <= v < 256 ==> r == v
  {
    v % 256
  }

  /** Sums and differences of multiples of 2^32 are multiples of 2^32. */
  lemma MultiplesClosed(x: int, y: int)
    requires x % TWO_32 == 0 && y % TWO_32 == 0
    ensures (x - y) % TWO_32 == 0 && (x + y) % TWO_32 == 0
  {
    var a, b := x / TWO_32, y / TWO_32;
    assert x - y == TWO_32 * (a - b);
    assert x + y == TWO_32 * (a + b);
  }

  /** Two int32 values with the same low 32 bits are equal. */
  lemma SameLowBitsInt32(a: int, b: int)
    requires IsInt32(a) && IsInt32(b)
    requires (a - b) % TWO_32 == 0
    ensures a == b
  {
    assert -TWO_32 < a - b < TWO_32;
  }

  /**
   * Going through `uint32_t` and back to `int32_t` loses nothing for a value
   * that fits in `int32_t`: this is why the unsigned arithmetic of the motor
   * mixing equals signed arithmetic on two's-complement hardware.
   */
  lemma Int32ThroughUint32(v: int, w: int)
    requires (v - w) % TWO_32 == 0
    requires IsInt32(w)
    ensures ToInt32(v) == w
  {
    var r := ToInt32(v);
    MultiplesClosed(r - v, v - w);
    assert r - w == (r - v) + (v - w);
    SameLowBitsInt32(r, w);
  }
}
