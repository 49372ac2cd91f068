/**
 * Machine-level scalars shared by the settings record, the JSON document and
 * the shader helpers: 32-bit signed and unsigned integers, the C++ casts
 * between them, and IEEE-754 single-precision floats kept as bit patterns.
 */
module Numerics {

  const TWO_TO_31: int := 0x8000_0000
  const TWO_TO_32: int := 0x1_0000_0000

  /** C++ `int` on the renderer's platforms: 32-bit two's complement. */
  type Int32 = i: int | -TWO_TO_31 <= i < TWO_TO_31

  /** C++ `uint32_t`, the underlying type of every settings enum. */
  type Uint32 = n: int | 0 <= n < TWO_TO_32

  /**
   * `static_cast<int>(e)` of a value whose type is `uint32_t`: the bit pattern
   * is kept, so ordinals at or above 2^31 read back as negative numbers.
   */
  function ToInt32(n: Uint32): (i: Int32)
    ensures i % TWO_TO_32 == n
    ensures 0 <= i <==> n < TWO_TO_31
  {
    if n < TWO_TO_31 then n else n - TWO_TO_32
  }

  /**
   * `static_cast<E>(i)` of an `int` into an enum whose underlying type is
   * `uint32_t`: reduction modulo 2^32, with no range check.
   */
  function ToUint32(i: Int32): (n: Uint32)
    ensures n % TWO_TO_32 == i % TWO_TO_32
    ensures 0 <= i ==> n == i
  {
    if 0 <= i then i else i + TWO_TO_32
  }

  /** Storing an ordinal as an `int` and casting it back gives the ordinal again. */
  lemma OrdinalSurvivesInt(n: Uint32)
    ensures ToUint32(ToInt32(n)) == n
  {
  }

  /** ... and an `int` cast to an ordinal and back is the same `int`. */
  lemma IntSurvivesOrdinal(i: Int32)
    ensures ToInt32(ToUint32(i)) == i
  {
  }

  /**
   * A single-precision float, identified by its 32-bit IEEE-754 encoding.
   * The settings codec only copies floats, so no arithmetic is defined.
   */
  datatype Float32 = Float32(bits: bv32)

  const ZERO_F: Float32 := Float32(0x0000_0000)    // 0.0f
  const ONE_F: Float32 := Float32(0x3F80_0000)     // 1.0f
}
