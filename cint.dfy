/** Fixed-width integers of the platform the note class is compiled for:
    `int` is a 32-bit two's-complement integer and `unsigned` a 32-bit unsigned one. */
module CInt {

  const INT_MIN: int := -0x8000_0000
  const INT_MAX: int := 0x7fff_ffff
  /** 2^32, the modulus of `unsigned` arithmetic. */
  const UINT_RANGE: int := 0x1_0000_0000

  type Int32 = x: int | -0x8000_0000 <= x <= 0x7fff_ffff
  type UInt32 = x: int | 0 <= x < 0x1_0000_0000

  predicate InInt32(x: int) {
    INT_MIN <= x <= INT_MAX
  }

  /** The implicit conversion of an `int` to `unsigned`: the unsigned value
      congruent to `x` modulo 2^32 (section 7.8 [conv.integral] of ISO C++). */
  function ToUnsigned(x: Int32): (u: UInt32)
    ensures (u - x) % UINT_RANGE == 0
    ensures 0 <= x ==> u == x
  {
    if x < 0 then x + UINT_RANGE else x
  }

  /** The conversion of an `unsigned` back to `int`: the `int` value congruent
      to `u` modulo 2^32 (two's complement, as every supported compiler does). */
  function ToSigned(u: UInt32): (x: Int32)
    ensures (x - u) % UINT_RANGE == 0
    ensures u <= INT_MAX ==> x == u
  {
    if u <= INT_MAX then u else u - UINT_RANGE
  }

  /** Storing an `int` into an `unsigned` and reading it back as `int` gives
      the original value. */
  lemma SignedRoundTrip(x: Int32)
    ensures ToSigned(ToUnsigned(x)) == x
  {
  }
}
