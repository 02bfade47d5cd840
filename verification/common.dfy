/** Shared vocabulary of the rendering-backend model: optional values,
    success/failure results, and 32-bit unsigned integers as the Vulkan API
    and the C standard library use them. */
module Common {

  /** A value that may be absent; stands in for a null pointer or an
      unset out-parameter. */
  datatype Option<+T> = None | Some(value: T)

  /** A computation that either produces a value or fails; stands in for
      a C++ exception or a fatal error return. */
  datatype Result<+T, +E> = Success(value: T) | Failure(error: E)

  /** The range of a C `uint32_t`. */
  const U32Modulus: int := 0x1_0000_0000

  /** `std::numeric_limits<uint32_t>::max()`, also the all-ones value a
      `uint32_t` holds after `= -1`. */
  const U32Max: int := 0xFFFF_FFFF

  type U32 = x: int | 0 <= x < 0x1_0000_0000

  /** The value `static_cast<uint32_t>(x)` produces: reduction modulo 2^32.
      Dafny's `%` is Euclidean, so negative inputs wrap as in C. */
  function ToU32(x: int): (r: U32)
    ensures 0 <= x <= U32Max ==> r == x
    ensures (r - x) % U32Modulus == 0
  {
    x % U32Modulus
  }

  /** An 8-bit byte of buffer memory. */
  type Byte = bv8

  /** How a Vulkan image or buffer is shared between queue families. */
  datatype SharingMode = Exclusive | Concurrent
}
