/** Small shared vocabulary. */
module Common {

  datatype Option<+T> = None | Some(value: T)

  datatype Result<+T, +E> = Ok(value: T) | Err(error: E)

  /** One more than the largest value of a 64-bit unsigned integer. */
  const TWO64: nat := 0x1_0000_0000_0000_0000

  /** A 64-bit unsigned integer. */
  type u64 = n: nat | n < TWO64

  /** Addition and subtraction that wrap around at 2^64. */
  function WrapAdd(a: u64, b: u64): u64 {
    if a + b < TWO64 then a + b else a + b - TWO64
  }

  function WrapSub(a: u64, b: u64): u64 {
    if b <= a then a - b else a + TWO64 - b
  }
}
