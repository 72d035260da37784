/** Small value types shared by the model: optional values, results and Rust's `u32`. */
module Prelude {

  /** Rust's `Option<T>`. */
  datatype Option<+T> = None | Some(value: T)

  /** Rust's `Result<T, E>`. */
  datatype Result<+T, +E> = Ok(value: T) | Err(error: E)

  const U32Modulus: int := 0x1_0000_0000

  /** Rust's `u32`. */
  newtype u32 = x: int | 0 <= x < 0x1_0000_0000

  /** Rust's `n as u32` for an unsigned `n`: keeps the low 32 bits. */
  function AsU32(n: nat): (r: u32)
    ensures n < U32Modulus ==> r as int == n
    ensures r as int == n % U32Modulus
  {
    (n % U32Modulus) as u32
  }
}
