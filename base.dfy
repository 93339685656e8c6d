/** Value types shared by both components. */
module Base {
  /** An optional value (Rust's `Option`). */
  datatype Option<+T> = None | Some(value: T)

  /** A value or an error (Rust's `Result`, with errors carried as their rendered message). */
  datatype Result<+R, +E> = Success(value: R) | Failure(error: E)

  /** Rust's `u64`, the type of a request id. */
  newtype u64 = x: int | 0 <= x < 0x1_0000_0000_0000_0000

  function Min(a: nat, b: nat): nat
  {
    if a <= b then a else b
  }
}
