/** Types shared by the models of the different components. */
module Basics {

  datatype Option<+T> = None | Some(value: T)

  /** The error classes of `AppError` that a modelled operation can return.
      `Storage` is a constraint violation reported by SQLite, after which the
      enclosing transaction has been rolled back. */
  datatype Error = Validation | NotFound | Conflict | RateLimited | Internal | Hypervisor | Storage

  datatype Result<+T> = Ok(value: T) | Err(error: Error)

  // Primary keys are random UUIDs: only their identity matters.
  type VmId = nat

  const I64_MAX: int := 0x7fff_ffff_ffff_ffff
  const I64_MIN: int := -0x8000_0000_0000_0000

  /** Times are 64-bit and their arithmetic saturates. */
  type I64 = x: int | I64_MIN <= x <= I64_MAX witness 0

  function Saturate(x: int): I64 {
    if x > I64_MAX then I64_MAX else if x < I64_MIN then I64_MIN else x
  }
}
