/** Small value types shared by the model: optional values, results with an
    error side, and the fixed-width integers of the .NET runtime. */
module Base {

  /** A value that may be absent; `None` stands for a .NET `null`. */
  datatype Option<+T> = None | Some(value: T)

  /** The outcome of an operation that may throw instead of returning. */
  datatype Result<+T, +E> = Success(value: T) | Failure(error: E)

  /** The outcome of an operation that returns nothing but may throw. */
  datatype Outcome<+E> = Pass | Fail(error: E)

  /** System.Int32. */
  newtype int32 = x: int | -0x8000_0000 <= x < 0x8000_0000

  /** System.Int64. */
  newtype int64 = x: int | -0x8000_0000_0000_0000 <= x < 0x8000_0000_0000_0000

  /** int.MaxValue. */
  const Int32MaxValue: int32 := 0x7FFF_FFFF
}
