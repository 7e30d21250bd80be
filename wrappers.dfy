/** Option and Result values shared by the modules of the model.
  * A C++ `throw` or a `false` error return is an `Err` carrying the kind of
  * exception the source raises. */
module Wrappers {
  datatype Option<T> = None | Some(value: T)

  /** The exception classes the source throws. */
  datatype Error =
    | InvalidArgument
    | OutOfRange
    | RuntimeError

  datatype Result<T> = Ok(value: T) | Err(error: Error)
  {
    predicate IsOk() { this.Ok? }
  }

  /** The outcome of a `void` operation that may throw. */
  datatype Status = Done | Failed(error: Error)
}
