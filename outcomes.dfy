/** Python's `None`-or-value results and the exceptions the core raises. */
module Outcomes {

  datatype Option<+T> = None | Some(value: T)

  /** The exception classes the modelled operations can raise. */
  datatype Error =
    | RuntimeError(message: string)
    | ValueError(message: string)
    | IndexError
    | TypeError
    | AttributeError(name: string)
    /** Whatever a sensor driver raises on a failed read. */
    | DeviceError

  /** A value, or the exception raised instead of returning it. */
  datatype Result<+T> = Success(value: T) | Failure(error: Error)

  /** Normal completion of a statement, or the exception it raised. */
  datatype Outcome = Pass | Fail(error: Error)
}
