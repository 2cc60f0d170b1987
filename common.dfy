/** Shared vocabulary: optional values and the exceptions the Python code raises. */
module Common {

  /** Python's `None` / a present value. */
  datatype Option<T> = None | Some(value: T)

  /** The exception classes the modelled code can raise. */
  datatype Error =
    | ValueError(msg: string)
    | KeyError
    | IndexError
    | TypeError
    | NotImplementedError
    | UnboundLocalError

  /** A value, or the exception raised instead of returning one. */
  datatype Result<T> = Ok(value: T) | Err(error: Error)

  /** For operations that return nothing but may raise. */
  datatype Outcome = Pass | Fail(error: Error)
}
