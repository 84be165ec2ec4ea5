/** Small failure-carrying datatypes shared by every module. */
module Wrappers {

  datatype Option<+T> = None | Some(value: T)

  /** The exceptions the modelled code can raise or throw. */
  datatype Exception =
    | TypeError          // JavaScript property access on null/undefined; Python `None / 60`
    | ZeroDivisionError  // Python float division by zero

  /** The outcome of an operation that may raise instead of returning. */
  datatype Result<+T> = Ok(value: T) | Raise(exception: Exception)
}
