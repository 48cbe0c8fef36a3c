/** Failure-carrying results shared by every module of the model. */
module Wrappers {
  /** An optional value: Python's `None` or a present value. */
  datatype Option<+T> = None | Some(value: T)

  /** A value or the exception kind that was raised instead. */
  datatype Result<+T, +E> = Ok(value: T) | Err(error: E)

  /** The `(is_valid, error)` pair the validators of the system return. */
  datatype Verdict<+E> = Verdict(isValid: bool, error: Option<E>)

  function Max(a: int, b: int): int
  {
    if a >= b then a else b
  }

  function Min(a: int, b: int): int
  {
    if a <= b then a else b
  }
}
