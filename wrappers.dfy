/** Option and result wrappers: the model's stand-ins for PHP's nullable returns and exceptions. */
module Wrappers {

  /** A value or nothing (PHP's `?T` return). */
  datatype Option<+T> = None | Some(value: T)

  /** A normal return or a raised exception. */
  datatype Result<+T, +E> = Ok(value: T) | Err(error: E)
}
