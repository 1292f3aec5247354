/** The optional value used for PHP's nullable results, and the result of code that may throw. */
module Wrappers {

  datatype Option<+T> = None | Some(value: T) {

    /** The value, or `default` when absent (PHP's `$x ?? $default`). */
    function GetOr(default: T): T {
      match this
      case Some(v) => v
      case None => default
    }
  }

  /** The first present value of two (PHP's `$a ?? $b` when both sides may be absent). */
  function OrElse<T>(a: Option<T>, b: Option<T>): Option<T> {
    if a.Some? then a else b
  }

  /** A value, or the message of the exception raised instead of producing one. */
  datatype Result<+T> = Ok(value: T) | Err(message: string)
}
