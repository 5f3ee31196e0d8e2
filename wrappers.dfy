/**
 * Optional values (JavaScript's `null`/`undefined` versus a present value) and
 * results (a value, or the message of the error thrown instead).
 */
module Wrappers {

  datatype Option<+T> = None | Some(value: T) {

    /** `x ?? fallback`: a present value is kept, even when it is falsy. */
    function GetOr(fallback: T): T {
      match this
      case Some(v) => v
      case None => fallback
    }
  }

  datatype Result<+T> = Ok(value: T) | Err(error: string)
}
