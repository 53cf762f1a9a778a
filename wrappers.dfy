/** Option and Result: the model's stand-ins for JavaScript's `undefined` and for thrown errors. */
module Wrappers {

  /** An optional value; `None` models a missing or `undefined` property. */
  datatype Option<+T> = None | Some(value: T)
  {
    /** The value if present, otherwise `default` (the `?? default` / `...undefined` idiom). */
    function GetOr(default: T): T
    {
      match this
      case Some(v) => v
      case None => default
    }
  }

  /** A computation that either produces a value or throws an `Error` with the given message. */
  datatype Result<+T> = Ok(value: T) | Err(message: string)
}
