/** Option and Result: the model's stand-ins for JavaScript's `undefined`/`null`
    and for the `{ valid: false, error }` objects the validators return. */
module Wrappers {

  datatype Option<+T> = None | Some(value: T) {
    function GetOr(default: T): T {
      match this
      case Some(v) => v
      case None => default
    }
  }

  /** A validator's answer: `Ok` carries the data, `Err` the message shown to the user. */
  datatype Result<+T> = Ok(value: T) | Err(error: string)
}
