/** Option and Result values shared by every module of the model. */
module Wrappers {

  /** A value that may be absent: `undefined` / `null` in the TypeScript code. */
  datatype Option<+T> = None | Some(value: T) {
    function GetOr(default: T): T {
      match this
      case Some(v) => v
      case None => default
    }
  }

  /** The outcome of an operation that may throw: `Ok` carries the value returned, `Err` what was thrown. */
  datatype Result<+T, +E> = Ok(value: T) | Err(error: E)
}
