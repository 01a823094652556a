/** Failure-carrying wrappers shared by every module of the model. */
module Outcomes {

  /** A value that may be absent: an unset header, a NaN parse, a missing map entry. */
  datatype Option<+T> = None | Some(value: T) {
    function GetOr(default: T): T {
      match this
      case Some(v) => v
      case None => default
    }
  }

  /** The result of a step that either produces a value or stops with an error. */
  datatype Result<+T, +E> = Ok(value: T) | Err(error: E)
}
