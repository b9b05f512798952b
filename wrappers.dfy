/** Failure-carrying values shared by every module of the model.
    A raised Python exception is modelled as `Err(msg)`, where `msg` is the text `str(e)` would give. */
module Wrappers {

  datatype Option<+T> = None | Some(value: T) {
    function GetOr(default: T): T {
      match this
      case Some(v) => v
      case None => default
    }
  }

  /** The value of an operation that may raise. */
  datatype Result<+T> = Ok(value: T) | Err(msg: string)

  /** A side effect that either completes or raises. */
  datatype Outcome = Pass | Fail(error: string)

  /** A key of a Python dictionary: either missing, or present with a value
      (which may itself be an `Option` when the dictionary stores `None`). */
  datatype Entry<+T> = Absent | Present(value: T) {
    /** `d.get(key, default)` */
    function GetOr(default: T): T {
      match this
      case Present(v) => v
      case Absent => default
    }
  }
}
