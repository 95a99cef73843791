/** Failure-compatible wrappers shared by every module of the model. */
module Wrappers {

  /** A value that may be absent: JavaScript's `undefined`/`null` versus a present value. */
  datatype Option<+T> = None | Some(value: T) {
    /** `x || fallback` for a value that is falsy exactly when it is absent. */
    function GetOr(fallback: T): T {
      match this
      case Some(v) => v
      case None => fallback
    }
  }

  /** The outcome of an operation that either returns a value or throws an error. */
  datatype Result<+R, +E> = Ok(value: R) | Err(error: E)

  /** The answer of one call into a remote service whose SDK is not modelled. */
  datatype Call = Succeeds | Fails(message: string)
}
