/** Errors and failure-compatible results shared by every module of the model.
    A thrown exception of the source is an `Err`/`Fail` value here; `undefined`
    in an optional field is `None`. */
module Outcomes {

  datatype Option<+T> = None | Some(value: T) {
    function GetOr(default: T): T {
      match this
      case Some(v) => v
      case None => default
    }
  }

  /** DBWError is the tool's own user-facing error; SystemError is an error
      raised by the file system (stat, mkdir, copyFile), with its errno code. */
  datatype Error =
    | DBWError(message: string)
    | SystemError(code: string, path: string)

  datatype Result<+T> = Ok(value: T) | Err(error: Error)

  /** The result of an operation that returns nothing (a `Promise<void>`). */
  datatype Outcome = Pass | Fail(error: Error)
}
