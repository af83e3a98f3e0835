/** Optional values and success/failure results shared by every module. */
module Wrappers {

  /** A nullable value: SQL NULL, Python None or a missing JSON key. */
  datatype Option<+T> = None | Some(value: T) {
    function GetOr(default: T): T {
      match this
      case Some(v) => v
      case None => default
    }
  }

  /** The outcome of a request handler: a value, or the error it answers with. */
  datatype Result<+R, +E> = Ok(value: R) | Err(error: E)
}
