/** Optional values, standing for the source's `null` / `undefined`. */
module Wrappers {

  datatype Option<+T> = None | Some(value: T) {
    function GetOr(default: T): T {
      match this
      case Some(v) => v
      case None => default
    }
  }

  /** A computation that either yields a value or throws an error. */
  datatype Result<+T, +E> = Ok(value: T) | Err(error: E)

  /** Why an awaited call into the host (a dialog, `basename`, a file
      write) rejected; its reason is not modelled. */
  datatype Rejection = Rejection

  /** The settled outcome of an awaited host call. */
  type Promised<+T> = Result<T, Rejection>
}
