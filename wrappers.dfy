/** Optional values and success-or-error results shared by the modules of this model. */
module Wrappers {

  /** An optional value: `undefined`/`null` in the original code is `None`. */
  datatype Option<T> = None | Some(value: T) {

    /** The value if there is one, otherwise `default`. */
    function GetOr(default: T): T
    {
      match this
      case Some(v) => v
      case None => default
    }
  }

  /** Either a value or an error message (a thrown `Error` in the original code). */
  datatype Result<T, E> = Ok(value: T) | Err(error: E)
}
