/** Optional and fallible values: JavaScript's `undefined`/`null` and thrown errors. */
module Wrappers {

  /** `T | null` or an optional property `p?: T`. */
  datatype Option<+T> = None | Some(value: T) {

    /** `x ?? fallback` */
    function GetOr(fallback: T): (r: T)
      ensures Some? ==> r == value
      ensures None? ==> r == fallback
    {
      match this
      case Some(v) => v
      case None => fallback
    }
  }

  /** The outcome of an asynchronous call that either resolves or rejects. */
  datatype Result<+R, +E> = Ok(value: R) | Err(error: E)
}
