/** Optional values and results, standing for JavaScript's `undefined`/`null` results and thrown errors. */
module Wrappers {

  /** `None` is a lookup that found nothing (`find` returning `undefined`, a service returning `null`). */
  datatype Option<+T> = None | Some(value: T) {
    function GetOr(default: T): T {
      match this
      case Some(v) => v
      case None => default
    }
  }

  /** `Failure(message)` is an `Error` thrown with that message. */
  datatype Result<+R, +E> = Success(value: R) | Failure(error: E)
}
