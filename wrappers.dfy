/** Optional values (TypeScript's `T | undefined` / `T | null`) and the
    success-or-error result of an action (a resolved promise, or a thrown
    `Error` carrying a message). */
module Wrappers {

  datatype Option<+T> = None | Some(value: T) {

    /** The value, or `default` when absent (`x ?? default`). */
    function GetOr(default: T): T {
      match this
      case Some(v) => v
      case None => default
    }
  }

  datatype Result<+R, +E> = Success(value: R) | Failure(error: E)
}
