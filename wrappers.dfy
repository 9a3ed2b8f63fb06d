/** Optional values and failures, as the engine's optional fields, look-ups
    with a default and thrown catalog misses need them. */
module Wrappers {

  datatype Option<+T> = None | Some(value: T) {
    /** The value if there is one, otherwise the default d. */
    function GetOr(default: T): T {
      match this
      case Some(v) => v
      case None => default
    }
  }

  datatype Result<+R, +E> = Success(value: R) | Failure(error: E)
}
