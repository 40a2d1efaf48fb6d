/** Optional values and success-or-error results shared by the whole model. */
module Wrappers {

  /** An optional value. In the launch model `None` also stands for a key that
      is absent or explicitly `undefined`: the two are indistinguishable to the
      argument comparisons the launch behaviour is pinned down by. */
  datatype Option<+T> = None | Some(value: T) {

    /** The wrapped value, or `default` when there is none. */
    function GetOr(default: T): T {
      match this
      case Some(v) => v
      case None => default
    }
  }

  /** The outcome of an operation that can fail with a message. */
  datatype Result<+T> = Ok(value: T) | Err(message: string)
}
