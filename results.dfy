/** Optional values and the outcome of a store operation: a value, or the
    message of the Error the service throws. */
module Results {

  datatype Option<T> = None | Some(value: T) {
    function GetOr(default: T): T {
      match this
      case Some(v) => v
      case None => default
    }

    /** This value when present, else other: how a later spread key wins. */
    function OrElse(other: Option<T>): Option<T> {
      if Some? then this else other
    }
  }

  datatype Result<T> = Ok(value: T) | Err(message: string)
}
