/** Small shared helpers: an optional value, standing for Kotlin's nullable types. */
module Common {

  /** `T?` in Kotlin: `None` is `null`. */
  datatype Option<+T> = None | Some(value: T) {

    /** Kotlin's elvis operator `x ?: default`. */
    function GetOr(default: T): T {
      match this
      case Some(v) => v
      case None => default
    }
  }
}
