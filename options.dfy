/** Optional values: the model of TypeScript's `field?: T` and of `T | null`. */
module Options {

  datatype Option<+T> = None | Some(value: T) {

    /** The carried value, or `default` when absent. */
    function GetOr(default: T): T {
      match this
      case Some(v) => v
      case None => default
    }
  }
}
