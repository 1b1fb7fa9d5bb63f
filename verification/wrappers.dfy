/** Optional values, used for the C# string fields that may hold null. */
module Wrappers {

  datatype Option<+T> = None | Some(value: T) {

    /** The wrapped value, or `default` when there is none. */
    function GetOr(default: T): T {
      match this
      case Some(v) => v
      case None => default
    }

    /** This value when present, otherwise `other`: "the later source wins, else fall back". */
    function Or(other: Option<T>): Option<T> {
      match this
      case Some(_) => this
      case None => other
    }
  }
}
