/** Option, for JSON fields that may be absent and fetches that may fail. */
module Wrappers {

  datatype Option<T> = None | Some(value: T) {

    /** The value, or `default` when there is none (Python's `d.get(key, default)`). */
    function GetOrElse(default: T): T {
      match this
      case Some(v) => v
      case None => default
    }
  }
}
