/** Optional values: how the model represents a JSON key that may be absent. */
module Wrappers {

  /** `None` stands for an absent key, `Some(v)` for a key present with value `v`. */
  datatype Option<+T> = None | Some(value: T) {

    /** The value, or `default` when absent: the `.get(key, default)` idiom. */
    function GetOr(default: T): T {
      match this
      case Some(v) => v
      case None => default
    }
  }
}
