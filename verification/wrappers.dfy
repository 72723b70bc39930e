/** Optional values: a record field or request parameter that may be absent. */
module Wrappers {

  datatype Option<+T> = None | Some(value: T) {

    /** The value, or `default` when absent. */
    function GetOr(default: T): T {
      match this
      case Some(v) => v
      case None => default
    }
  }
}

/** Record ids: MongoDB ObjectIds, modelled as natural numbers. */
module Ids {
  type Id = nat
}
