/** Optional values, for JavaScript's `undefined`/`null` results. */
module Wrappers {
  datatype Option<T> = None | Some(value: T) {
    /** `x ?? d` */
    function GetOr(d: T): T {
      if Some? then value else d
    }
  }

  /** The outcome of a call that may throw in the source. */
  datatype Outcome = Done | Thrown
}
