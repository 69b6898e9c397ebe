/** Values that may be absent: the optional fields and `undefined` results of the source. */
module Wrappers {
  datatype Option<T> = None | Some(value: T) {
    /** JavaScript's `this ?? fallback`. */
    function Or(fallback: T): T {
      if Some? then value else fallback
    }

    /** JavaScript's `this ?? other`, where the right side may be absent too. */
    function OrElse(other: Option<T>): Option<T> {
      if Some? then this else other
    }
  }
}
