/** A property the caller may leave undefined. */
module Wrappers {

  datatype Option<+T> = None | Some(value: T) {

    /** What a destructuring default yields: the given value when there is
        one, `fallback` when the property was left undefined. */
    function ValueOr(fallback: T): T {
      if Some? then value else fallback
    }
  }
}
