/** Values that may be absent: an input the form left empty, or a field a
    partial product record does not carry. */
module Wrappers {

  datatype Option<+T> = None | Some(value: T) {

    /** JavaScript's `x || fallback` on a field that may be absent. */
    function GetOr(fallback: T): T {
      if Some? then value else fallback
    }
  }
}
