/** Option, the value-or-nothing type used for the source's `None` results
    and for operations that raise. */
module Wrappers {

  datatype Option<+T> = None | Some(value: T)
}
