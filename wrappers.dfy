/** The Some/None datatype that stands in for JavaScript's `null`. */
module Wrappers {
  datatype Option<+T> = None | Some(value: T)
}
