/** The optional value of a lookup that may miss, in place of JavaScript's `undefined`. */
module Wrappers {
  datatype Option<+T> = None | Some(value: T)
}
