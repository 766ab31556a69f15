/** The optional value of a variable that may still be unset (`null` or `undefined`). */
module Wrappers {
  datatype Option<+T> = None | Some(value: T)
}
