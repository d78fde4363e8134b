/** Option: a JavaScript value that may be `undefined` (or a lookup that may find nothing). */
module Wrappers {

  datatype Option<+T> = None | Some(value: T)
}
