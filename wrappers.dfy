/** The optional value used for JavaScript's `null`/`undefined` where the page distinguishes them. */
module Wrappers {
  datatype Option<+T> = None | Some(value: T)
}
