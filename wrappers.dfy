/** Option, the usual Some/None wrapper: stands for JavaScript's `undefined` (an absent field). */
module Wrappers {
  datatype Option<+T> = None | Some(value: T)
}
