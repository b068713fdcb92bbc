/** The optional value used across the model: JavaScript's `undefined` is `None`. */
module Wrappers {
  datatype Option<+T> = None | Some(value: T)
}
