/** An optional value: the model's stand-in for JavaScript's `undefined` result of `Array.find`. */
module Wrappers {
  datatype Option<+T> = None | Some(value: T)
}
