/** The optional value used for `Array.prototype.find` results and for absent storage keys. */
module Wrappers {
  datatype Option<+T> = None | Some(value: T)
}
