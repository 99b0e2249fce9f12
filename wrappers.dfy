/** The optional value used wherever the scripts produce `null`, `undefined`, `NaN` or throw. */
module Wrappers {
  datatype Option<+T> = None | Some(value: T)
}
