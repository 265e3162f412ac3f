/** An optional value, used for "no such index". */
module Wrappers {
  datatype Option<+T> = None | Some(value: T)
}
