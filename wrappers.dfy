/** Go's nil-able pointers and `error` values are modelled as options. */
module Wrappers {
  datatype Option<+T> = None | Some(value: T)
}
