/** The optional value the source writes as `T?`. */
module Wrappers {
  datatype Option<+T> = None | Some(value: T)
}
