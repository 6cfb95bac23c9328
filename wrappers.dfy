/** Ruby's `nil`-or-value, as an explicit option. */
module Wrappers {
  datatype Option<+T> = None | Some(value: T)
}
