/** The optional value used wherever the Go code has a nil value or an ok flag. */
module Wrappers {
  datatype Option<+T> = None | Some(value: T)
}
