/** Stock option type, used for Go pointers that may be nil. */
module Wrappers {

  datatype Option<+T> = None | Some(value: T)

}
