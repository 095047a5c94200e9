/** Option, used for Go's `(value, error)` returns whose error carries no data the caller reads. */
module Wrappers {

  datatype Option<+T> = None | Some(value: T)
}
