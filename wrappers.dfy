/** Option: a value that may be absent (a Go nil pointer, a nil error). */
module Wrappers {

  datatype Option<+T> = None | Some(value: T)

}
