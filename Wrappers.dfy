/** Option: a value that may be absent (JavaScript's NaN from parseInt, an unselected radio button). */
module Wrappers {

  datatype Option<+T> = None | Some(value: T)
}
