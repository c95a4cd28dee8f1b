/** Option, the value-or-nothing datatype used for Go's nil results and JS's missing values. */
module Wrappers {
  datatype Option<+T> = None | Some(value: T)
}
