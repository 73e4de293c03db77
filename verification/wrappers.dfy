/** An optional value, such as a sensor reading that may be missing. */
module Wrappers {
  datatype Option<+T> = None | Some(value: T)
}
