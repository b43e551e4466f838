/** The usual optional-value datatype; `None` plays the part of PHP's `null` result. */
module Wrappers {
  datatype Option<+T> = None | Some(value: T)
}
