/** The one helper type that all parts of the model share. */
module Wrappers {
  datatype Option<+T> = None | Some(value: T)
}
