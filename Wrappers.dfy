/** The optional value used where JavaScript yields NaN or an effect does nothing. */
module Wrappers {
  datatype Option<+T> = None | Some(value: T)
}
