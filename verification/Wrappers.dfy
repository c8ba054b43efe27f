/** Values that may be missing: null pointers and `std::optional`. */
module Wrappers {
  datatype Option<+T> = None | Some(value: T)
}
