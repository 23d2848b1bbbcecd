/** The optional value of the C++ sources (std::optional). */
module Wrappers {
  datatype Option<+T> = None | Some(value: T)
}
