/** The optional value the enum engine returns everywhere (`std::optional`). */
module Wrappers {
  datatype Option<+T> = None | Some(value: T)
}
