/** Option: the model's way of saying that the C++ code would read outside a
    container or compute a not-a-number where it returns a value. */
module Wrappers {
  datatype Option<+T> = None | Some(value: T)
}
