/** Option, the only wrapper type the model needs. */
module Wrappers {
  datatype Option<+T> = None | Some(value: T)
}
