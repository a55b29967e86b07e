/** The optional value the stepper and the resizer both use. */
module Wrappers {
  datatype Option<T> = None | Some(value: T)
}
