/** Option type used for values the planning system may leave undefined
    (a null reference, a nullable integer, or a NaN coordinate). */
module Wrappers {
  datatype Option<+T> = None | Some(value: T)
}
