/** The optional value used where the source has `undefined`, an optional
    property or `NaN`. */
module Wrappers {
  datatype Option<+T> = None | Some(value: T)
}
