/** The optional-value type used wherever the source has `None`, `null`,
    `undefined` or a lookup that may find nothing. */
module Wrappers {
  datatype Option<+T> = None | Some(value: T)
}
