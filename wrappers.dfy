/** The optional-value wrapper used for the source's `undefined` and `null` values. */
module Wrappers {

  datatype Option<+T> = None | Some(value: T)
}
