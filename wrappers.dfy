/** The optional-value type used wherever the source yields `undefined` or a lookup can miss. */
module Wrappers {

  datatype Option<+T> = None | Some(value: T)
}
