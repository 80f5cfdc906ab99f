/** The optional-value type used by the decode oracles of the model. */
module Wrappers {

  datatype Option<+T> = None | Some(value: T)
}
