/** The optional-value wrapper used across the middleware models. */
module Wrappers {

  datatype Option<+T> = None | Some(value: T)
}
