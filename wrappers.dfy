/** The option type used for error results across the model. */
module Wrappers {

  datatype Option<+T> = None | Some(value: T)
}
