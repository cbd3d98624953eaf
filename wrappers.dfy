/** The optional-value type shared by the configuration and store modules. */
module Wrappers {

  datatype Option<+T> = None | Some(value: T)
}
