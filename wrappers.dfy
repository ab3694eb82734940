/** The optional-value wrapper used for role bindings and motor handles that may be unset. */
module Wrappers {

  datatype Option<+T> = None | Some(value: T)
}
