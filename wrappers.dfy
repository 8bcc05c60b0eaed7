/** The optional-value wrapper used where the page may hold something the model does not read. */
module Wrappers {

  datatype Option<+T> = None | Some(value: T)
}
