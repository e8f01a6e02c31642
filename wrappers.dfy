/** Option, the optional value the model uses for absent results and nil errors. */
module Wrappers {

  datatype Option<+T> = None | Some(value: T)
}
