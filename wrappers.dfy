/** The absent-or-present value the model uses where the program returns `null`. */
module Wrappers {

  datatype Option<+T> = None | Some(value: T)
}
