/** The optional-value datatype shared by the other modules. */
module Wrappers {

  /** `None` stands for Go's nil pointer or for a missing result. */
  datatype Option<+T> = None | Some(value: T)
}
