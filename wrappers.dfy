/** The optional value used where the source returns `None` or a placeholder. */
module Wrappers {

  datatype Option<+T> = None | Some(value: T)
}
