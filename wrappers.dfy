/** The absence value used where the solver returns null. */
module Wrappers {
  datatype Option<+T> = None | Some(value: T)
}
