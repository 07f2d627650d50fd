/** The optional-value datatype shared by the other modules: a Go pointer
    field that may be nil, or an error result that may be absent. */
module Wrappers {

  datatype Option<+T> = None | Some(value: T)
}
