/** The optional value used wherever the dashboard reads a value that may be absent:
    a label that pandas maps to NaN, a `next(...)` with no match, a missing column. */
module Wrappers {

  datatype Option<+T> = None | Some(value: T)
}
