/** The optional-value datatype shared by the engine's lookups and entity fields. */
module Wrappers {

  /** A value that may be absent: Python's `None` versus an actual object. */
  datatype Option<+T> = None | Some(value: T)
}
