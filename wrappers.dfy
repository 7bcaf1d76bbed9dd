/** The optional value the sandbox's state and the engine's queries use. */
module Wrappers {
  datatype Option<+T> = None | Some(value: T)
}
