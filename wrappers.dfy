/** The optional value used for the command the handler queues, if any. */
module Wrappers {
  datatype Option<+T> = None | Some(value: T)
}
