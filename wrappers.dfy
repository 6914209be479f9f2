/** A value that may be absent: a queue receive that timed out, a packet the cloud side does not report. */
module Wrappers {
  datatype Option<+T> = None | Some(value: T)
}
