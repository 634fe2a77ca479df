/** Option and reply types used throughout the model. */
module Wrappers {

  datatype Option<+T> = None | Some(value: T)

  /** The outcome of one network round trip as the component observes it:
      the promise either rejected (transport error, parse error) or resolved. */
  datatype Reply<+T> = Failed | Ok(value: T)
}
