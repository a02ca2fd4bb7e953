/** The optional-value datatype used for request fields and bound parameters. */
module Wrappers {

  /** `None` stands for a JavaScript `undefined`: a field the request did not carry. */
  datatype Option<+T> = None | Some(value: T)
}
