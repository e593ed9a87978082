/** The optional-value datatype used for the VOQ's single flush timer. */
module Wrappers {

  /** Either nothing, or one value. */
  datatype Option<+T> = None | Some(value: T)
}
