/** Go's `error` values as the core uses them: a nil error is `None`. */
module Errors {

  datatype Option<+T> = None | Some(value: T)

  /** The package's sentinel errors that the modelled code returns, and any other error by its text. */
  datatype Error =
    | ErrEmptyName        // "name field is required"
    | ErrSvcInit          // "service was not initialized"
    | Message(text: string)
}
