/** The one failure the modelled core can raise. */
module Errors {

  /** Outcome of an operation that either yields a value or raises IndexError. */
  datatype Result<T> = Ok(value: T) | IndexError
}
