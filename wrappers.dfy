/** Failure values for the exceptions and promise rejections of the core, and the
    Option / Result / Outcome wrappers that carry them. */
module Wrappers {

  datatype Option<+T> = None | Some(value: T)

  /** How an operation of the core can end abnormally. */
  datatype Failure =
    | Thrown(message: string)   // `throw new Error(message)`
    | Rejected(reason: string)  // a promise rejected with a bare string
    | RangeError                // a typed-array view outside its buffer
    | TypeError                 // a property read on `null`
    | NetworkError              // `fetch` rejected

  datatype Result<+T> = Ok(value: T) | Err(failure: Failure)

  /** The outcome of an operation that returns nothing. */
  datatype Outcome = Done | Fail(failure: Failure)
}
