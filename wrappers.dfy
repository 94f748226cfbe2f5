/** The optional value the model uses for Python's `None`, JavaScript's
    `null`/`undefined`, and absent dictionary keys; and the outcome of a
    browser function that either returns a value or throws. */
module Wrappers {
  datatype Option<T> = None | Some(value: T)

  /** A returned value, or the name of the exception thrown instead. */
  datatype Outcome<T> = Returns(value: T) | Throws(error: string)
}
