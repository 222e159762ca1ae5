/** Optional values and the two-way outcome used where the Python code either
    produces a value or raises and lets an outer `except` turn the request into
    an error reply. */
module Wrappers {

  datatype Option<+T> = None | Some(value: T)

  /** `Err` stands for an exception caught by the enclosing handler. */
  datatype Outcome<+T> = Ok(value: T) | Err(reason: string)
}
