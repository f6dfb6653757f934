/** Failure-carrying values shared by every module of the model. */
module Wrappers {

  /** A value that may be absent; JavaScript's `undefined` and `null` results map to `None`. */
  datatype Option<+T> = None | Some(value: T)

  /**
   * The result of calling (and awaiting) a library or database function:
   * either the value it produced, or an exception. The exception's own text
   * is library-defined and is not modelled.
   */
  datatype Attempt<+T> = Ok(value: T) | Threw
}
