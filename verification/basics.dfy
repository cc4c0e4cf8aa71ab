/** Failure-carrying datatypes shared by both service variants, and Python's
    truthiness of an optional text field. */
module Basics {

  /** A value that may be absent, like a `dict.get` that found nothing. */
  datatype Option<+T> = None | Some(value: T)

  /** The outcome of an operation: a value, or the kind of failure. */
  datatype Result<+T, +E> = Ok(value: T) | Err(error: E)

  /** `not field` is false in Python exactly when the field is present and
      not the empty string. */
  predicate Truthy(field: Option<string>)
  {
    field.Some? && field.value != ""
  }
}
