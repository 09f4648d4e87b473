/** Optional values and the error-or-value results that stand for thrown exceptions. */
module Wrappers {

  datatype Option<+T> = None | Some(value: T)

  /** `Err(message)` is an `Error` thrown with that message. */
  datatype Result<+T> = Ok(value: T) | Err(message: string)

  /** JavaScript truthiness of a request field that may be absent: present and non-empty. */
  predicate Truthy(field: Option<string>) {
    field.Some? && field.value != ""
  }
}
