/** Failure-carrying values used by the loader: `Option` for the `ids` callback's answer,
    `Result` for a component conversion, `Outcome` for the unit-valued `Result<(), E>`
    that `deserialize_entity` and `visit_seq` return. */
module Wrappers {

  datatype Option<+T> = None | Some(value: T)

  datatype Result<+T, +E> = Ok(value: T) | Err(error: E)

  /** `Result<(), E>` of the source: success carries nothing. */
  datatype Outcome<+E> = Pass | Fail(error: E)
}
