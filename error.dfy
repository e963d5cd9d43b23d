/** The library's error kinds, the `Result` every fallible builder returns, and Rust's `Option`. */
module Errors {

  /** One constructor per error variant; `FieldValueNotMatch` carries the column count and the record length. */
  datatype Error =
    | NoUpdateFields
    | NoUpdateConditions
    | NoInsertFields
    | NoInsertValues
    | FieldValueNotMatch(fields: nat, values: nat)
    | NoDeleteConditions
    | NoOrderByClause

  datatype Result<+T> = Ok(value: T) | Err(error: Error)

  datatype Option<+T> = None | Some(value: T)
}
