/** Result shapes shared by every module. */
module Prelude {

  datatype Option<+T> = None | Some(value: T)

  /** What a call yields: a value, or the text of the exception it raised. */
  datatype Outcome<+T> = Ok(value: T) | Raised(error: string)
}
