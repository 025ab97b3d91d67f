/** `AppError` and `AppResult<T>` of rust/sample3.rs. */
module Errors {
  import opened Variants

  /** The application's recoverable errors, each with a message. */
  datatype AppError = NotFound(msg: string) | InvalidInput(msg: string) | IoError(msg: string)

  /** `AppResult<T>`: a result whose error is an `AppError`. */
  type AppResult<T> = Result<T, AppError>
}
