/** Failure-carrying values shared by every module of the model: Go's
    `(value, error)` pairs become `Result`, a bare `error` return becomes
    `Outcome`, and a possibly-nil pointer or a missing map entry becomes
    `Option`. */
module Wrappers {

  datatype Option<T> = None | Some(value: T)

  datatype Result<T, E> = Ok(value: T) | Err(error: E)

  /** `Pass` stands for a nil `error`. */
  datatype Outcome<E> = Pass | Fail(error: E)

  function Min(a: int, b: int): int
  {
    if a < b then a else b
  }

  function Max(a: int, b: int): int
  {
    if a < b then b else a
  }
}
