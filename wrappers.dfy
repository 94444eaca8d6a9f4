/** Success-or-failure values. Every fallible operation of the compiler returns one of
    these instead of throwing, as the source's `X | ParseError` / `X | TranspileError`
    unions do. */
module Wrappers {

  datatype Option<+T> = None | Some(value: T)

  datatype Result<+T, +E> = Ok(value: T) | Err(error: E)

  /** `undefined | TranspileError`, the result of `EnvF.set`. */
  datatype Outcome<+E> = Pass | Fail(error: E)
}
