/** Small result types shared by the whole model. */
module Wrappers {

  datatype Option<+T> = None | Some(value: T)

  /** What a route handler answers: a success status with a body, or an
      error status with the handler's message. */
  datatype Reply<+T> = Ok(code: int, value: T) | Fail(code: int, message: string)
  {
    predicate IsOk() { Ok? }
  }
}
