module Wrappers {
  datatype Option<+T> = None | Some(value: T)

  datatype Result<+T, +E> = Ok(value: T) | Err(error: E)

  function OrElse<T>(a: Option<T>, default: T): T {
    if a.Some? then a.value else default
  }
}
