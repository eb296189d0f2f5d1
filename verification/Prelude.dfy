/** Result types shared by every component. */
module Prelude {

  datatype Option<+T> = None | Some(value: T)

  /** What a step of the original either returns or throws. */
  datatype Result<+T, +E> = Ok(value: T) | Err(error: E)
}
