/** Values shared by all modules. */
module Types {
  datatype Option<+T> = None | Some(value: T)

  datatype Result<+T, +E> = Ok(value: T) | Err(error: E)

  /** An answer of a poll. */
  datatype Poll<+T> = Pending | Ready(value: T)

  /** An answer of `poll_next`: `Ready(None)` is the end of the stream. */
  type Answer<+T> = Poll<Option<T>>

  type TryAnswer<+T, +E> = Answer<Result<T, E>>
}
