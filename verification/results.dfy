/** Success-or-error values for the operations that throw in the source, and
    optional values for JavaScript's `null`/`undefined`. */
module Results {

  datatype Result<+T, +E> = Ok(value: T) | Err(error: E) {
    predicate IsFailure() {
      Err?
    }

    function PropagateFailure<U>(): Result<U, E>
      requires Err?
    {
      Err(error)
    }

    function Extract(): T
      requires Ok?
    {
      value
    }
  }

  datatype Option<+T> = None | Some(value: T)

  /** Why reading pixels failed. `EmptyImage` is the canvas refusing a
      zero-width or zero-height `getImageData` call; `Undecodable` is the
      browser failing to load the file as an image. */
  datatype ImageError = EmptyImage | Undecodable
}
