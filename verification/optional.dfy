/** The two shapes JavaScript code expresses with `null`/`undefined` and with
    a thrown `Error`. */
module Optional {

  /** A value that may be absent (`T | null` or an optional property). */
  datatype Option<T> = None | Some(value: T)

  /** The outcome of a call that either returns a value or throws an error
      carrying a message. */
  datatype Result<T> = Ok(value: T) | Err(message: string)
}
