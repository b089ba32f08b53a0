/** Values shared by the grid tools and the adapter: optional values (Python's
    `None`), the exceptions the code raises, and results that carry them. */
module Common {

  /** A Python value that may be `None`. */
  datatype Option<+T> = None | Some(value: T)

  /** The exceptions raised by the modelled code, with the data they carry. */
  datatype Error =
    | ValueError(message: string)
    | KeyError(key: int)
    | IndexError(message: string)
    | NotImplementedError(message: string)

  /** Either a value or the exception that the Python code raises instead. */
  datatype Result<+T> = Ok(value: T) | Err(error: Error) {
    predicate IsFailure() { Err? }

    function PropagateFailure<U>(): Result<U>
      requires Err?
    {
      Err(error)
    }

    function Extract(): T
      requires Ok?
    {
      value
    }
  }
}
