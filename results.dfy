/** Option and the Python exceptions the core can raise, as return values. */
module Results {

  datatype Option<+T> = None | Some(value: T)

  /** The built-in exceptions raised by the package index and the field copier. */
  datatype Error =
    | IndexError   // list position out of range
    | KeyError     // full name absent from the index
    | TypeError    // unsupported key type, unhashable key, or a value that is not a container
    | ValueError   // slice step of zero

  datatype Result<+T> = Ok(value: T) | Err(error: Error)
}
