/** Error-carrying results shared by the codec modules. A Go function that
    returns `(T, error)` is modelled as a `Result<T>`: `Err` carries the error
    text and, as in the source, no partial value. A Go pointer that may be nil
    is modelled as an `Option`. */
module Results {

  datatype Option<T> = None | Some(value: T)

  datatype Result<T> = Ok(value: T) | Err(error: string)
}
