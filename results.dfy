/** Option and Result values shared by the modules of this project. A thrown JavaScript
    error is an `Err` carrying the error's message. */
module Results {

  datatype Option<T> = None | Some(value: T)

  datatype Result<T> = Ok(value: T) | Err(message: string)
}
