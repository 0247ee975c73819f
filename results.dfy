/** Optional values and outcomes used throughout the model: `null`/`undefined`
    becomes None, a thrown error becomes Err. */
module Results {

  datatype Option<+T> = None | Some(value: T)

  datatype Result<+T, +E> = Ok(value: T) | Err(error: E)
}
