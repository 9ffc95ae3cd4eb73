/** Optional values and error returns, standing in for TypeScript's
    `T | undefined` / `T | null` and for thrown errors. */
module Common {

  datatype Option<+T> = None | Some(value: T)

  datatype Result<+T, +E> = Ok(value: T) | Err(error: E)
}
