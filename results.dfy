/** Option and Result, the shapes used for the source's missing-key and
    exhausted-supply outcomes. */
module Results {

  datatype Option<+T> = None | Some(value: T)

  datatype Result<+T, +E> = Ok(value: T) | Err(error: E)
}
