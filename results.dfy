/** Option and Result wrappers used for the error paths of the dataset layer
    (exceptions raised by the Python code become `Err` values). */
module Results {
  datatype Option<+T> = None | Some(value: T)

  datatype Result<+T, +E> = Ok(value: T) | Err(error: E)
}
