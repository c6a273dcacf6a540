/** Option and Result: the model's replacement for NaN/NaT values and for the
    exceptions that the pipeline's single `try` block turns into a message. */
module Results {

  datatype Option<+T> = None | Some(value: T)

  datatype Result<+T, +E> = Ok(value: T) | Err(error: E)
}
