/** Option and Result, the two wrappers the model uses for Rust's `Option` and
    `Result`/`PyResult` (and Python's "found / not found" checks). */
module Common {

  datatype Option<+T> = None | Some(value: T)

  /** `Err` carries the error message the source passes to `anyhow!` or
      `PyValueError::new_err`. */
  datatype Result<+T> = Ok(value: T) | Err(msg: string)

  /** An (a, b) pair of integer token ids, the key type of the BPE maps. */
  type Pair = (int, int)
}
