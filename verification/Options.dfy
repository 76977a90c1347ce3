/** Values shared by the other modules. */
module Options {
  datatype Option<+T> = None | Some(value: T)

  datatype Result<+T, +E> = Ok(value: T) | Err(error: E)

  /** How a database statement or transaction ends for its caller: in two of the cases it raises. */
  datatype DbOutcome = Commits | RaisesBeforeCommit | RaisesAfterCommit
}
