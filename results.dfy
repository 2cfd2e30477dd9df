/**
 * Failure-compatible wrappers shared by the model.
 *
 * The Go tool has no error values on these paths: where it would index past
 * the end of a field slice it panics. The model reports those places as
 * `Err`, naming the line of the recipe or the row of the engine listing at
 * which the scan would have stopped.
 */
module Results {

  datatype Option<+T> = None | Some(value: T)

  /** Why an operation of the model stops where the tool would panic. */
  datatype Fault =
    /** A recipe line carries a tag but has no field after it. */
    | MalformedAnnotation(line: nat)
    /** A listing row printed by the engine has fewer fields than the scan reads. */
    | MalformedRow(row: nat)

  datatype Result<+T> = Ok(value: T) | Err(error: Fault)
}
