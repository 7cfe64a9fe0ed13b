/** Failure-carrying values shared by the whole model.

    Python signals failure by raising; the model returns `Err` with the
    exception class and message the code would raise instead.
 */
module Results {

  /** A value that may be absent (Python's `None`). */
  datatype Option<+T> = None | Some(value: T) {

    /** The value, or `default` when absent (`d.get(key, default)`). */
    function GetOr(default: T): T {
      match this
      case Some(v) => v
      case None => default
    }
  }

  /** The Python exceptions the modelled code can raise. */
  datatype Error =
    | NotImplementedError(message: string)
    | ValueError(message: string)
    | AttributeError(message: string)
    | TypeError(message: string)

  /** Either a value or the exception that was raised instead. */
  datatype Result<+T> = Ok(value: T) | Err(error: Error)
}
