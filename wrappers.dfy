/** Option and Result, used for the pipeline's fallible inputs and outputs. */
module Wrappers {

  datatype Option<+T> = None | Some(value: T) {
    /** The encapsulated value, or `default` when there is none (Python's `d.get(k, default)`). */
    function GetOr(default: T): T {
      match this
      case Some(v) => v
      case None => default
    }
  }

  /** A value or an error text (the exception's message). */
  datatype Result<+T, +E> = Success(value: T) | Failure(error: E)

  /** A language-model call: the text it answered, or the text of the exception it raised. */
  datatype Chat = Answered(text: string) | Raised(detail: string)
}
