/** Optional values and the two kinds of failure a transform can meet. */
module Results {

  datatype Option<+T> = None | Some(value: T) {
    function GetOr(default: T): T {
      match this
      case Some(v) => v
      case None => default
    }
  }

  /** A `HandlebarsFailure` stands for a `HandlebarsException` (the only exception the
      transformer catches); an `OtherFailure` stands for any other runtime exception,
      which escapes the transformer. */
  datatype Failure = HandlebarsFailure(message: string) | OtherFailure(message: string)

  datatype Result<+T> = Ok(value: T) | Err(failure: Failure)
}
