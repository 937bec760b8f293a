/** Values shared by the whole model: optional request fields and handler outcomes. */
module Base {

  /** A JavaScript value that is either a string or `undefined`. */
  datatype Option<+T> = None | Some(value: T)

  /** Why a request handler produced no ordinary response. */
  datatype Failure =
    | NotFound              // readFileSync on a path that was never written
    | WriteFailure          // writeFileSync into a directory that does not exist
    | InvalidPathArgument   // path.join given `undefined` as a segment

  datatype Result<+T> = Ok(value: T) | Err(error: Failure)

  /** How a template literal or `+` renders a value that may be `undefined`. */
  function JsText(v: Option<string>): string
  {
    match v
    case Some(t) => t
    case None => "undefined"
  }
}
