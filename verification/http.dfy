/** Route handler responses. */
module Http {
  import opened Js

  datatype Response =
    | Json(status: int, body: Value)
    /** A plain-text body. */
    | Text(status: int, text: string)
    /** A plain-text body holding the message of a caught exception, which is not modelled. */
    | ErrorText(status: int)
  {
    function Status(): int {
      match this
      case Json(s, _) => s
      case Text(s, _) => s
      case ErrorText(s) => s
    }
  }

  /** `NextResponse.json({error: message}, {status})` */
  function Error(status: int, message: string): Response {
    Json(status, Obj(map["error" := Str(message)]))
  }
}
