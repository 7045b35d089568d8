/** The HTTP results that the controllers' actions build (ASP.NET Core's
    `Ok`, `BadRequest`, `NotFound`, `Unauthorized` and `Content` helpers). */
module ActionResults {
  import opened Outcomes

  datatype Response<+B> =
    | Ok(body: B)                        // Ok(value): 200 with a body
    | OkEmpty                            // Ok(): 200 without a body
    | BadRequest(message: Option<string>) // BadRequest() or BadRequest(message): 400
    | NotFound                           // 404
    | Unauthorized                       // 401
    | Content(text: string)              // Content(text): 200, plain text

  /** The status code each result is sent with. */
  function StatusCode<B>(r: Response<B>): int
  {
    match r
    case Ok(_) => 200
    case OkEmpty => 200
    case Content(_) => 200
    case BadRequest(_) => 400
    case NotFound => 404
    case Unauthorized => 401
  }
}
