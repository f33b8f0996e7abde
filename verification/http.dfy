/** What a FastAPI handler hands back to the client. */
module Http {

  /** A failed request: an `HTTPException` raised by the handler (its status code
      and `detail`), or any other exception escaping it, which the framework turns
      into a plain 500 "Internal Server Error". */
  datatype Error = HttpException(status: int, detail: string) | Unhandled

  /** The JSON body of a 200 response, or the error that replaced it. */
  datatype Response<+T> = Ok(body: T) | Err(error: Error)

  /** The HTTP status code the client receives. */
  function Status<T>(r: Response<T>): int
  {
    match r
    case Ok(_) => 200
    case Err(HttpException(status, _)) => status
    case Err(Unhandled) => 500
  }
}
