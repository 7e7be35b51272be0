/** Values that cross the boundary between the library and the network:
    decoded JSON, the errors the library returns, the outcome of one HTTP
    round trip, and the GET requests it issues. */
module Wire {

  /** A decoded JSON document. Numbers are whole numbers (see README). */
  datatype JValue =
    | JNull
    | JBool(b: bool)
    | JNum(n: int)
    | JStr(s: string)
    | JArr(items: seq<JValue>)
    | JObj(fields: map<string, JValue>)

  datatype Option<+T> = None | Some(value: T)

  /** The error values the library hands back, and the runtime panic it can raise. */
  datatype Error =
      /** an error produced by net/http, io or encoding/json, passed on unchanged */
    | Transport(detail: string)
      /** encoding/json met a JSON value of the wrong kind for its Go target */
    | UnmarshalType(target: string)
      /** errors.New(message) */
    | Failure(message: string)
      /** fmt.Errorf("error #%d: %s", code, message) */
    | Api(code: int, message: string)
      /** a Go runtime panic: the call does not return at all */
    | Panic(cause: string)

  datatype Result<+T> = Ok(value: T) | Err(error: Error)

  /** The outcome of one HTTP GET whose body is then decoded as JSON into a T:
      either a failure of the request, of reading the body or of parsing it,
      or the decoded value. */
  datatype Reply<+T> = Failed(error: Error) | Received(value: T)

  /** One HTTP GET: the URL up to the '?', and the query parameters (each
      parameter carries exactly one value). */
  datatype Get = Get(address: string, query: map<string, string>)
}
