/**
 What the SDK hands to, and receives from, the HTTP client library and
 json_decode. The transport itself is not modelled: a request is a value the
 SDK builds, and the transport's answer is a value the caller supplies.
 */
module Http {

  datatype Option<+T> = None | Some(value: T)

  datatype Verb = Get | Post

  /** A header name and its value. */
  type Header = (string, string)

  /** Form fields (POST) or query parameters (GET), in order. */
  type Params = seq<(string, string)>

  /** One request as it would leave the SDK. */
  datatype Request = Request(verb: Verb, url: string, headers: seq<Header>, params: Params)

  /** The result of json_decode on a response body, reduced to what the SDK
      inspects: whether PHP's empty() holds of it, and otherwise the value of
      its `token` member when that member is set (present and not null). */
  datatype Decoded = Empty | NonEmpty(token: Option<string>)

  /** What the transport reports for one request: its error flag raised,
      with the error code (an HTTP status or a transport error number) and
      message, or a response whose body decodes to `body`. */
  datatype Outcome =
    | Failed(code: int, message: string)
    | Succeeded(body: Decoded)
}
