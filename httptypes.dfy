/** Records shared by the two HTTP clients and the HTTP mock: URLs, readers, requests,
    responses and the httpclient/call protobuf messages. */
module HttpTypes {
  import opened Errors
  import opened Wire

  /** net/http.Header and the protobuf header map: name to values. */
  type Header = map<string, seq<string>>

  /** A parsed URL: its Host component and its String() rendering. */
  datatype URL = URL(host: string, text: string)

  /** The outcome of url.Parse. */
  datatype ParseResult = ParseErr(cause: Error) | Parsed(url: URL)

  /** A URL string together with what url.Parse makes of it. */
  datatype UrlArg = UrlArg(raw: string, parse: ParseResult)

  /** An io.Reader, seen through io.ReadAll: absent (nil), or all its bytes, or a read error. */
  datatype Reader = NoReader | ReadOk(data: Bytes) | ReadErr(cause: Error)

  /** The bytes a reader that does not fail yields; a nil reader yields none. */
  function BodyBytes(r: Reader): Bytes
    requires !r.ReadErr?
  {
    if r.ReadOk? then r.data else []
  }

  /** Request: method, URL (nil-able), header and body stream. */
  datatype Request = Request(httpMethod: string, url: Option<URL>, header: Header, body: Reader)

  /** Response: status text, status code, header (nil-able) and body stream (nil-able; held as its bytes). */
  datatype Response = Response(status: string, statusCode: int, header: Option<Header>, body: Option<Bytes>)

  /** &Response{}: what the clients return beside an error. */
  const EmptyResponse: Response := Response("", 0, None, None)

  /** proto.HTTPClient, the request message of httpclient/call. */
  datatype CallRequest = CallRequest(httpMethod: string, url: string, insecure: bool, headers: Header, body: Bytes)

  /** proto.HTTPClientResponse: host status, HTTP code, headers and body. */
  datatype CallResponse = CallResponse(status: Option<Status>, code: int32, headers: Header, body: Bytes)

  /** The response body stream: set only when the payload body is non-empty. */
  function BodyOf(body: Bytes): (r: Option<Bytes>)
    ensures r.Some? <==> |body| > 0
    ensures r.Some? ==> r.value == body
  {
    if |body| > 0 then Some(body) else None
  }

  /** net/http.StatusText: the reason phrase of a status code, "" for an unknown code. */
  function StatusText(code: int): string {
    match code
    case 100 => "Continue"
    case 101 => "Switching Protocols"
    case 102 => "Processing"
    case 103 => "Early Hints"
    case 200 => "OK"
    case 201 => "Created"
    case 202 => "Accepted"
    case 203 => "Non-Authoritative Information"
    case 204 => "No Content"
    case 205 => "Reset Content"
    case 206 => "Partial Content"
    case 207 => "Multi-Status"
    case 208 => "Already Reported"
    case 226 => "IM Used"
    case 300 => "Multiple Choices"
    case 301 => "Moved Permanently"
    case 302 => "Found"
    case 303 => "See Other"
    case 304 => "Not Modified"
    case 305 => "Use Proxy"
    case 307 => "Temporary Redirect"
    case 308 => "Permanent Redirect"
    case 400 => "Bad Request"
    case 401 => "Unauthorized"
    case 402 => "Payment Required"
    case 403 => "Forbidden"
    case 404 => "Not Found"
    case 405 => "Method Not Allowed"
    case 406 => "Not Acceptable"
    case 407 => "Proxy Authentication Required"
    case 408 => "Request Timeout"
    case 409 => "Conflict"
    case 410 => "Gone"
    case 411 => "Length Required"
    case 412 => "Precondition Failed"
    case 413 => "Request Entity Too Large"
    case 414 => "Request URI Too Long"
    case 415 => "Unsupported Media Type"
    case 416 => "Requested Range Not Satisfiable"
    case 417 => "Expectation Failed"
    case 418 => "I'm a teapot"
    case 421 => "Misdirected Request"
    case 422 => "Unprocessable Entity"
    case 423 => "Locked"
    case 424 => "Failed Dependency"
    case 425 => "Too Early"
    case 426 => "Upgrade Required"
    case 428 => "Precondition Required"
    case 429 => "Too Many Requests"
    case 431 => "Request Header Fields Too Large"
    case 451 => "Unavailable For Legal Reasons"
    case 500 => "Internal Server Error"
    case 501 => "Not Implemented"
    case 502 => "Bad Gateway"
    case 503 => "Service Unavailable"
    case 504 => "Gateway Timeout"
    case 505 => "HTTP Version Not Supported"
    case 506 => "Variant Also Negotiates"
    case 507 => "Insufficient Storage"
    case 508 => "Loop Detected"
    case 510 => "Not Extended"
    case 511 => "Network Authentication Required"
    case _ => ""
  }
}
