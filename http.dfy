/**
 * The HTTP vocabulary shared by the gateway's handlers and its CouchDB client: status
 * codes and their display, headers, and responses with a text or byte body.
 */
module Http {
  import opened Common

  /** A status code as the `http` crate admits it: three decimal digits. */
  type StatusCode = n: int | 100 <= n <= 999 witness 200

  const OK: StatusCode := 200
  const CREATED: StatusCode := 201
  const NO_CONTENT: StatusCode := 204
  const NOT_FOUND: StatusCode := 404
  const PRECONDITION_FAILED: StatusCode := 412
  const INTERNAL_SERVER_ERROR: StatusCode := 500
  const BAD_GATEWAY: StatusCode := 502
  const GATEWAY_TIMEOUT: StatusCode := 504

  /** `StatusCode::is_success`: the 2xx range. */
  predicate IsSuccess(s: StatusCode) {
    200 <= s <= 299
  }

  /** The canonical reason phrase of the registered codes. */
  function CanonicalReason(s: StatusCode): Option<string> {
    match s
    case 100 => Some("Continue")
    case 101 => Some("Switching Protocols")
    case 102 => Some("Processing")
    case 200 => Some("OK")
    case 201 => Some("Created")
    case 202 => Some("Accepted")
    case 203 => Some("Non Authoritative Information")
    case 204 => Some("No Content")
    case 205 => Some("Reset Content")
    case 206 => Some("Partial Content")
    case 207 => Some("Multi-Status")
    case 208 => Some("Already Reported")
    case 226 => Some("IM Used")
    case 300 => Some("Multiple Choices")
    case 301 => Some("Moved Permanently")
    case 302 => Some("Found")
    case 303 => Some("See Other")
    case 304 => Some("Not Modified")
    case 305 => Some("Use Proxy")
    case 307 => Some("Temporary Redirect")
    case 308 => Some("Permanent Redirect")
    case 400 => Some("Bad Request")
    case 401 => Some("Unauthorized")
    case 402 => Some("Payment Required")
    case 403 => Some("Forbidden")
    case 404 => Some("Not Found")
    case 405 => Some("Method Not Allowed")
    case 406 => Some("Not Acceptable")
    case 407 => Some("Proxy Authentication Required")
    case 408 => Some("Request Timeout")
    case 409 => Some("Conflict")
    case 410 => Some("Gone")
    case 411 => Some("Length Required")
    case 412 => Some("Precondition Failed")
    case 413 => Some("Payload Too Large")
    case 414 => Some("URI Too Long")
    case 415 => Some("Unsupported Media Type")
    case 416 => Some("Range Not Satisfiable")
    case 417 => Some("Expectation Failed")
    case 418 => Some("I'm a teapot")
    case 421 => Some("Misdirected Request")
    case 422 => Some("Unprocessable Entity")
    case 423 => Some("Locked")
    case 424 => Some("Failed Dependency")
    case 426 => Some("Upgrade Required")
    case 428 => Some("Precondition Required")
    case 429 => Some("Too Many Requests")
    case 431 => Some("Request Header Fields Too Large")
    case 451 => Some("Unavailable For Legal Reasons")
    case 500 => Some("Internal Server Error")
    case 501 => Some("Not Implemented")
    case 502 => Some("Bad Gateway")
    case 503 => Some("Service Unavailable")
    case 504 => Some("Gateway Timeout")
    case 505 => Some("HTTP Version Not Supported")
    case 506 => Some("Variant Also Negotiates")
    case 507 => Some("Insufficient Storage")
    case 508 => Some("Loop Detected")
    case 510 => Some("Not Extended")
    case 511 => Some("Network Authentication Required")
    case _ => None
  }

  /** `Display` of a status code: the number, a space, and the reason phrase. */
  function StatusDisplay(s: StatusCode): (r: string)
    ensures StartsWith(r, NatToString(s) + " ")
  {
    NatToString(s) + " " + CanonicalReason(s).GetOr("<unknown status code>")
  }

  datatype Header = Header(name: string, value: string)

  datatype Body =
    | Text(text: string)
    | Bytes(bytes: seq<byte>)

  datatype Response = Response(status: StatusCode, headers: seq<Header>, body: Body)

  const ContentTypeJson: Header := Header("content-type", "application/json")

  /** A response whose body is JSON text, labelled as such. */
  function JsonResponse(status: StatusCode, text: string): (r: Response)
    ensures r.status == status && r.body == Text(text) && ContentTypeJson in r.headers
  {
    Response(status, [ContentTypeJson], Text(text))
  }
}
