/** The values that travel through one request: JSON bodies, the request
    configuration each stage hands on, the response envelope, and the two
    shapes a rejection takes. */
module HttpTypes {
  import opened Wrappers

  type Headers = map<string, string>

  /** A JSON value, as `JSON.parse` yields it (numbers restricted to integers). */
  datatype Json =
    | JNull
    | JBool(b: bool)
    | JNumber(n: int)
    | JString(s: string)
    | JArray(items: seq<Json>)
    | JObject(fields: map<string, Json>)

  /** JavaScript truthiness of a JSON value. */
  predicate Truthy(j: Json) {
    match j
    case JNull => false
    case JBool(b) => b
    case JNumber(n) => n != 0
    case JString(s) => s != ""
    case JArray(_) => true
    case JObject(_) => true
  }

  /** A response body: the parsed JSON, or the raw text when it did not parse. */
  datatype Body = Parsed(json: Json) | RawText(text: string)

  /** The request configuration each stage receives and hands on. The two
      monitoring stamps are the `_requestStartTime` and `_requestId`
      properties the monitoring request interceptor adds. */
  datatype RequestConfig = RequestConfig(
    url: string,
    httpMethod: string,
    headers: Headers,
    data: Option<Json>,
    requestStartTime: Option<int>,
    requestId: Option<string>)

  /** The response object built by either transport; `duration` is set by
      the monitoring response interceptor. */
  datatype Response = Response(
    data: Body,
    status: int,
    statusText: string,
    headers: Headers,
    config: RequestConfig,
    duration: Option<int>)

  /** A rejection value. `WithResponse` is `{response, message, config}`, the
      HTTP-status error; `WithoutResponse` is `{message, config}`, what every
      other failure after the transport is reduced to; `Thrown` is an `Error`
      object raised by code (a missing config, a crypto failure, an
      interceptor, a rejected `fetch`). */
  datatype Failure =
    | WithResponse(response: Response, message: string, config: RequestConfig, duration: Option<int>)
    | WithoutResponse(message: string, config: RequestConfig, duration: Option<int>)
    | Thrown(name: string, message: string)

  /** How a promise ends: resolved, rejected, or never settled. */
  datatype Outcome = Fulfilled(response: Response) | Rejected(failure: Failure) | Unsettled
}
