/** The request and response records of the core and how a request is built
    (`_url`, `_Request`, `_Response`, `_prepare_request`). */
module Wire {
  import opened Values

  const BaseUrl: string := "https://notify.eskiz.uz/api"

  /** `_url`: the service's base URL followed by the path. */
  function Url(path: string): (u: string)
    ensures |u| == |BaseUrl| + |path|
    ensures u[..|BaseUrl|] == BaseUrl
    ensures u[|BaseUrl|..] == path
  {
    BaseUrl + path
  }

  /** `_Request`: what is handed to the transport. `data` and `headers` are
      `None` unless given. */
  datatype HttpRequest = HttpRequest(
    verb: string,
    url: string,
    data: Option<map<string, Json>>,
    headers: Option<map<string, string>>)

  /** `_prepare_request`: a request for `path` relative to the base URL. */
  function PrepareRequest(verb: string, path: string,
                          data: Option<map<string, Json>>,
                          headers: Option<map<string, string>>): (r: HttpRequest)
    ensures r.verb == verb && r.data == data && r.headers == headers
    ensures |r.url| == |BaseUrl| + |path|
    ensures r.url[..|BaseUrl|] == BaseUrl && r.url[|BaseUrl|..] == path
  {
    HttpRequest(verb, Url(path), data, headers)
  }

  /** The body of a transport response: JSON that `r.json()` parsed, or text
      on which it raised `JSONDecodeError`. */
  datatype Body = Parsed(json: Json) | Unparsed(text: string)

  /** One response of the transport, not yet classified. */
  datatype RawReply = RawReply(statusCode: int, body: Body)

  /** `_Response`: a classified response. */
  datatype Response = Response(statusCode: int, data: Json, tokenExpired: bool)

  /** The statuses the service uses for success. */
  predicate IsSuccess(code: int) {
    code == 200 || code == 201
  }
}
