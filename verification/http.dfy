/** Requests and responses as the handlers and the middleware see them.
    Header names are compared exactly; the framework's case-insensitive lookup
    and the content-length / content-type headers it derives are not modelled. */
module Http {
  import opened Values

  type Headers = map<string, string>

  datatype Request = Request(headers: Headers)

  /** A response: status code, media type, headers and (unserialised) body. */
  datatype Response = Response(status: int, mediaType: string, headers: Headers, body: Json)

  const JsonMediaType: string := "application/json"

  /** `headers.get(key, default)` */
  function HeaderOr(headers: Headers, key: string, default: string): (v: string)
    ensures key in headers ==> v == headers[key]
    ensures key !in headers ==> v == default
  {
    if key in headers then headers[key] else default
  }
}
