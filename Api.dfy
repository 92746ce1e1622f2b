/** The request layer of the client: how API URLs are completed and how a
    response of the CloudConvert API is judged a success or a failure. */
module Api {
  import opened Wrappers
  import opened Values

  const ApiProtocol := "https"
  const ApiHost := "api.cloudconvert.com"
  /** The prefix a path relative to the API host receives. */
  const ApiRoot := "https://api.cloudconvert.com"

  /** `NSURLErrorCancelled`: the code a cancelled URL task completes with. */
  const NSURLErrorCancelled := -999

  /** The errors the client hands to its completion handlers. */
  datatype Error =
      /** an `NSError` of the URL loading system, passed on unchanged */
    | TransportError(code: int)
      /** an `NSError` of the JSON serializer, passed on unchanged */
    | ParseError(code: int)
      /** a non-2xx response: its status code and the server's reason */
    | StatusError(code: int, reason: string)
      /** a decodable body that came without an HTTP response */
    | SerializationError(reason: string)
      /** an error of the `com.cloudconvert.error` domain */
    | ProcessError(code: int, description: Option<string>)

  datatype HttpResponse = HttpResponse(statusCode: int)

  const NilResponseReason := "Response collection could not be serialized due to nil response"
  const UnknownReason := "Unknown error"

  /** The URL a request goes to: a protocol-relative `//host/...` URL gets the API
      protocol, a path gets the API host, and a full `http...` URL is kept.  Every
      result is a full `http...` URL. */
  function Normalize(url: string): (r: string)
    ensures "//" <= url ==> r == "https:" + url
    ensures !("//" <= url) && !("http" <= url) ==> r == ApiRoot + url
    ensures "http" <= url ==> r == url
    ensures "http" <= r
  {
    if "//" <= url then
      assert url[0] == '/';
      "https:" + url
    else if !("http" <= url) then
      ApiRoot + url
    else
      url
  }

  /** Normalising a URL twice gives the same request URL as normalising it once. */
  lemma NormalizeIdempotent(url: string)
    ensures Normalize(Normalize(url)) == Normalize(url)
  {
  }

  /** A relative path is always sent to the API host. */
  lemma NormalizePathGoesToApiHost(path: string)
    requires "/" <= path && !("//" <= path)
    ensures Normalize(path) == ApiRoot + path
    ensures ApiRoot <= Normalize(path)
  {
    assert path[0] == '/';
  }

  /** The reason the server gives for a failure: the body's `error` string, else
      its `message` string, else "Unknown error". */
  function FailureReason(body: Value): (reason: string)
    ensures AsString(Field(body, "error")).Some? ==> reason == AsString(Field(body, "error")).value
    ensures AsString(Field(body, "error")).None? && AsString(Field(body, "message")).Some? ==>
              reason == AsString(Field(body, "message")).value
    ensures AsString(Field(body, "error")).None? && AsString(Field(body, "message")).None? ==>
              reason == UnknownReason
  {
    match AsString(Field(body, "error"))
    case Some(e) => e
    case None =>
      match AsString(Field(body, "message"))
      case Some(m) => m
      case None => UnknownReason
  }

  /** The CloudConvert response serializer.  `error` is the transport's error,
      `response` the HTTP response, if any, and `parsed` what the JSON serializer
      made of the body. */
  function Serialize(error: Option<Error>, response: Option<HttpResponse>, parsed: Result<Value, Error>): (r: Result<Value, Error>)
    ensures error.Some? ==> r == Err(error.value)
    ensures error.None? && parsed.Err? ==> r == parsed
    ensures error.None? && parsed.Ok? && response.None? ==> r == Err(SerializationError(NilResponseReason))
    ensures error.None? && parsed.Ok? && response.Some? && !(200 <= response.value.statusCode < 300) ==>
              r == Err(StatusError(response.value.statusCode, FailureReason(parsed.value)))
    ensures r.Ok? <==> error.None? && parsed.Ok? && response.Some? && 200 <= response.value.statusCode < 300
    ensures r.Ok? ==> r.value == parsed.value
  {
    if error.Some? then Err(error.value)
    else
      match parsed
      case Err(e) => Err(e)
      case Ok(v) =>
        match response
        case None => Err(SerializationError(NilResponseReason))
        case Some(res) =>
          if !(200 <= res.statusCode < 300) then Err(StatusError(res.statusCode, FailureReason(v)))
          else Ok(v)
  }
}
