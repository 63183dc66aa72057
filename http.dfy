/** pplx_sdk/transport/http.py: the plain HTTP transport. Its default
    headers, the HTTP client it holds only between `__enter__` and
    `__exit__`, the per-call header merge, and the mapping of a failed
    exchange onto the SDK's error taxonomy.

    The network is an oracle from the request sent to the exchange that
    followed: a reply with its status, reason phrase, body text and
    `Retry-After` header, or a failure of the HTTP library itself. */
module Http {
  import opened Wrappers
  import opened Text
  import opened Json
  import opened Exceptions
  import opened Numbers

  /** The four headers every request carries before any override. */
  const BaseHeaders: map<string, string> :=
    map["User-Agent" := "pplx-sdk/0.1.0", "X-Client-Name" := "web",
        "Accept" := "application/json", "Content-Type" := "application/json"]

  /** The base headers with `Authorization: Bearer <token>` when the token
      is truthy. */
  function AuthHeaders(authToken: Option<string>): (h: map<string, string>)
    ensures h.Keys == BaseHeaders.Keys + (if Truthy(authToken) then {"Authorization"} else {})
    ensures forall k | k in BaseHeaders :: h[k] == BaseHeaders[k]
    ensures Truthy(authToken) ==> h["Authorization"] == "Bearer " + authToken.value
  {
    if Truthy(authToken) then BaseHeaders["Authorization" := "Bearer " + authToken.value] else BaseHeaders
  }

  /** `dict.update` when the argument is given and non-empty; an empty
      update changes nothing either. */
  function Update(headers: map<string, string>, extra: Option<map<string, string>>): (h: map<string, string>)
    ensures h.Keys == headers.Keys + (if extra.Some? then extra.value.Keys else {})
    ensures extra.Some? ==> forall k | k in extra.value :: h[k] == extra.value[k]
    ensures forall k | k in headers && (extra.None? || k !in extra.value) :: h[k] == headers[k]
  {
    if extra.Some? && extra.value != map[] then headers + extra.value else headers
  }

  /** The `default_headers` that `__init__` stores: the base headers, the
      bearer token, then the caller's headers over both. */
  function DefaultHeaders(authToken: Option<string>, defaultHeaders: Option<map<string, string>>): map<string, string> {
    Update(AuthHeaders(authToken), defaultHeaders)
  }

  /** Without overrides of its own, `Authorization` is present exactly
      when the token is truthy and carries it as a bearer token; the
      caller's headers win over the base ones, which stay otherwise. */
  lemma DefaultHeadersShape(authToken: Option<string>, defaultHeaders: Option<map<string, string>>)
    ensures var h := DefaultHeaders(authToken, defaultHeaders);
      var given := if defaultHeaders.Some? then defaultHeaders.value else map[];
      && (forall k | k in BaseHeaders && k !in given :: k in h && h[k] == BaseHeaders[k])
      && (forall k | k in given :: k in h && h[k] == given[k])
      && ("Authorization" !in given ==> ("Authorization" in h <==> Truthy(authToken)))
      && ("Authorization" !in given && Truthy(authToken) ==> h["Authorization"] == "Bearer " + authToken.value)
      && "Accept" in h
  {
  }

  /** An open `httpx.Client`, with the settings `__enter__` gives it. The
      timeout is a float and is not modelled. */
  datatype HttpClient = HttpClient(baseUrl: string, headers: map<string, string>, followRedirects: bool)

  /** A request as the client sends it. */
  datatype HttpRequest = HttpRequest(
    verb: string, path: string, params: Option<map<string, Json>>, json: Option<map<string, Json>>,
    headers: map<string, string>)

  /** A reply from the server. */
  datatype Reply = Reply(status: int, reasonPhrase: string, text: string, retryAfter: Option<string>)

  /** What came of sending a request: a reply, or an error of the HTTP
      library that is not a status error (connection, timeout, protocol). */
  datatype Exchange = Answered(reply: Reply) | LibraryError(message: string)

  const NotOpenMessage := "HttpTransport must be used as context manager"

  /** The exception `request` raises for a reply whose status is not 2xx:
      401 is an authentication error, 429 a rate-limit error whose
      `Retry-After` is read with `int()` (which itself raises on a value
      that is not a number), anything else a transport error with the
      status and body. */
  function StatusError(reply: Reply): (f: Fault)
    ensures reply.status == 401 ==>
      f == Sdk(NewAuthenticationError("Authentication failed", Some(401), Some(reply.text)))
    ensures reply.status == 429 && !Truthy(reply.retryAfter) ==> f == Sdk(NewRateLimitError("Rate limit exceeded", None))
    ensures reply.status != 401 && reply.status != 429 ==>
      (f.Sdk? && f.error.Transport? && StatusCode(f.error) == Some(reply.status) && ResponseBody(f.error) == Some(reply.text))
  {
    if reply.status == 401 then
      Sdk(NewAuthenticationError("Authentication failed", Some(401), Some(reply.text)))
    else if reply.status == 429 then
      if Truthy(reply.retryAfter) then
        match ParseInt(reply.retryAfter.value)
        case Some(n) => Sdk(NewRateLimitError("Rate limit exceeded", Some(n)))
        case None => ValueError("invalid literal for int() with base 10: '" + reply.retryAfter.value + "'")
      else Sdk(NewRateLimitError("Rate limit exceeded", None))
    else
      Sdk(NewTransportError("HTTP " + IntToString(reply.status) + ": " + reply.reasonPhrase, Some(reply.status), Some(reply.text)))
  }

  /** `raise_for_status` and the two `except` clauses of `request`. */
  function RequestOutcome(ex: Exchange): (r: Result<Reply, Fault>)
    ensures r.Success? <==> ex.Answered? && 200 <= ex.reply.status < 300
    ensures r.Success? ==> r.value == ex.reply
    ensures ex.LibraryError? ==>
      (r.Failure? && r.error.Sdk? && r.error.error.Transport? && StatusCode(r.error.error) == None && ResponseBody(r.error.error) == None)
  {
    match ex
    case LibraryError(m) => Failure(Sdk(NewTransportError("Request failed: " + m, None, None)))
    case Answered(reply) =>
      if 200 <= reply.status < 300 then Success(reply) else Failure(StatusError(reply))
  }

  /** A numeric `Retry-After` header is carried by the rate-limit error. */
  lemma RetryAfterRead(n: int, reason: string, text: string)
    ensures StatusError(Reply(429, reason, text, Some(IntToString(n)))) == Sdk(NewRateLimitError("Rate limit exceeded", Some(n)))
  {
    var v := IntToString(n);
    ParseIntToString(n);
    RateLimitOfParsed(Reply(429, reason, text, Some(v)), n);
  }

  lemma RateLimitOfParsed(reply: Reply, n: int)
    requires reply.status == 429 && reply.retryAfter.Some? && ParseInt(reply.retryAfter.value) == Some(n)
    ensures StatusError(reply) == Sdk(NewRateLimitError("Rate limit exceeded", Some(n)))
  {
    assert reply.retryAfter.value != [];
  }

  /** Every error status maps into the transport family, except a 429
      whose `Retry-After` is not a number; the status code it carries is
      the reply's. */
  lemma StatusErrorsAreTransport(reply: Reply)
    requires reply.status != 429 || !Truthy(reply.retryAfter) || ParseInt(reply.retryAfter.value).Some?
    ensures var f := StatusError(reply);
      f.Sdk? && IsInstance(f.error, TransportError) && StatusCode(f.error) == Some(reply.status)
  {
  }

  /** `HttpTransport`: the stored defaults, and the client that exists
      only inside a `with` block. */
  class HttpTransport {
    const baseUrl: string
    const defaultHeaders: map<string, string>
    var client: Option<HttpClient>

    /** `__init__`: no client yet. */
    constructor (baseUrl: string, authToken: Option<string>, defaultHeaders: Option<map<string, string>>)
      ensures this.baseUrl == baseUrl
      ensures this.defaultHeaders == DefaultHeaders(authToken, defaultHeaders)
      ensures client.None?
    {
      this.baseUrl := baseUrl;
      this.defaultHeaders := DefaultHeaders(authToken, defaultHeaders);
      client := None;
    }

    /** `__enter__`: opens a client with the stored headers. */
    method Enter()
      modifies this
      ensures client == Some(HttpClient(baseUrl, defaultHeaders, true))
    {
      client := Some(HttpClient(baseUrl, defaultHeaders, true));
    }

    /** `__exit__`: closes and forgets the client, if any. */
    method Exit()
      modifies this
      ensures client.None?
    {
      if client.Some? {
        client := None;
      }
    }

    /** `request`: refused without an open client; otherwise the request
      goes out with the per-call headers merged over a copy of the
      defaults, and its outcome is mapped onto the error taxonomy. */
    method Request(verb: string, path: string, params: Option<map<string, Json>>, json: Option<map<string, Json>>,
                   headers: Option<map<string, string>>, network: HttpRequest -> Exchange)
      returns (sent: Option<HttpRequest>, r: Result<Reply, Fault>)
      ensures client.None? ==> sent.None? && r == Failure(Sdk(NewTransportError(NotOpenMessage, None, None)))
      ensures client.Some? ==> sent == Some(HttpRequest(verb, path, params, json, Update(defaultHeaders, headers)))
      ensures client.Some? ==> r == RequestOutcome(network(sent.value))
    {
      if client.None? {
        return None, Failure(Sdk(NewTransportError(NotOpenMessage, None, None)));
      }
      var merged := defaultHeaders;
      if headers.Some? && headers.value != map[] {
        merged := merged + headers.value;
      }
      var req := HttpRequest(verb, path, params, json, merged);
      sent := Some(req);
      r := RequestOutcome(network(req));
    }

    /** `stream`: refused without an open client; otherwise the request the
      streaming context will send, with `Accept: text/event-stream`
      added only if the merged headers lack an `Accept`. */
    method Stream(verb: string, path: string, json: Option<map<string, Json>>, headers: Option<map<string, string>>)
      returns (r: Result<HttpRequest, Fault>)
      ensures client.None? ==> r == Failure(Sdk(NewTransportError(NotOpenMessage, None, None)))
      ensures client.Some? ==> r == Success(HttpRequest(verb, path, None, json, StreamHeaders(defaultHeaders, headers)))
    {
      if client.None? {
        return Failure(Sdk(NewTransportError(NotOpenMessage, None, None)));
      }
      var merged := defaultHeaders;
      if headers.Some? && headers.value != map[] {
        merged := merged + headers.value;
      }
      if "Accept" !in merged {
        merged := merged["Accept" := "text/event-stream"];
      }
      r := Success(HttpRequest(verb, path, None, json, merged));
    }
  }

  /** The headers `stream` sends: the merge, with the event-stream
      `Accept` as a fallback. */
  function StreamHeaders(defaults: map<string, string>, headers: Option<map<string, string>>): (h: map<string, string>)
    ensures "Accept" in h
    ensures "Accept" !in Update(defaults, headers) ==> h == Update(defaults, headers)["Accept" := "text/event-stream"]
  {
    var merged := Update(defaults, headers);
    if "Accept" !in merged then merged["Accept" := "text/event-stream"] else merged
  }

  /** The fallback never fires for a transport's own defaults, which
      always hold an `Accept`: the stream headers are just the merge, and
      `Accept` stays `application/json` unless overridden. */
  lemma StreamAcceptUnchanged(authToken: Option<string>, defaultHeaders: Option<map<string, string>>,
                              headers: Option<map<string, string>>)
    ensures var d := DefaultHeaders(authToken, defaultHeaders);
      StreamHeaders(d, headers) == Update(d, headers)
      && ((defaultHeaders.None? || "Accept" !in defaultHeaders.value) && (headers.None? || "Accept" !in headers.value)
          ==> StreamHeaders(d, headers)["Accept"] == "application/json")
  {
    var d := DefaultHeaders(authToken, defaultHeaders);
    assert "Accept" in AuthHeaders(authToken);
    assert "Accept" in d;
    assert "Accept" in Update(d, headers);
  }
}
