/** `_do_request` and its convenience forms: option defaulting, merging of the
    query embedded in the address, and mapping of transport outcomes to errors.
    The URL parser and the HTTP session are parameters. */
module Request {
  import opened Wrappers
  import opened JsonValues
  import opened Errors
  import opened Auth
  import opened Client

  /** Query parameters, name to value. */
  type Params = map<string, string>

  /** `parse_url`: the address without its query, and the query as a mapping.
      Its parsing and path normalisation belong to a URL library and are left
      abstract. */
  type UrlParser = string -> (string, Params)

  /** A `(connect, read)` timeout in seconds. */
  datatype Timeout = Timeout(connect: nat, read: nat)

  const DefaultTimeout := Timeout(5, 15)
  const ContentTypeHeader := "Content-Type"
  const ApplicationJson := "application/json"
  const TimeoutPrefix := "Connection Timeout. Download failed: "
  const ConnectionPrefix := "Connection Error. Download failed: "
  const DuplicateJsonMessage := "_do_request() got multiple values for keyword argument 'json'"

  /** The keyword arguments `_do_request` looks at; `None` means the keyword
      was not passed. `auth` may be passed as `None`, hence two layers. */
  datatype Options = Options(
    timeout: Option<Timeout>,
    auth: Option<Option<BitbucketAuth>>,
    headers: Option<Headers>,
    params: Option<Params>,
    json: Option<Json>)

  /** No keyword arguments at all. */
  const NoOptions := Options(None, None, None, None, None)

  /** What is handed to the session: every default filled in. */
  datatype Prepared = Prepared(
    verb: string,
    address: string,
    timeout: Timeout,
    auth: Option<BitbucketAuth>,
    headers: Headers,
    params: Option<Params>,
    json: Option<Json>)

  /** A response that reached the client. `body` is the decoded JSON body,
      or `None` when the body is not JSON (an empty 404, an HTML 502). */
  datatype Response = Response(status: int, headers: Headers, body: Option<Json>)

  /** What the session did with a prepared request. */
  datatype Transport =
    /** A `requests` timeout (connect or read). */
    | TimedOut(cause: string)
    /** Any other `requests` exception. */
    | TransportFailed(cause: string)
    /** A response arrived, whatever its status. */
    | Responded(response: Response)

  /** The session: one request in, one outcome out. */
  type Session = Prepared -> Transport

  /** The statuses for which `raise_for_status` raises: client and server errors. */
  predicate IsHttpError(status: int) {
    400 <= status < 600
  }

  /** `dict.update`: every key of either mapping, the value from `other`
      where it has one. */
  function Update(d: Params, other: Params): (r: Params)
    ensures r.Keys == d.Keys + other.Keys
    ensures forall k :: k in other ==> r[k] == other[k]
    ensures forall k :: k in d && k !in other ==> r[k] == d[k]
  {
    map k | k in d.Keys + other.Keys :: if k in other then other[k] else d[k]
  }

  /** `dict.update` agrees with Dafny's right-biased map union. */
  lemma UpdateIsUnion(d: Params, other: Params)
    ensures Update(d, other) == d + other
  {
  }

  /** The header defaulting: no headers become exactly `Content-Type:
      application/json`; given headers gain that entry only if they lack
      `Content-Type`, and keep every entry they had. */
  function WithContentType(headers: Option<Headers>): (r: Headers)
    ensures ContentTypeHeader in r
    ensures headers.None? ==> r == map[ContentTypeHeader := ApplicationJson]
    ensures headers.Some? ==> r.Keys == headers.value.Keys + {ContentTypeHeader}
    ensures headers.Some? ==> forall k :: k in headers.value ==> r[k] == headers.value[k]
    ensures headers.Some? && ContentTypeHeader !in headers.value ==> r[ContentTypeHeader] == ApplicationJson
  {
    match headers
    case None => map[ContentTypeHeader := ApplicationJson]
    case Some(h) => if ContentTypeHeader in h then h else h[ContentTypeHeader := ApplicationJson]
  }

  /** Where a request goes and with which query parameters. */
  datatype Target = Target(address: string, params: Option<Params>)

  /** The query merge: an empty embedded query changes nothing; otherwise the
      stripped address is used and the parameters are the embedded query
      overwritten by the explicit ones. */
  function MergeQuery(address: string, params: Option<Params>, parse: UrlParser): (r: Target)
    ensures parse(address).1 == map[] ==> r == Target(address, params)
    ensures parse(address).1 != map[] ==>
      && r.address == parse(address).0
      && r.params.Some?
      && r.params.value.Keys == parse(address).1.Keys + params.GetOr(map[]).Keys
      && (forall k :: k in params.GetOr(map[]) ==> r.params.value[k] == params.value[k])
      && (forall k :: k in parse(address).1 && k !in params.GetOr(map[]) ==> r.params.value[k] == parse(address).1[k])
  {
    var (stripped, query) := parse(address);
    if query == map[] then Target(address, params)
    else
      var merged := if params.Some? then Update(query, params.value) else query;
      Target(stripped, Some(merged))
  }

  /** Everything `_do_request` does before calling the session. */
  function Prepare(c: Client, verb: string, address: string, opts: Options, parse: UrlParser): (p: Prepared)
    ensures p.verb == verb && p.json == opts.json
    ensures p.timeout == opts.timeout.GetOr(DefaultTimeout)
    ensures p.auth == opts.auth.GetOr(c.auth)
    ensures p.headers == WithContentType(opts.headers)
    ensures Target(p.address, p.params) == MergeQuery(address, opts.params, parse)
  {
    var target := MergeQuery(address, opts.params, parse);
    Prepared(verb, target.address, opts.timeout.GetOr(DefaultTimeout), opts.auth.GetOr(c.auth),
             WithContentType(opts.headers), target.params, opts.json)
  }

  /** The headers that go on the wire once the session applies the authenticator. */
  function WireHeaders(p: Prepared): (r: Headers)
    ensures p.auth.None? ==> r == p.headers
    ensures p.auth.Some? ==> r == Apply(p.auth.value, p.headers)
  {
    if p.auth.Some? then Apply(p.auth.value, p.headers) else p.headers
  }

  /** The `except`/`else` structure of `_do_request` as intended: a timeout
      becomes `TimeoutError`, any other transport failure `ConnectionError`,
      a 4xx or 5xx response re-raises the status error itself (raised outside
      the `except` clauses, so it is never wrapped), anything else is
      returned. This is the classification the rest of the model uses. */
  function Classify(t: Transport): (r: Result<Response, Error>)
    ensures r.Failure? && r.error.TimeoutError? <==> t.TimedOut?
    ensures t.TimedOut? ==> r.error.message == TimeoutPrefix + t.cause
    ensures r.Failure? && r.error.ConnectionError? <==> t.TransportFailed?
    ensures t.TransportFailed? ==> r.error.message == ConnectionPrefix + t.cause
    ensures r.Failure? && r.error.HttpError? <==> t.Responded? && IsHttpError(t.response.status)
    ensures r.Failure? && r.error.HttpError? ==> r.error == HttpError(t.response.status, t.response.body)
    ensures r.Success? <==> t.Responded? && !IsHttpError(t.response.status)
    ensures r.Success? ==> r.value == t.response
  {
    match t
    case TimedOut(cause) => Failure(TimeoutError(TimeoutPrefix + cause))
    case TransportFailed(cause) => Failure(ConnectionError(ConnectionPrefix + cause))
    case Responded(resp) =>
      if IsHttpError(resp.status) then Failure(HttpError(resp.status, resp.body)) else Success(resp)
  }

  /** The classification as written: before re-raising the status error, the
      bare `except:` prints `resp.json()`. On a body that is not JSON that
      call raises, and its decoding error replaces the status error. */
  function ClassifyAsWritten(t: Transport): (r: Result<Response, Error>)
    ensures t.Responded? && IsHttpError(t.response.status) && t.response.body.None? ==> r == Failure(DecodeError)
    ensures !(t.Responded? && IsHttpError(t.response.status) && t.response.body.None?) ==> r == Classify(t)
  {
    match t
    case Responded(resp) =>
      if IsHttpError(resp.status) && resp.body.None? then Failure(DecodeError) else Classify(t)
    case _ => Classify(t)
  }

  /** The two classifications differ exactly on an error status whose body
      is not JSON, e.g. an empty 404: the code raises a decoding error where
      the status error was meant to be re-raised. */
  lemma DiagnosticsMaskStatusError(t: Transport)
    ensures ClassifyAsWritten(t) != Classify(t) <==> t.Responded? && IsHttpError(t.response.status) && t.response.body.None?
    ensures var empty404 := Responded(Response(404, map[], None));
      ClassifyAsWritten(empty404) == Failure(DecodeError) && Classify(empty404) == Failure(HttpError(404, None))
  {
  }

  /** `_do_request(method, address, **kwargs)`: exactly one session call on
      the prepared request; a timeout, another transport failure, an error
      status and any other response each end up as the one outcome named. */
  function DoRequest(c: Client, verb: string, address: string, opts: Options, parse: UrlParser, send: Session): (r: Result<Response, Error>)
    ensures var t := send(Prepare(c, verb, address, opts, parse));
      && (r.Failure? && r.error.TimeoutError? <==> t.TimedOut?)
      && (r.Failure? && r.error.ConnectionError? <==> t.TransportFailed?)
      && (r.Failure? && r.error.HttpError? <==> t.Responded? && IsHttpError(t.response.status))
      && (r.Success? <==> t.Responded? && !IsHttpError(t.response.status))
      && (r.Success? ==> r.value == t.response)
      && (t.TimedOut? ==> r == Failure(TimeoutError(TimeoutPrefix + t.cause)))
      && (t.TransportFailed? ==> r == Failure(ConnectionError(ConnectionPrefix + t.cause)))
      && (t.Responded? && IsHttpError(t.response.status) ==> r == Failure(HttpError(t.response.status, t.response.body)))
  {
    Classify(send(Prepare(c, verb, address, opts, parse)))
  }

  /** `resp.json()`: the decoded body, or the decoding error. */
  function DecodeBody(resp: Response): (r: Result<Json, Error>)
    ensures r.Success? <==> resp.body.Some?
    ensures r.Success? ==> r.value == resp.body.value
    ensures r.Failure? ==> r.error == DecodeError
  {
    match resp.body
    case Some(j) => Success(j)
    case None => Failure(DecodeError)
  }

  /** `_do_requests_get`'s defaulting: a missing `params` becomes `{}`, and
      nothing else changes. */
  function GetOptions(opts: Options): (r: Options)
    ensures r.params == Some(opts.params.GetOr(map[]))
    ensures r.(params := opts.params) == opts
  {
    if opts.params.None? then opts.(params := Some(map[])) else opts
  }

  /** `_do_requests_get(address, **kwargs)`: a GET that always hands the
      session a parameter mapping. */
  function Get(c: Client, address: string, opts: Options, parse: UrlParser, send: Session): (r: Result<Response, Error>)
    ensures var p := Prepare(c, "GET", address, GetOptions(opts), parse);
      p.verb == "GET" && p.params.Some? && r == Classify(send(p))
  {
    DoRequest(c, "GET", address, GetOptions(opts), parse, send)
  }

  /** The body-carrying forms: `json_data` becomes the `json` keyword, and a
      `json` keyword passed as well is a `TypeError` before any request. */
  function WithBody(c: Client, verb: string, address: string, jsonData: Option<Json>, opts: Options, parse: UrlParser, send: Session): (r: Result<Response, Error>)
    ensures opts.json.Some? ==> r == Failure(TypeError(DuplicateJsonMessage))
    ensures opts.json.None? ==> var p := Prepare(c, verb, address, opts.(json := jsonData), parse);
      p.verb == verb && p.json == jsonData && r == Classify(send(p))
  {
    if opts.json.Some? then Failure(TypeError(DuplicateJsonMessage))
    else DoRequest(c, verb, address, opts.(json := jsonData), parse, send)
  }

  /** `_do_requests_post(address, json_data, **kwargs)`. */
  function Post(c: Client, address: string, jsonData: Option<Json>, opts: Options, parse: UrlParser, send: Session): (r: Result<Response, Error>)
    ensures opts.json.Some? ==> r == Failure(TypeError(DuplicateJsonMessage))
    ensures opts.json.None? ==> var p := Prepare(c, "POST", address, opts.(json := jsonData), parse);
      p.verb == "POST" && p.json == jsonData && r == Classify(send(p))
  {
    WithBody(c, "POST", address, jsonData, opts, parse, send)
  }

  /** `_do_requests_put(address, json_data, **kwargs)`. */
  function Put(c: Client, address: string, jsonData: Option<Json>, opts: Options, parse: UrlParser, send: Session): (r: Result<Response, Error>)
    ensures opts.json.Some? ==> r == Failure(TypeError(DuplicateJsonMessage))
    ensures opts.json.None? ==> var p := Prepare(c, "PUT", address, opts.(json := jsonData), parse);
      p.verb == "PUT" && p.json == jsonData && r == Classify(send(p))
  {
    WithBody(c, "PUT", address, jsonData, opts, parse, send)
  }

  /** `_do_requests_patch(address, json_data, **kwargs)`. */
  function Patch(c: Client, address: string, jsonData: Option<Json>, opts: Options, parse: UrlParser, send: Session): (r: Result<Response, Error>)
    ensures opts.json.Some? ==> r == Failure(TypeError(DuplicateJsonMessage))
    ensures opts.json.None? ==> var p := Prepare(c, "PATCH", address, opts.(json := jsonData), parse);
      p.verb == "PATCH" && p.json == jsonData && r == Classify(send(p))
  {
    WithBody(c, "PATCH", address, jsonData, opts, parse, send)
  }

  /** `_do_requests_delete(address, **kwargs)`: no defaulting beyond `_do_request`'s. */
  function Delete(c: Client, address: string, opts: Options, parse: UrlParser, send: Session): (r: Result<Response, Error>)
    ensures var p := Prepare(c, "DELETE", address, opts, parse);
      p.verb == "DELETE" && p.params == MergeQuery(address, opts.params, parse).params && r == Classify(send(p))
  {
    DoRequest(c, "DELETE", address, opts, parse, send)
  }

  /** Re-applying the header defaulting to its own output changes nothing. */
  lemma ContentTypeDefaultIdempotent(headers: Option<Headers>)
    ensures WithContentType(Some(WithContentType(headers))) == WithContentType(headers)
  {
  }

  /** A GET always hands the session a parameter mapping: the explicit one
      (or `{}`) when the address has no query, else the merged one, which
      for a follow-up page without explicit parameters is the embedded query. */
  lemma GetAlwaysSendsParams(c: Client, address: string, opts: Options, parse: UrlParser)
    ensures var p := Prepare(c, "GET", address, GetOptions(opts), parse);
      && p.params.Some?
      && (parse(address).1 == map[] ==> p.params.value == opts.params.GetOr(map[]))
      && (opts.params.None? && parse(address).1 != map[] ==> p.params.value == parse(address).1)
  {
    var query := parse(address).1;
    if opts.params.None? && query != map[] {
      assert Update(query, map[]) == query;
    }
  }

  /** A follow-up page request, made with the `next` address alone, uses the
      default timeout, the client's authenticator and exactly the JSON
      content-type header, and carries no body. */
  lemma FollowUpRequestDefaults(c: Client, next: string, parse: UrlParser)
    ensures var p := Prepare(c, "GET", next, GetOptions(NoOptions), parse);
      && p.timeout == DefaultTimeout
      && p.auth == c.auth
      && p.headers == map[ContentTypeHeader := ApplicationJson]
      && p.json.None?
      && p.params.Some?
  {
  }

  /** After `login(t)`, every request that does not override `auth` carries
      `Authorization: Bearer t` together with the content type. */
  lemma LoggedInRequestCarriesBearer(c: Client, t: string, verb: string, address: string, opts: Options, parse: UrlParser)
    requires opts.auth.None?
    ensures var h := WireHeaders(Prepare(Login(c, Some(t)), verb, address, opts, parse));
      && AuthorizationHeader in h && h[AuthorizationHeader] == BearerPrefix + t
      && ContentTypeHeader in h
  {
  }

  /** `login(None)` after `login(t)` reports logged out, yet requests still
      carry the old bearer token. */
  lemma LogoutStillSendsBearer(c: Client, t: string, verb: string, address: string, opts: Options, parse: UrlParser)
    requires opts.auth.None?
    ensures var c' := Login(Login(c, Some(t)), None);
      var h := WireHeaders(Prepare(c', verb, address, opts, parse));
      !LoggedIn(c') && AuthorizationHeader in h && h[AuthorizationHeader] == BearerPrefix + t
  {
  }
}

