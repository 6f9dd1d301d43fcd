/** The Go port: `NewClient`, `(*Client).Service`, `(*Client).Request` and
    `(*ServiceClient).Request`. Errors are values of `Error`, each standing
    for the message `fmt.Errorf` builds (see `Message`). */
module GoSdk {
  import opened Strings
  import opened Http

  const DefaultBaseUrl: string := "https://api.fabraic.co"
  const DefaultServiceVersion: string := "v1"

  /** `http.Header`: each header name with its values. */
  type Header = map<string, seq<string>>

  // ---------------------------------------------------------------------
  // Errors

  datatype Error =
    | MissingCredentials
    | ParseBaseUrl(cause: string)
    | EmptyServicePath
    | MarshalBody(cause: string)
      /** What `http.NewRequest` failed with. */
    | CreateRequest(cause: string)
      /** What `(*http.Client).Do` returned as its error. */
    | Transport(cause: string)
    | RequestFailed(status: int, body: string)
    | DecodeResponse(cause: string)

  /** The text of each error, as `fmt.Errorf` formats it. */
  function Message(e: Error): string {
    match e
    case MissingCredentials => "provide either APIKey or AccessToken"
    case ParseBaseUrl(cause) => "parse base url: " + cause
    case EmptyServicePath => "servicePath must be non-empty"
    case MarshalBody(cause) => "marshal body: " + cause
    case CreateRequest(cause) => "create request: " + cause
    case Transport(cause) => cause
    case RequestFailed(status, body) => "request failed (" + Decimal(status) + "): " + body
    case DecodeResponse(cause) => "decode response: " + cause
  }

  // ---------------------------------------------------------------------
  // NewClient

  /** A parsed `*url.URL`: its text, its path and its parsed query. */
  datatype Url = Url(text: string, path: string, query: map<string, seq<string>>)

  /** The `*http.Client` requests go through. */
  datatype HttpClient = DefaultClient | Custom(id: nat)

  datatype Config = Config(apiKey: string, accessToken: string, baseUrl: string, httpClient: Option<HttpClient>)

  datatype Client = Client(baseUrl: Url, httpClient: HttpClient, defaultHeads: Header)

  /** The base URL text `NewClient` parses: trailing slashes removed, and
      the default when nothing is left. */
  function BaseText(baseUrl: string): (r: string)
    ensures r != [] && r[|r| - 1] != '/'
    ensures All(baseUrl, IsSlash) ==> r == DefaultBaseUrl
    ensures !All(baseUrl, IsSlash) ==> r == TrimEnd(baseUrl, IsSlash)
  {
    var base := TrimEnd(baseUrl, IsSlash);
    TrimEndEmpty(baseUrl);
    if base == [] then DefaultBaseUrl else base
  }

  lemma TrimEndEmpty(s: string)
    ensures TrimEnd(s, IsSlash) == [] <==> All(s, IsSlash)
  {
    TrimEndDropped(s, IsSlash);
    var r := TrimEnd(s, IsSlash);
    if r != [] {
      assert s[|r| - 1] == r[|r| - 1];
    }
  }

  /** The default headers: `Accept` and either the bearer token or the
      API key. */
  function DefaultHeads(cfg: Config): (h: Header)
    ensures h.Keys == {"Accept", if cfg.accessToken != "" then "Authorization" else "x-api-key"}
    ensures h["Accept"] == ["application/json"]
    ensures cfg.accessToken != "" ==> h["Authorization"] == ["Bearer " + cfg.accessToken]
    ensures cfg.accessToken == "" ==> h["x-api-key"] == [cfg.apiKey]
  {
    var h := map["Accept" := ["application/json"]];
    if cfg.accessToken != "" then h["Authorization" := ["Bearer " + cfg.accessToken]]
    else h["x-api-key" := [cfg.apiKey]]
  }

  /** `NewClient`. `parseUrl` stands for `url.Parse`. */
  function NewClient(cfg: Config, parseUrl: string -> Result<Url, string>): (r: Result<Client, Error>)
    ensures cfg.apiKey == "" && cfg.accessToken == "" ==> r == Err(MissingCredentials)
    ensures r.Ok? <==>
      (cfg.apiKey != "" || cfg.accessToken != "") && parseUrl(BaseText(cfg.baseUrl)).Ok?
    ensures (cfg.apiKey != "" || cfg.accessToken != "") && parseUrl(BaseText(cfg.baseUrl)).Err? ==>
      r == Err(ParseBaseUrl(parseUrl(BaseText(cfg.baseUrl)).error))
    ensures r.Ok? ==> r.value.baseUrl == parseUrl(BaseText(cfg.baseUrl)).value
    ensures r.Ok? ==> r.value.httpClient == cfg.httpClient.GetOr(DefaultClient)
    ensures r.Ok? ==> r.value.defaultHeads == DefaultHeads(cfg)
  {
    if cfg.apiKey == "" && cfg.accessToken == "" then Err(MissingCredentials)
    else
      match parseUrl(BaseText(cfg.baseUrl))
      case Err(e) => Err(ParseBaseUrl(e))
      case Ok(u) => Ok(Client(u, cfg.httpClient.GetOr(DefaultClient), DefaultHeads(cfg)))
  }

  // ---------------------------------------------------------------------
  // (*Client).Request

  /** What `Request` hands to the HTTP client: the method, the base URL and
      the cleaned path (joined by `path.Join`), the query after `Set`, the
      headers and the marshalled body. */
  datatype Call = Call(
    verb: string,
    baseUrl: Url,
    path: string,
    query: map<string, seq<string>>,
    headers: Header,
    payload: Option<string>)

  /** What `Request` relies on but does not define: `json.Marshal`,
      `http.NewRequest` (the error it fails with, if any),
      `(*http.Client).Do` with reading the body, `json.Unmarshal`, and
      `url.PathEscape`. */
  datatype Runtime = Runtime(
    marshal: Json -> Result<string, string>,
    newRequest: Call -> Option<string>,
    roundTrip: (HttpClient, Call) -> Result<Response, string>,
    unmarshal: string -> Result<Json, string>,
    pathEscape: string -> string)

  /** The default headers, with the JSON content type when there is a
      body. */
  function TypedHeads(c: Client, hasBody: bool): (h: Header)
    ensures h.Keys == c.defaultHeads.Keys + (if hasBody then {"Content-Type"} else {})
    ensures hasBody ==> h["Content-Type"] == ["application/json"]
    ensures forall name :: name in c.defaultHeads && name != "Content-Type" ==> h[name] == c.defaultHeads[name]
  {
    if hasBody then c.defaultHeads["Content-Type" := ["application/json"]] else c.defaultHeads
  }

  /** The call `Request` builds once the body (if any) has marshalled. */
  function Built(c: Client, verb: string, rawPath: string, query: seq<Pair>, body: Option<Json>,
                 headers: seq<Pair>, rt: Runtime): Call
    requires body.None? || rt.marshal(body.value).Ok?
  {
    Call(verb, c.baseUrl, EnsureLeadingSlash(rawPath), SetAll(c.baseUrl.query, query),
         SetAll(TypedHeads(c, body.Some?), headers),
         if body.Some? then Some(rt.marshal(body.value).value) else None)
  }

  /** Everything `Request` does before the round trip: the query set over
      the base URL's own, the body marshalled and typed, the caller's headers
      set last (so they override the content type), and the request built. */
  function Compose(c: Client, verb: string, rawPath: string, query: seq<Pair>, body: Option<Json>,
                   headers: seq<Pair>, rt: Runtime): (r: Result<Call, Error>)
    ensures body.Some? && rt.marshal(body.value).Err? ==> r == Err(MarshalBody(rt.marshal(body.value).error))
    ensures r.Ok? <==> (body.None? || rt.marshal(body.value).Ok?)
                       && rt.newRequest(Built(c, verb, rawPath, query, body, headers, rt)).None?
    ensures (body.None? || rt.marshal(body.value).Ok?)
            && rt.newRequest(Built(c, verb, rawPath, query, body, headers, rt)).Some?
            ==> r == Err(CreateRequest(rt.newRequest(Built(c, verb, rawPath, query, body, headers, rt)).value))
    ensures r.Ok? ==> rt.newRequest(r.value).None?
    ensures r.Ok? ==> r.value.verb == verb && r.value.baseUrl == c.baseUrl
    ensures r.Ok? ==> r.value.path == EnsureLeadingSlash(rawPath)
    ensures r.Ok? ==> r.value.query == SetAll(c.baseUrl.query, query)
    ensures r.Ok? ==> r.value.headers == SetAll(TypedHeads(c, body.Some?), headers)
    ensures r.Ok? ==> r.value.payload == (if body.Some? then Some(rt.marshal(body.value).value) else None)
  {
    if body.Some? && rt.marshal(body.value).Err? then Err(MarshalBody(rt.marshal(body.value).error))
    else
      var call := Built(c, verb, rawPath, query, body, headers, rt);
      match rt.newRequest(call)
      case Some(e) => Err(CreateRequest(e))
      case None => Ok(call)
  }

  /** A caller's `Content-Type` replaces the JSON content type the body set;
      without one, the body's stands. */
  lemma CallerContentTypeWins(c: Client, verb: string, rawPath: string, query: seq<Pair>, body: Json,
                              headers: seq<Pair>, rt: Runtime)
    requires Compose(c, verb, rawPath, query, Some(body), headers, rt).Ok?
    ensures var h := Compose(c, verb, rawPath, query, Some(body), headers, rt).value.headers;
      && "Content-Type" in h
      && h["Content-Type"] ==
           match Lookup(headers, "Content-Type")
           case Some(v) => [v]
           case None => ["application/json"]
  {
  }

  /** Every default header is sent, with the caller's value when the caller
      names it. */
  lemma CallerHeadersOverrideDefaults(c: Client, verb: string, rawPath: string, query: seq<Pair>, body: Option<Json>,
                                      headers: seq<Pair>, rt: Runtime, name: string)
    requires Compose(c, verb, rawPath, query, body, headers, rt).Ok?
    requires name in c.defaultHeads && name != "Content-Type"
    ensures var h := Compose(c, verb, rawPath, query, body, headers, rt).value.headers;
      && name in h
      && h[name] ==
           match Lookup(headers, name)
           case Some(v) => [v]
           case None => c.defaultHeads[name]
  {
  }

  /** Query parameters already on the base URL stay unless the caller sets
      the same name. */
  lemma BaseQueryKept(c: Client, verb: string, rawPath: string, query: seq<Pair>, body: Option<Json>,
                      headers: seq<Pair>, rt: Runtime, name: string)
    requires Compose(c, verb, rawPath, query, body, headers, rt).Ok?
    requires name in c.baseUrl.query
    requires forall i :: 0 <= i < |query| ==> query[i].0 != name
    ensures Compose(c, verb, rawPath, query, body, headers, rt).value.query[name] == c.baseUrl.query[name]
  {
  }

  /** The decision on a response: anything outside 200..299 fails with the
      status and the body text; a body that is white space only (as
      `bytes.TrimSpace` reads it) is `nil`; otherwise the body must decode. */
  function Outcome(response: Response, unmarshal: string -> Result<Json, string>): (r: Result<Json, Error>)
    ensures r.Err? && r.error.RequestFailed? <==> !(200 <= response.status < 300)
    ensures !(200 <= response.status < 300) ==> r == Err(RequestFailed(response.status, response.body))
    ensures 200 <= response.status < 300 && All(response.body, IsUnicodeWhiteSpace) ==> r == Ok(JNull)
    ensures 200 <= response.status < 300 && !All(response.body, IsUnicodeWhiteSpace) ==>
      r == match unmarshal(response.body)
           case Ok(j) => Ok(j)
           case Err(e) => Err(DecodeResponse(e))
  {
    if response.status < 200 || response.status >= 300 then Err(RequestFailed(response.status, response.body))
    else if Trim(response.body, IsUnicodeWhiteSpace) == [] then Ok(JNull)
    else
      match unmarshal(response.body)
      case Ok(j) => Ok(j)
      case Err(e) => Err(DecodeResponse(e))
  }

  /** Unlike the Rust and Python ports, a redirect that reaches the caller
      is an error here. */
  lemma RedirectIsAnError(body: string, unmarshal: string -> Result<Json, string>)
    ensures Outcome(Response(304, body), unmarshal) == Err(RequestFailed(304, body))
    ensures Message(Outcome(Response(304, body), unmarshal).error) == "request failed (304): " + body
  {
    assert Decimal(304) == "304" by {
      assert Decimal(30) == "30" by { assert Decimal(3) == "3"; }
    }
  }

  /** The result of a composed request: a composition error, the transport's
      error, or the decision on the response. */
  function Exchange(c: Client, composed: Result<Call, Error>, rt: Runtime): Result<Json, Error> {
    match composed
    case Err(e) => Err(e)
    case Ok(call) =>
      match rt.roundTrip(c.httpClient, call)
      case Err(cause) => Err(Transport(cause))
      case Ok(response) => Outcome(response, rt.unmarshal)
  }

  /** The `q.Set(k, v)` loop over the query map. */
  method SetQuery(values: map<string, seq<string>>, query: seq<Pair>) returns (q: map<string, seq<string>>)
    ensures q == SetAll(values, query)
  {
    q := values;
    var i := 0;
    while i < |query|
      invariant 0 <= i <= |query|
      invariant q == SetAll(values, query[..i])
    {
      var (k, v) := query[i];
      assert query[..i + 1][..i] == query[..i];
      q := q[k := [v]];
      i := i + 1;
    }
    assert query[..i] == query;
  }

  /** The `mergedHeaders.Set(k, v)` loop over the caller's headers. */
  method SetEachHeader(h: Header, headers: seq<Pair>) returns (merged: Header)
    ensures merged == SetAll(h, headers)
  {
    merged := h;
    var j := 0;
    while j < |headers|
      invariant 0 <= j <= |headers|
      invariant merged == SetAll(h, headers[..j])
    {
      var (k, v) := headers[j];
      assert headers[..j + 1][..j] == headers[..j];
      merged := merged[k := [v]];
      j := j + 1;
    }
    assert headers[..j] == headers;
  }

  /** The part of `(*Client).Request` before the round trip. `query` and
      `headers` list the maps' entries in the order `range` visits them. */
  method ComposeRequest(c: Client, verb: string, rawPath: string, query: seq<Pair>, body: Option<Json>, headers: seq<Pair>,
                        rt: Runtime)
    returns (composed: Result<Call, Error>)
    ensures composed == Compose(c, verb, rawPath, query, body, headers, rt)
  {
    var cleanPath := if |rawPath| > 0 && rawPath[0] == '/' then rawPath else "/" + rawPath;
    var q := SetQuery(c.baseUrl.query, query);
    var payload: Option<string> := None;
    var merged := c.defaultHeads;
    if body.Some? {
      var encoded := rt.marshal(body.value);
      if encoded.Err? {
        return Err(MarshalBody(encoded.error));
      }
      payload := Some(encoded.value);
      merged := merged["Content-Type" := ["application/json"]];
    }
    merged := SetEachHeader(merged, headers);
    var call := Call(verb, c.baseUrl, cleanPath, q, merged, payload);
    var failure := rt.newRequest(call);
    if failure.Some? {
      return Err(CreateRequest(failure.value));
    }
    composed := Ok(call);
  }

  /** `(*Client).Request`: compose, send, decide. */
  method Request(c: Client, verb: string, rawPath: string, query: seq<Pair>, body: Option<Json>, headers: seq<Pair>,
                 rt: Runtime)
    returns (r: Result<Json, Error>)
    ensures r == Exchange(c, Compose(c, verb, rawPath, query, body, headers, rt), rt)
  {
    var composed := ComposeRequest(c, verb, rawPath, query, body, headers, rt);
    if composed.Err? {
      return Err(composed.error);
    }
    var response := rt.roundTrip(c.httpClient, composed.value);
    if response.Err? {
      return Err(Transport(response.error));
    }
    r := Outcome(response.value, rt.unmarshal);
  }

  // ---------------------------------------------------------------------
  // ServiceClient

  datatype ServiceClient = ServiceClient(client: Client, servicePath: string, version: string)

  /** `(*Client).Service`: slashes trimmed from the service path, which must
      then be non-empty; an empty version is the default, any other is kept
      as given. */
  function Service(c: Client, servicePath: string, version: string): (r: Result<ServiceClient, Error>)
    ensures r.Err? <==> All(servicePath, IsSlash)
    ensures r.Err? ==> r.error == EmptyServicePath
    ensures r.Ok? ==> r.value.client == c
    ensures r.Ok? ==> r.value.servicePath == TrimSlashes(servicePath)
    ensures r.Ok? ==> r.value.version == if version == "" then DefaultServiceVersion else version
  {
    var clean := TrimSlashes(servicePath);
    if clean == [] then Err(EmptyServicePath)
    else Ok(ServiceClient(c, clean, if version == "" then DefaultServiceVersion else version))
  }

  /** The path `(*ServiceClient).Request` passes on: slashes trimmed from
      both the service path and the version, then the caller's path with
      each `{key}` replaced by the `url.PathEscape`d value. */
  function FullPath(s: ServiceClient, rawPath: string, pathParams: seq<Pair>, pathEscape: string -> string): string {
    "/" + TrimSlashes(s.servicePath) + "/" + TrimSlashes(s.version)
      + Substitute(EnsureLeadingSlash(rawPath), pathParams, Verbatim, pathEscape)
  }

  /** `Service` already trimmed the service path, so trimming it again
      keeps it; only the version can still lose slashes here. */
  lemma FullPathKeepsServicePath(c: Client, servicePath: string, version: string, rawPath: string,
                                 pathParams: seq<Pair>, pathEscape: string -> string)
    requires Service(c, servicePath, version).Ok?
    ensures var s := Service(c, servicePath, version).value;
      FullPath(s, rawPath, pathParams, pathEscape)
        == "/" + TrimSlashes(servicePath) + "/" + TrimSlashes(s.version)
           + Substitute(EnsureLeadingSlash(rawPath), pathParams, Verbatim, pathEscape)
  {
    TrimIdempotent(servicePath, IsSlash);
  }

  /** With a version made only of slashes and no parameters, the full path
      is the service prefix, an empty version segment and the rooted path. */
  lemma SlashVersionPath(s: ServiceClient, rawPath: string, pathEscape: string -> string)
    requires All(s.version, IsSlash)
    requires s.servicePath != [] && s.servicePath[0] != '/' && s.servicePath[|s.servicePath| - 1] != '/'
    ensures FullPath(s, rawPath, [], pathEscape) == "/" + s.servicePath + "/" + EnsureLeadingSlash(rawPath)
  {
    TrimSlashesFixed(s.servicePath);
    TrimSlashesAllSlashes(s.version);
    FullPathOfTrimmed(s, rawPath, pathEscape);
    EmptySegmentDropped(s.servicePath, EnsureLeadingSlash(rawPath));
  }

  /** The full path without parameters, once both trims are known. */
  lemma FullPathOfTrimmed(s: ServiceClient, rawPath: string, pathEscape: string -> string)
    requires TrimSlashes(s.servicePath) == s.servicePath && TrimSlashes(s.version) == []
    ensures FullPath(s, rawPath, [], pathEscape) == "/" + s.servicePath + "/" + [] + EnsureLeadingSlash(rawPath)
  {
  }

  lemma EmptySegmentDropped(p: string, tail: string)
    ensures "/" + p + "/" + [] + tail == "/" + p + "/" + tail
  {
  }

  /** A version such as `/` is kept by `Service` but becomes empty here, so
      the path holds an empty segment (`/billing//x` for `x`). */
  lemma SlashVersionLeavesEmptySegment(s: ServiceClient, rawPath: string, pathEscape: string -> string)
    requires All(s.version, IsSlash)
    requires s.servicePath != [] && s.servicePath[0] != '/' && s.servicePath[|s.servicePath| - 1] != '/'
    ensures var full := FullPath(s, rawPath, [], pathEscape);
      |full| >= |s.servicePath| + 3 && full[|s.servicePath| + 1] == '/' && full[|s.servicePath| + 2] == '/'
  {
    SlashVersionPath(s, rawPath, pathEscape);
    var p := s.servicePath;
    var head := "/" + p + "/";
    var tail := EnsureLeadingSlash(rawPath);
    assert (head + tail)[|p| + 1] == head[|p| + 1];
    assert (head + tail)[|p| + 2] == tail[0];
  }

  /** The path `(*ServiceClient).Request` builds: each `{key}` replaced in
      `range` order, then the trimmed prefix. */
  method BuildPath(s: ServiceClient, rawPath: string, pathParams: seq<Pair>, pathEscape: string -> string)
    returns (fullPath: string)
    ensures fullPath == FullPath(s, rawPath, pathParams, pathEscape)
  {
    var cleanPath := if |rawPath| > 0 && rawPath[0] == '/' then rawPath else "/" + rawPath;
    var i := 0;
    while i < |pathParams|
      invariant 0 <= i <= |pathParams|
      invariant cleanPath == Substitute(EnsureLeadingSlash(rawPath), pathParams[..i], Verbatim, pathEscape)
    {
      var (key, value) := pathParams[i];
      assert pathParams[..i + 1][..i] == pathParams[..i];
      cleanPath := ReplaceAll(cleanPath, Placeholder(key), pathEscape(value));
      i := i + 1;
    }
    assert pathParams[..i] == pathParams;
    fullPath := "/" + TrimSlashes(s.servicePath) + "/" + TrimSlashes(s.version) + cleanPath;
  }

  /** `(*ServiceClient).Request`: the path built, the client's `Request`
      called. */
  method ServiceRequest(s: ServiceClient, verb: string, rawPath: string, pathParams: seq<Pair>, query: seq<Pair>,
                        body: Option<Json>, headers: seq<Pair>, rt: Runtime)
    returns (r: Result<Json, Error>)
    ensures r == Exchange(s.client, Compose(s.client, verb, FullPath(s, rawPath, pathParams, rt.pathEscape), query, body, headers, rt), rt)
  {
    var fullPath := BuildPath(s, rawPath, pathParams, rt.pathEscape);
    r := Request(s.client, verb, fullPath, query, body, headers, rt);
  }
}
