/** The Rust port: `FabraicClient::new`, `FabraicClient::request`,
    `FabraicClient::service`, and `ServiceClient::build_path` /
    `ServiceClient::request`. */
module RustSdk {
  import opened Strings
  import opened Http

  const DefaultBaseUrl: string := "https://api.fabraic.co"
  const DefaultServiceVersion: string := "v1"
  const MissingCredentials: string := "Provide either api_key or access_token"
  /** The text of `InvalidHeaderValue`'s `to_string()`. */
  const InvalidHeaderValue: string := "failed to parse header value"
  const EmptyServicePath: string := "service_path must be non-empty"

  /** A character `HeaderValue::from_str` accepts: a tab, or anything from
      space upwards except DEL. */
  predicate HeaderValueChar(c: char) {
    c == '\t' || (' ' <= c && c != '\U{007F}')
  }

  predicate ValidHeaderValue(s: string) {
    forall i :: 0 <= i < |s| ==> HeaderValueChar(s[i])
  }

  /** A `HeaderMap`: each (lower-case) header name with its values in
      order. */
  type HeaderMap = map<string, seq<string>>

  /** The client after construction: the parsed base URL (kept as the text
      it was parsed from) and the default headers. */
  datatype FabraicClient = FabraicClient(baseUrl: string, defaultHeaders: HeaderMap)

  /** The credential `new` puts on the default headers: the access token
      whenever one is given (even empty), otherwise the API key. */
  function Credential(apiKey: Option<string>, accessToken: Option<string>): (a: Option<Auth>)
    ensures a.None? <==> apiKey.None? && accessToken.None?
    ensures accessToken.Some? ==> a == Some(Bearer(accessToken.value))
    ensures accessToken.None? && apiKey.Some? ==> a == Some(ApiKey(apiKey.value))
  {
    if accessToken.Some? then Some(Bearer(accessToken.value))
    else if apiKey.Some? then Some(ApiKey(apiKey.value))
    else None
  }

  /** The header value text a credential is sent as. */
  function AuthValue(a: Auth): string {
    match a
    case Bearer(token) => "Bearer " + token
    case ApiKey(key) => key
  }

  /** The "Bearer " prefix never makes a token invalid or valid. */
  lemma BearerValueValid(token: string)
    ensures ValidHeaderValue(AuthValue(Bearer(token))) <==> ValidHeaderValue(token)
  {
    var v := "Bearer " + token;
    assert forall i :: 0 <= i < |token| ==> v[7 + i] == token[i];
    assert forall i :: 0 <= i < 7 ==> HeaderValueChar(v[i]);
  }

  /** The default headers: `accept: application/json` and the auth header. */
  function DefaultHeaders(a: Auth): (h: HeaderMap)
    ensures h.Keys == {"accept", if a.Bearer? then "authorization" else "x-api-key"}
    ensures h["accept"] == ["application/json"]
    ensures a.Bearer? ==> h["authorization"] == ["Bearer " + a.token]
    ensures a.ApiKey? ==> h["x-api-key"] == [a.key]
  {
    var h := map["accept" := ["application/json"]];
    if a.Bearer? then h["authorization" := [AuthValue(a)]] else h["x-api-key" := [AuthValue(a)]]
  }

  /** `FabraicClient::new`. `urlError` stands for `Url::parse`: the message
      it fails with, or `None` when the text parses. */
  function New(apiKey: Option<string>, accessToken: Option<string>, baseUrl: Option<string>, urlError: string -> Option<string>)
    : (r: Result<FabraicClient, string>)
    ensures apiKey.None? && accessToken.None? ==> r == Err(MissingCredentials)
    ensures r.Ok? <==>
      && Credential(apiKey, accessToken).Some?
      && ValidHeaderValue(AuthValue(Credential(apiKey, accessToken).value))
      && urlError(TrimEnd(baseUrl.GetOr(DefaultBaseUrl), IsSlash)).None?
    ensures Credential(apiKey, accessToken).Some? && !ValidHeaderValue(AuthValue(Credential(apiKey, accessToken).value))
            ==> r == Err(InvalidHeaderValue)
    ensures var base := TrimEnd(baseUrl.GetOr(DefaultBaseUrl), IsSlash);
      (Credential(apiKey, accessToken).Some? && ValidHeaderValue(AuthValue(Credential(apiKey, accessToken).value))
       && urlError(base).Some?) ==> r == Err(urlError(base).value)
    ensures r.Ok? ==> r.value.defaultHeaders == DefaultHeaders(Credential(apiKey, accessToken).value)
    ensures r.Ok? ==> r.value.baseUrl == TrimEnd(baseUrl.GetOr(DefaultBaseUrl), IsSlash)
    ensures r.Ok? ==> r.value.baseUrl == [] || r.value.baseUrl[|r.value.baseUrl| - 1] != '/'
  {
    match Credential(apiKey, accessToken)
    case None => Err(MissingCredentials)
    case Some(a) =>
      if !ValidHeaderValue(AuthValue(a)) then Err(InvalidHeaderValue)
      else
        var base := TrimEnd(baseUrl.GetOr(DefaultBaseUrl), IsSlash);
        match urlError(base)
        case Some(e) => Err(e)
        case None => Ok(FabraicClient(base, DefaultHeaders(a)))
  }

  /** Unlike the other ports, an empty credential is still a credential:
      `Some("")` as the API key is accepted and sent as an empty
      `x-api-key`. */
  lemma EmptyApiKeyAccepted(urlError: string -> Option<string>)
    requires urlError(DefaultBaseUrl).None?
    ensures New(Some(""), None, None, urlError).Ok?
    ensures New(Some(""), None, None, urlError).value.defaultHeaders["x-api-key"] == [""]
  {
    var d := DefaultBaseUrl;
    assert d[|d| - 1] == 'o';
    assert TrimEnd(d, IsSlash) == d;
  }

  // ---------------------------------------------------------------------
  // FabraicClient::request

  /** What `request` hands to reqwest: method, base URL and absolute path
      (joined by `Url::join`), the appended query pairs, the headers and the
      JSON body. */
  datatype Call = Call(
    verb: string,
    baseUrl: string,
    path: string,
    search: seq<Pair>,
    headers: HeaderMap,
    body: Option<Json>)

  /** What reqwest hands back for a request that was sent: the status,
      and the body text or the error reading it failed with. */
  datatype Received = Received(status: int, text: Result<string, string>)

  /** The `reqwest::Error` that `request` surfaces: a failure to send or to
      read the body, or `error_for_status` on a client or server error
      status. */
  datatype RequestError = Transport(cause: string) | StatusError(status: int)

  /** `RequestBuilder::header` appends a value rather than replacing. */
  function AppendHeader(h: HeaderMap, name: string, value: string): (r: HeaderMap)
    ensures r.Keys == h.Keys + {name}
    ensures r[name] == (if name in h then h[name] else []) + [value]
    ensures forall other :: other in h && other != name ==> r[other] == h[other]
  {
    h[name := (if name in h then h[name] else []) + [value]]
  }

  /** The headers a request carries. */
  function RequestHeaders(c: FabraicClient, headers: Option<seq<Pair>>, hasBody: bool): HeaderMap {
    var merged := SetAll(c.defaultHeaders, headers.GetOr([]));
    if hasBody then AppendHeader(merged, "content-type", "application/json") else merged
  }

  /** The call `request` hands to reqwest. */
  function CallFor(c: FabraicClient, verb: string, path: string, query: Option<seq<Pair>>, body: Option<Json>, headers: Option<seq<Pair>>): Call {
    Call(verb, c.baseUrl, EnsureLeadingSlash(path), query.GetOr([]), RequestHeaders(c, headers, body.Some?), body)
  }

  /** With a body, `content-type: application/json` is always among the
      values sent, after whatever the caller set, and a caller's own
      content-type is kept beside it. */
  lemma BodyAddsContentType(c: FabraicClient, verb: string, path: string, query: Option<seq<Pair>>, body: Json, headers: seq<Pair>)
    requires "content-type" !in c.defaultHeaders
    ensures var h := CallFor(c, verb, path, query, Some(body), Some(headers)).headers;
      && "content-type" in h
      && h["content-type"] == (match Lookup(headers, "content-type") case Some(v) => [v, "application/json"] case None => ["application/json"])
  {
  }

  /** The decision on what `send` returned: a send failure propagates;
      then `error_for_status` fails on 400..599, before the body is read; a
      failure to read the body propagates; a body that is empty after
      trimming white space is `null`, and so is a body that does not parse. */
  function Outcome(received: Result<Received, string>, parse: string -> Option<Json>): (r: Result<Json, RequestError>)
    ensures received.Err? ==> r == Err(Transport(received.error))
    ensures r.Err? && r.error.StatusError? <==> received.Ok? && 400 <= received.value.status < 600
    ensures r.Err? && r.error.StatusError? ==> r.error.status == received.value.status
    ensures received.Ok? && !(400 <= received.value.status < 600) && received.value.text.Err?
            ==> r == Err(Transport(received.value.text.error))
    ensures r.Ok? <==> received.Ok? && !(400 <= received.value.status < 600) && received.value.text.Ok?
    ensures r.Ok? && All(received.value.text.value, IsUnicodeWhiteSpace) ==> r.value == JNull
    ensures r.Ok? && !All(received.value.text.value, IsUnicodeWhiteSpace)
            ==> r.value == parse(received.value.text.value).GetOr(JNull)
  {
    match received
    case Err(e) => Err(Transport(e))
    case Ok(Received(status, text)) =>
      if 400 <= status < 600 then Err(StatusError(status))
      else
        match text
        case Err(e) => Err(Transport(e))
        case Ok(body) =>
          if Trim(body, IsUnicodeWhiteSpace) == [] then Ok(JNull)
          else Ok(parse(body).GetOr(JNull))
  }

  /** Redirect and informational statuses that reach the caller are not
      errors in this port. */
  lemma RedirectIsNotAnError(body: string, parse: string -> Option<Json>)
    ensures Outcome(Ok(Received(304, Ok(body))), parse).Ok?
  {
  }

  /** `FabraicClient::request`: the query pairs appended in map order, the
      caller's headers inserted over the defaults, the body's content type,
      then the status check and decoding. `send` is the reqwest round trip,
      failing with the error `send` or `text` reports. */
  method Request(c: FabraicClient, verb: string, path: string, query: Option<seq<Pair>>, body: Option<Json>,
                 headers: Option<seq<Pair>>, send: Call -> Result<Received, string>, parse: string -> Option<Json>)
    returns (r: Result<Json, RequestError>)
    ensures r == Outcome(send(CallFor(c, verb, path, query, body, headers)), parse)
  {
    var cleanPath := if |path| > 0 && path[0] == '/' then path else "/" + path;
    var search: seq<Pair> := [];
    if query.Some? {
      var params := query.value;
      var i := 0;
      while i < |params|
        invariant 0 <= i <= |params|
        invariant search == params[..i]
      {
        search := search + [params[i]];
        i := i + 1;
      }
      assert params[..i] == params;
    }
    var requestHeaders := c.defaultHeaders;
    if headers.Some? {
      var custom := headers.value;
      var j := 0;
      while j < |custom|
        invariant 0 <= j <= |custom|
        invariant requestHeaders == SetAll(c.defaultHeaders, custom[..j])
      {
        var (name, value) := custom[j];
        assert custom[..j + 1][..j] == custom[..j];
        requestHeaders := requestHeaders[name := [value]];
        j := j + 1;
      }
      assert custom[..j] == custom;
    }
    if body.Some? {
      var existing := if "content-type" in requestHeaders then requestHeaders["content-type"] else [];
      requestHeaders := requestHeaders["content-type" := existing + ["application/json"]];
    }
    var response := send(Call(verb, c.baseUrl, cleanPath, search, requestHeaders, body));
    r := Outcome(response, parse);
  }

  // ---------------------------------------------------------------------
  // ServiceClient

  datatype ServiceClient = ServiceClient(client: FabraicClient, servicePath: string, version: string)

  /** `FabraicClient::service`: slashes (only) are trimmed from both ends;
      a version that is given, even empty, is kept as it is. */
  function Service(c: FabraicClient, servicePath: string, version: Option<string>): (r: Result<ServiceClient, string>)
    ensures r.Err? <==> All(servicePath, IsSlash)
    ensures r.Err? ==> r.error == EmptyServicePath
    ensures r.Ok? ==> r.value.client == c
    ensures r.Ok? ==> var p := r.value.servicePath; p != [] && p[0] != '/' && p[|p| - 1] != '/'
    ensures r.Ok? ==> r.value.servicePath == TrimSlashes(servicePath)
    ensures r.Ok? ==> r.value.version == version.GetOr(DefaultServiceVersion)
  {
    var clean := TrimSlashes(servicePath);
    if clean == [] then Err(EmptyServicePath)
    else
      Ok(ServiceClient(c, clean, version.GetOr(DefaultServiceVersion)))
  }

  /** The path `build_path` returns: `/{service}/{version}/` and the
      substituted path with its leading slashes removed. Values are
      substituted verbatim, without percent-encoding. */
  function FullPath(s: ServiceClient, path: string, pathParams: Option<seq<Pair>>): string {
    var substituted := Substitute(EnsureLeadingSlash(path), pathParams.GetOr([]), Verbatim, Verbatim);
    "/" + s.servicePath + "/" + s.version + "/" + TrimStart(substituted, IsSlash)
  }

  /** `ServiceClient::build_path`, replacing each `{key}` in map order. */
  method BuildPath(s: ServiceClient, path: string, pathParams: Option<seq<Pair>>) returns (full: string)
    ensures full == FullPath(s, path, pathParams)
  {
    var cleanPath := if |path| > 0 && path[0] == '/' then path else "/" + path;
    assert cleanPath == EnsureLeadingSlash(path);
    if pathParams.Some? {
      cleanPath := ReplaceParams(cleanPath, pathParams.value);
    }
    full := "/" + s.servicePath + "/" + s.version + "/" + TrimStart(cleanPath, IsSlash);
  }

  /** The loop of `build_path` over the path parameters, in map order. */
  method ReplaceParams(start: string, params: seq<Pair>) returns (out: string)
    ensures out == Substitute(start, params, Verbatim, Verbatim)
  {
    out := start;
    var i := 0;
    while i < |params|
      invariant 0 <= i <= |params|
      invariant out == Substitute(start, params[..i], Verbatim, Verbatim)
    {
      var (k, v) := params[i];
      assert params[..i + 1][..i] == params[..i];
      out := ReplaceAll(out, Placeholder(k), v);
      i := i + 1;
    }
    assert params[..i] == params;
  }

  /** The full path is the service prefix followed by a remainder that
      never starts with `/`. */
  lemma FullPathShape(s: ServiceClient, path: string, pathParams: Option<seq<Pair>>)
    ensures var prefix := "/" + s.servicePath + "/" + s.version + "/";
      var full := FullPath(s, path, pathParams);
      |full| >= |prefix| && full[..|prefix|] == prefix
      && (|full| == |prefix| || full[|prefix|] != '/')
  {
    var prefix := "/" + s.servicePath + "/" + s.version + "/";
    var rest := TrimStart(Substitute(EnsureLeadingSlash(path), pathParams.GetOr([]), Verbatim, Verbatim), IsSlash);
    assert FullPath(s, path, pathParams) == prefix + rest;
    assert rest != [] ==> !IsSlash(rest[0]);
  }

  /** Leading slashes on the caller's path make no difference. */
  lemma {:induction false} LeadingSlashesIgnored(s: ServiceClient, path: string)
    ensures FullPath(s, "/" + path, None) == FullPath(s, path, None)
  {
    var p := "/" + path;
    assert EnsureLeadingSlash(p) == p;
    assert p[1..] == path;
    if |path| > 0 && path[0] == '/' {
      assert TrimStart(p, IsSlash) == TrimStart(path, IsSlash);
    } else {
      assert EnsureLeadingSlash(path) == p;
    }
  }

  /** A version given as `Some("")` is kept, so the path holds an empty
      segment instead of the default `v1`. */
  lemma EmptyVersionKept(c: FabraicClient, servicePath: string, path: string)
    requires servicePath != [] && servicePath[0] != '/' && servicePath[|servicePath| - 1] != '/'
    requires path != [] && path[0] != '/'
    ensures Service(c, servicePath, Some("")).Ok?
    ensures FullPath(Service(c, servicePath, Some("")).value, path, None) == "/" + servicePath + "//" + path
  {
    TrimFixed(servicePath, IsSlash);
    var s := Service(c, servicePath, Some("")).value;
    assert s.servicePath == servicePath && s.version == "";
    var p := "/" + path;
    assert EnsureLeadingSlash(path) == p;
    assert p[1..] == path;
    assert TrimStart(p, IsSlash) == path;
    assert FullPath(s, path, None) == "/" + servicePath + "/" + "" + "/" + path;
  }

  /** `ServiceClient::request`: build the path, delegate to the client. */
  method ServiceRequest(s: ServiceClient, verb: string, path: string, pathParams: Option<seq<Pair>>,
                        query: Option<seq<Pair>>, body: Option<Json>, headers: Option<seq<Pair>>,
                        send: Call -> Result<Received, string>, parse: string -> Option<Json>)
    returns (r: Result<Json, RequestError>)
    ensures r == Outcome(send(CallFor(s.client, verb, FullPath(s, path, pathParams), query, body, headers)), parse)
  {
    var full := BuildPath(s, path, pathParams);
    r := Request(s.client, verb, full, query, body, headers, send, parse);
  }
}
