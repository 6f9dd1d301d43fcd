/** The TypeScript port: `FabraicClient` (credentials, base URL, request
    composition, response decoding) and `ServiceClient` (service path,
    version, path templating). */
module TypeScriptSdk {
  import opened Strings
  import opened Http

  const DefaultBaseUrl: string := "https://api.fabraic.co"
  const DefaultServiceVersion: string := "v1"
  const MissingCredentials: string := "Provide either `apiKey` or `accessToken`"
  const MissingFetch: string := "No global fetch implementation found. Provide `fetchImpl`."
  const EmptyServicePath: string := "`servicePath` must be a non-empty string"

  datatype Method = GET | POST | PUT | PATCH | DELETE

  /** JavaScript truthiness of an optional string: `undefined` and `""` are
      falsy. */
  predicate Truthy(s: Option<string>) {
    s.Some? && s.value != ""
  }

  /** `String(value)` of a primitive. */
  function JsString(v: Primitive): string {
    match v
    case PString(s) => s
    case PNumber(n) => Decimal(n)
    case PBool(b) => if b then "true" else "false"
  }

  /** `ClientConfig`; of `fetchImpl` only its presence matters here. */
  datatype ClientConfig = ClientConfig(
    apiKey: Option<string>,
    accessToken: Option<string>,
    baseUrl: Option<string>,
    hasFetchImpl: bool)

  /** The fetch implementation a client dispatches through: the injected
      `fetchImpl`, or the global `fetch` it falls back to. */
  datatype Fetcher = Injected | Global

  datatype FabraicClient = FabraicClient(
    apiKey: Option<string>,
    accessToken: Option<string>,
    baseUrl: string,
    fetcher: Fetcher)

  /** The errors the port throws: construction failures, and a failed
      request carrying its status and best-effort decoded body. */
  datatype ClientError = ConfigurationError(message: string) | RequestError(status: int, body: Json)

  /** `new FabraicClient(config)`, where `hasGlobalFetch` says whether
      `globalThis.fetch` exists. */
  function NewClient(config: ClientConfig, hasGlobalFetch: bool): (r: Result<FabraicClient, ClientError>)
    ensures r.Err? <==> (!Truthy(config.apiKey) && !Truthy(config.accessToken))
                        || (!config.hasFetchImpl && !hasGlobalFetch)
    ensures !Truthy(config.apiKey) && !Truthy(config.accessToken) ==> r == Err(ConfigurationError(MissingCredentials))
    ensures r.Err? && (Truthy(config.apiKey) || Truthy(config.accessToken)) ==> r == Err(ConfigurationError(MissingFetch))
    ensures r.Ok? ==> r.value.apiKey == config.apiKey && r.value.accessToken == config.accessToken
    ensures r.Ok? ==> (r.value.fetcher == Injected <==> config.hasFetchImpl)
    ensures r.Ok? ==>
      var given := config.baseUrl.GetOr(DefaultBaseUrl);
      r.value.baseUrl + "/" == given || (r.value.baseUrl == given && (given == [] || given[|given| - 1] != '/'))
  {
    var baseUrl := config.baseUrl.GetOr(DefaultBaseUrl);
    if !Truthy(config.apiKey) && !Truthy(config.accessToken) then
      Err(ConfigurationError(MissingCredentials))
    else if !config.hasFetchImpl && !hasGlobalFetch then
      Err(ConfigurationError(MissingFetch))
    else
      var stripped := if |baseUrl| > 0 && baseUrl[|baseUrl| - 1] == '/' then baseUrl[..|baseUrl| - 1] else baseUrl;
      assert |baseUrl| > 0 && baseUrl[|baseUrl| - 1] == '/' ==> stripped + "/" == baseUrl;
      Ok(FabraicClient(config.apiKey, config.accessToken, stripped, if config.hasFetchImpl then Injected else Global))
  }

  /** The credential `authHeaders` sends: the access token when it is
      truthy, otherwise the API key when that is truthy. */
  function Credential(c: FabraicClient): (a: Option<Auth>)
    ensures a.Some? && a.value.Bearer? <==> Truthy(c.accessToken)
    ensures a.Some? && a.value.ApiKey? <==> !Truthy(c.accessToken) && Truthy(c.apiKey)
    ensures a.Some? && a.value.Bearer? ==> a.value.token == c.accessToken.value
    ensures a.Some? && a.value.ApiKey? ==> a.value.key == c.apiKey.value
  {
    if Truthy(c.accessToken) then Some(Bearer(c.accessToken.value))
    else if Truthy(c.apiKey) then Some(ApiKey(c.apiKey.value))
    else None
  }

  /** `authHeaders()`: at most one header, `Authorization: Bearer <token>`
      or `x-api-key: <key>`, never both. */
  function AuthHeaders(c: FabraicClient): (h: map<string, string>)
    ensures h.Keys <= {"Authorization", "x-api-key"}
    ensures "Authorization" in h <==> Truthy(c.accessToken)
    ensures "x-api-key" in h <==> !Truthy(c.accessToken) && Truthy(c.apiKey)
    ensures "Authorization" in h ==> h["Authorization"] == "Bearer " + c.accessToken.value
    ensures "x-api-key" in h ==> h["x-api-key"] == c.apiKey.value
  {
    match Credential(c)
    case Some(Bearer(token)) => map["Authorization" := "Bearer " + token]
    case Some(ApiKey(key)) => map["x-api-key" := key]
    case None => map[]
  }

  /** Every client that construction accepts sends exactly one auth header,
      and the bearer form whenever both credentials are given. */
  lemma ClientSendsOneAuthHeader(config: ClientConfig, hasGlobalFetch: bool)
    requires NewClient(config, hasGlobalFetch).Ok?
    ensures var h := AuthHeaders(NewClient(config, hasGlobalFetch).value);
      && |h| == 1
      && (Truthy(config.accessToken) ==> h == map["Authorization" := "Bearer " + config.accessToken.value])
      && (!Truthy(config.accessToken) ==> h == map["x-api-key" := config.apiKey.value])
  {
    var h := AuthHeaders(NewClient(config, hasGlobalFetch).value);
    if Truthy(config.accessToken) {
      assert h.Keys == {"Authorization"};
    } else {
      assert h.Keys == {"x-api-key"};
    }
  }

  // ---------------------------------------------------------------------
  // Query parameters (`url.searchParams`)

  /** A query entry's value: `null`/`undefined`, one primitive, or an array. */
  datatype QueryValue = Missing | Single(value: Primitive) | Several(values: seq<Primitive>)

  /** `URLSearchParams.delete(name)`. */
  function RemoveParam(ps: seq<Pair>, name: string): (r: seq<Pair>)
    ensures ValuesOf(r, name) == []
    ensures forall other :: other != name ==> ValuesOf(r, other) == ValuesOf(ps, other)
    decreases |ps|
  {
    if ps == [] then []
    else if ps[0].0 == name then RemoveParam(ps[1..], name)
    else [ps[0]] + RemoveParam(ps[1..], name)
  }

  /** `URLSearchParams.set(name, value)`: the first pair named `name` takes
      the value and later ones go; with none, the pair is appended. */
  function SetParam(ps: seq<Pair>, name: string, value: string): (r: seq<Pair>)
    ensures ValuesOf(r, name) == [value]
    ensures forall other :: other != name ==> ValuesOf(r, other) == ValuesOf(ps, other)
    decreases |ps|
  {
    if ps == [] then [(name, value)]
    else if ps[0].0 == name then [(name, value)] + RemoveParam(ps[1..], name)
    else [ps[0]] + SetParam(ps[1..], name, value)
  }

  /** The pairs `append` adds for an array value, one per element in order. */
  function ArrayPairs(name: string, values: seq<Primitive>): (r: seq<Pair>)
    decreases |values|
  {
    if values == [] then []
    else ArrayPairs(name, values[..|values| - 1]) + [(name, JsString(values[|values| - 1]))]
  }

  function Texts(values: seq<Primitive>): (r: seq<string>)
    ensures |r| == |values| && forall i :: 0 <= i < |values| ==> r[i] == JsString(values[i])
  {
    seq(|values|, i requires 0 <= i < |values| => JsString(values[i]))
  }

  lemma TextsSnoc(values: seq<Primitive>)
    requires values != []
    ensures Texts(values) == Texts(values[..|values| - 1]) + [JsString(values[|values| - 1])]
  {
  }

  lemma {:induction false} ArrayPairsValues(name: string, values: seq<Primitive>, other: string)
    ensures ValuesOf(ArrayPairs(name, values), other) == if other == name then Texts(values) else []
    decreases |values|
  {
    if values != [] {
      var init := values[..|values| - 1];
      var last := (name, JsString(values[|values| - 1]));
      assert ArrayPairs(name, values) == ArrayPairs(name, init) + [last];
      ArrayPairsValues(name, init, other);
      ValuesOfConcat(ArrayPairs(name, init), [last], other);
      assert ValuesOf([last], other) == if other == name then [last.1] else [];
      TextsSnoc(values);
    }
  }

  /** The effect of one `[key, value]` of `Object.entries(query)`. */
  function ApplyQueryEntry(ps: seq<Pair>, name: string, value: QueryValue): seq<Pair> {
    match value
    case Missing => ps
    case Single(v) => SetParam(ps, name, JsString(v))
    case Several(vs) => ps + ArrayPairs(name, vs)
  }

  /** The search parameters the query loop leaves on the URL. */
  function SearchParams(query: seq<(string, QueryValue)>): seq<Pair>
    decreases |query|
  {
    if query == [] then []
    else
      var (name, value) := query[|query| - 1];
      ApplyQueryEntry(SearchParams(query[..|query| - 1]), name, value)
  }

  /** The strings a query value contributes under its name. */
  function EntryTexts(value: QueryValue): seq<string> {
    match value
    case Missing => []
    case Single(v) => [JsString(v)]
    case Several(vs) => Texts(vs)
  }

  /** For a query with distinct names: a `null`/`undefined` entry leaves no
      pair, a scalar leaves exactly one pair, an array leaves one pair per
      element in array order, and a name not in the query leaves none. */
  lemma {:induction false} SearchParamsValues(query: seq<(string, QueryValue)>, name: string)
    requires DistinctNames(query)
    ensures ValuesOf(SearchParams(query), name) ==
      match Lookup(query, name)
      case None => []
      case Some(v) => EntryTexts(v)
    decreases |query|
  {
    if query != [] {
      var init := query[..|query| - 1];
      var (last, value) := query[|query| - 1];
      assert forall i :: 0 <= i < |init| ==> init[i] == query[i];
      SearchParamsValues(init, name);
      var before := SearchParams(init);
      if value.Several? {
        ValuesOfConcat(before, ArrayPairs(last, value.values), name);
        ArrayPairsValues(last, value.values, name);
      }
      if last == name {
        assert Lookup(init, name).None?;
      }
    }
  }

  /** The example query `{tags: ["x", "y"], page: null}`. */
  lemma SearchParamsExample()
    ensures var ps := SearchParams([("tags", Several([PString("x"), PString("y")])), ("page", Missing)]);
      ValuesOf(ps, "tags") == ["x", "y"] && ValuesOf(ps, "page") == []
  {
    var tags := [PString("x"), PString("y")];
    var q := [("tags", Several(tags)), ("page", Missing)];
    assert DistinctNames(q);
    SearchParamsValues(q, "tags");
    SearchParamsValues(q, "page");
    assert q[..1] == [("tags", Several(tags))];
    assert Lookup(q, "tags") == Some(Several(tags));
    assert Texts(tags) == ["x", "y"];
  }

  // ---------------------------------------------------------------------
  // Requests

  datatype RequestOptions = RequestOptions(
    verb: Option<Method>,
    query: seq<(string, QueryValue)>,
    body: Option<Json>,
    headers: map<string, string>)

  /** What `request` hands to fetch: the method, the URL as base URL, path
      and search parameters, the headers and the serialised body. */
  datatype Call = Call(
    verb: Method,
    baseUrl: string,
    path: string,
    search: seq<Pair>,
    headers: map<string, string>,
    payload: Option<string>)

  /** The collaborators a request needs: the percent-encoder
      (`encodeURIComponent`), `JSON.stringify`, the JSON parser of
      `response.json()`, and the fetch implementations. */
  datatype Runtime = Runtime(
    encode: string -> string,
    stringify: Json -> string,
    parse: string -> Option<Json>,
    fetch: (Fetcher, Call) -> Response)

  /** The request headers: `Accept`, then the auth header, then the caller's
      headers, each overriding the one before; with a body,
      `Content-Type: application/json` overrides them all. */
  function RequestHeaders(c: FabraicClient, headers: map<string, string>, hasBody: bool): (h: map<string, string>)
    ensures h.Keys == {"Accept"} + AuthHeaders(c).Keys + headers.Keys + (if hasBody then {"Content-Type"} else {})
    ensures hasBody ==> h["Content-Type"] == "application/json"
    ensures forall k :: k in headers && !(hasBody && k == "Content-Type") ==> h[k] == headers[k]
    ensures forall k :: k in AuthHeaders(c) && k !in headers ==> h[k] == AuthHeaders(c)[k]
    ensures "Accept" !in headers ==> h["Accept"] == "application/json"
  {
    var merged := map["Accept" := "application/json"] + AuthHeaders(c) + headers;
    if hasBody then merged["Content-Type" := "application/json"] else merged
  }

  /** The call `request(path, options)` dispatches. */
  function CallFor(c: FabraicClient, path: string, options: RequestOptions, stringify: Json -> string): Call {
    Call(
      options.verb.GetOr(GET),
      c.baseUrl,
      EnsureLeadingSlash(path),
      SearchParams(options.query),
      RequestHeaders(c, options.headers, options.body.Some?),
      if options.body.Some? then Some(stringify(options.body.value)) else None)
  }

  /** The composition part of `request`: the path made absolute, the query
      loop over `url.searchParams`, the header record and the payload. */
  method ComposeRequest(c: FabraicClient, path: string, options: RequestOptions, stringify: Json -> string)
    returns (call: Call)
    ensures call == CallFor(c, path, options, stringify)
  {
    var cleanPath := if |path| > 0 && path[0] == '/' then path else "/" + path;
    var search: seq<Pair> := [];
    var i := 0;
    while i < |options.query|
      invariant 0 <= i <= |options.query|
      invariant search == SearchParams(options.query[..i])
    {
      var (key, value) := options.query[i];
      match value {
        case Missing =>
        case Several(items) =>
          var j := 0;
          while j < |items|
            invariant 0 <= j <= |items|
            invariant search == SearchParams(options.query[..i]) + ArrayPairs(key, items[..j])
          {
            assert items[..j + 1][..j] == items[..j];
            search := search + [(key, JsString(items[j]))];
            j := j + 1;
          }
          assert items[..j] == items;
        case Single(v) =>
          search := SetParam(search, key, JsString(v));
      }
      assert options.query[..i + 1][..i] == options.query[..i];
      i := i + 1;
    }
    assert options.query[..i] == options.query;
    var requestHeaders := map["Accept" := "application/json"] + AuthHeaders(c) + options.headers;
    var payload: Option<string> := None;
    if options.body.Some? {
      requestHeaders := requestHeaders["Content-Type" := "application/json"];
      payload := Some(stringify(options.body.value));
    }
    call := Call(options.verb.GetOr(GET), c.baseUrl, cleanPath, search, requestHeaders, payload);
  }

  /** `safeJson`: the parsed body, or `null` when parsing fails. */
  function SafeJson(body: string, parse: string -> Option<Json>): Json {
    parse(body).GetOr(JNull)
  }

  /** The decision `request` makes on a response: a status outside 200..299
      is a `RequestError` carrying that status; a body that does not parse
      becomes `null` on both paths, never a second failure. */
  function Outcome(response: Response, parse: string -> Option<Json>): (r: Result<Json, ClientError>)
    ensures r.Ok? <==> 200 <= response.status <= 299
    ensures r.Err? ==> r.error.RequestError? && r.error.status == response.status
    ensures parse(response.body).None? ==> r == Ok(JNull) || r == Err(RequestError(response.status, JNull))
    ensures parse(response.body).Some? ==>
      var j := parse(response.body).value;
      r == Ok(j) || r == Err(RequestError(response.status, j))
  {
    if !(200 <= response.status <= 299) then Err(RequestError(response.status, SafeJson(response.body, parse)))
    else Ok(SafeJson(response.body, parse))
  }

  /** `FabraicClient.request`: compose, dispatch through the client's fetch,
      decide. */
  method Request(c: FabraicClient, path: string, options: RequestOptions, rt: Runtime)
    returns (r: Result<Json, ClientError>)
    ensures r == Outcome(rt.fetch(c.fetcher, CallFor(c, path, options, rt.stringify)), rt.parse)
  {
    var call := ComposeRequest(c, path, options, rt.stringify);
    var response := rt.fetch(c.fetcher, call);
    r := Outcome(response, rt.parse);
  }

  // ---------------------------------------------------------------------
  // ServiceClient

  datatype ServiceClient = ServiceClient(client: FabraicClient, servicePath: string, version: string)

  /** The trimming half of `normalizeServicePath`: whitespace off both
      ends, then every leading and trailing `/`. */
  function StripServicePath(value: string): (r: string)
    ensures r == [] <==> All(Trim(value, IsJsWhitespace), IsSlash)
    ensures r != [] ==> r[0] != '/' && r[|r| - 1] != '/'
  {
    TrimSlashes(Trim(value, IsJsWhitespace))
  }

  /** `normalizeServicePath`: nothing left after stripping is an error. */
  function NormalizeServicePath(value: string): (r: Result<string, ClientError>)
    ensures r.Err? <==> All(Trim(value, IsJsWhitespace), IsSlash)
    ensures r.Err? ==> r.error == ConfigurationError(EmptyServicePath)
    ensures r.Ok? ==> r.value != [] && r.value[0] != '/' && r.value[|r.value| - 1] != '/'
  {
    var stripped := StripServicePath(value);
    if stripped == [] then Err(ConfigurationError(EmptyServicePath)) else Ok(stripped)
  }

  /** The accepted service path is a contiguous slice of what was given. */
  lemma NormalizedServicePathIsSlice(value: string)
    requires NormalizeServicePath(value).Ok?
    ensures Contains(value, NormalizeServicePath(value).value)
  {
    var t := Trim(value, IsJsWhitespace);
    TrimContained(value, IsJsWhitespace);
    TrimContained(t, IsSlash);
    ContainsTransitive(value, t, Trim(t, IsSlash));
  }

  /** A service path of only whitespace, or of only slashes, is rejected. */
  lemma BlankServicePathRejected(value: string)
    requires All(value, IsJsWhitespace) || All(value, IsSlash)
    ensures NormalizeServicePath(value).Err?
  {
    if All(value, IsSlash) {
      TrimKeepsAll(value, IsJsWhitespace, IsSlash);
    }
  }

  /** Whitespace between slashes survives: `"/ /"` is accepted as the
      service path `" "`. */
  lemma SlashSpaceSlashAccepted()
    ensures NormalizeServicePath("/ /") == Ok(" ")
  {
    var v := "/ /";
    assert !IsJsWhitespace(v[0]) && !IsJsWhitespace(v[2]);
    assert TrimStart(v, IsJsWhitespace) == v;
    assert TrimEnd(v, IsJsWhitespace) == v;
    assert v[1..] == " /";
    assert TrimStart(v, IsSlash) == " /";
    assert " /"[..1] == " ";
    assert TrimEnd(" /", IsSlash) == " ";
  }

  /** `service(servicePath, version)` and the `ServiceClient` constructor:
      an absent or empty version becomes `v1`. */
  function Service(client: FabraicClient, servicePath: string, version: Option<string>): (r: Result<ServiceClient, ClientError>)
    ensures r.Err? <==> NormalizeServicePath(servicePath).Err?
    ensures r.Err? ==> r.error == ConfigurationError(EmptyServicePath)
    ensures r.Ok? ==> r.value.client == client && Ok(r.value.servicePath) == NormalizeServicePath(servicePath)
    ensures r.Ok? ==> r.value.version != []
    ensures r.Ok? ==> (r.value.version == DefaultServiceVersion <==> !Truthy(version) || version.value == DefaultServiceVersion)
    ensures r.Ok? && Truthy(version) ==> r.value.version == version.value
  {
    match NormalizeServicePath(servicePath)
    case Err(e) => Err(e)
    case Ok(path) => Ok(ServiceClient(client, path, if Truthy(version) then version.value else DefaultServiceVersion))
  }

  /** `applyPathParams`: no parameters leaves the path as it is; otherwise
      every `{key}` is replaced by `encodeURIComponent(String(value))`, entry
      by entry. */
  function ApplyPathParams(path: string, pathParams: Option<seq<(string, Primitive)>>, encode: string -> string): string {
    if pathParams.None? then path else Substitute(path, pathParams.value, JsString, encode)
  }

  /** Parameters whose placeholders the path does not mention leave it
      unchanged. */
  lemma ApplyPathParamsUnreferenced(path: string, params: seq<(string, Primitive)>, encode: string -> string)
    requires forall i :: 0 <= i < |params| ==> !Contains(path, Placeholder(params[i].0))
    ensures ApplyPathParams(path, Some(params), encode) == path
  {
    SubstituteUnreferenced(path, params, JsString, encode);
  }

  /** A placeholder without a parameter passes through, given brace-free
      names and encoded values (the percent-encoder escapes braces). */
  lemma ApplyPathParamsKeepsUnmatched(path: string, params: seq<(string, Primitive)>, encode: string -> string, name: string)
    requires BraceFree(name) && Contains(path, Placeholder(name))
    requires forall i :: 0 <= i < |params| ==> params[i].0 != name && BraceFree(params[i].0)
    requires forall i :: 0 <= i < |params| ==> BraceFree(encode(JsString(params[i].1)))
    ensures Contains(ApplyPathParams(path, Some(params), encode), Placeholder(name))
  {
    SubstituteKeepsUnmatched(path, params, JsString, encode, name);
  }

  /** `buildPath`: `/{servicePath}/{version}{substituted path}` with every
      run of `/` collapsed, so it starts with `/` and never holds `//`. */
  function BuildPath(s: ServiceClient, path: string, pathParams: Option<seq<(string, Primitive)>>, encode: string -> string): (r: string)
    ensures |r| > 0 && r[0] == '/'
    ensures NoDoubleSlash(r)
  {
    CollapseSlashes("/" + s.servicePath + "/" + s.version + ApplyPathParams(EnsureLeadingSlash(path), pathParams, encode))
  }

  /** With a slash-free service path and version the result is exactly
      `/{servicePath}/{version}` followed by the collapsed substituted path. */
  lemma BuildPathShape(s: ServiceClient, path: string, pathParams: Option<seq<(string, Primitive)>>, encode: string -> string)
    requires s.servicePath != [] && s.version != [] && SlashFree(s.servicePath) && SlashFree(s.version)
    ensures BuildPath(s, path, pathParams, encode) ==
      "/" + s.servicePath + "/" + s.version + CollapseSlashes(ApplyPathParams(EnsureLeadingSlash(path), pathParams, encode))
  {
    var prefix := "/" + s.servicePath + "/" + s.version;
    PrefixHasNoDoubleSlash(s.servicePath, s.version);
    CollapseKeepsPrefix(prefix, ApplyPathParams(EnsureLeadingSlash(path), pathParams, encode));
  }

  lemma PrefixHasNoDoubleSlash(service: string, version: string)
    requires service != [] && version != [] && SlashFree(service) && SlashFree(version)
    ensures var prefix := "/" + service + "/" + version;
      NoDoubleSlash(prefix) && prefix[|prefix| - 1] != '/'
  {
    var prefix := "/" + service + "/" + version;
    forall i | 0 <= i < |prefix| - 1 ensures !DoubleSlashAt(prefix, i) {
      if i == 0 {
        assert prefix[1] == service[0];
      } else if i <= |service| {
        assert prefix[i] == service[i - 1];
      } else {
        assert prefix[i + 1] == version[i - |service| - 1];
      }
    }
    assert prefix[|prefix| - 1] == version[|version| - 1];
  }

  /** A doubled leading slash makes no difference: `buildPath("//a")` and
      `buildPath("/a")` agree. */
  lemma BuildPathIgnoresExtraSlash(s: ServiceClient, rest: string)
    ensures BuildPath(s, "//" + rest, None, Verbatim) == BuildPath(s, "/" + rest, None, Verbatim)
  {
    var prefix := "/" + s.servicePath + "/" + s.version;
    assert ("//" + rest)[0] == '/';
    assert prefix + ("//" + rest) == prefix + "//" + rest;
    assert prefix + ("/" + rest) == prefix + "/" + rest;
    CollapseDouble(prefix, rest);
  }

  /** A service path with no white space and no slash at either end is
      accepted as it is. */
  lemma PlainServicePathKept(v: string)
    requires v != [] && !IsJsWhitespace(v[0]) && !IsJsWhitespace(v[|v| - 1])
    requires v[0] != '/' && v[|v| - 1] != '/'
    ensures NormalizeServicePath(v) == Ok(v)
  {
    TrimFixed(v, IsJsWhitespace);
    TrimFixed(v, IsSlash);
  }

  lemma InvoiceTemplateFilled(encode: string -> string)
    requires encode("42") == "42"
    ensures ApplyPathParams("/invoices/{id}", Some([("id", PNumber(42))]), encode) == "/invoices/42"
  {
    var params := [("id", PNumber(42))];
    assert params[..0] == [];
    FortyTwoText();
    var a := "/invoices/";
    assert forall j :: 0 <= j < |a| ==> a[j] != '{';
    ReplaceLeftmost(a, "", Placeholder("id"), "42");
    assert a + Placeholder("id") + "" == "/invoices/{id}";
    assert ReplaceAll("", Placeholder("id"), "42") == "";
  }

  lemma FortyTwoText()
    ensures JsString(PNumber(42)) == "42"
  {
    assert Decimal(4) == "4";
  }

  /** The path of the example request: service `billing`, default version,
      `/invoices/{id}` with `id = 42`. */
  lemma BuildPathExample(client: FabraicClient, encode: string -> string)
    requires encode("42") == "42"
    ensures Service(client, "billing", None).Ok?
    ensures BuildPath(Service(client, "billing", None).value, "/invoices/{id}", Some([("id", PNumber(42))]), encode)
            == "/billing/v1/invoices/42"
  {
    var v := "billing";
    PlainServicePathKept(v);
    BillingInvoicePath(Service(client, "billing", None).value, encode);
  }

  lemma BillingInvoicePath(s: ServiceClient, encode: string -> string)
    requires s.servicePath == "billing" && s.version == "v1" && encode("42") == "42"
    ensures BuildPath(s, "/invoices/{id}", Some([("id", PNumber(42))]), encode) == "/billing/v1/invoices/42"
  {
    var params := Some([("id", PNumber(42))]);
    assert SlashFree("billing") && SlashFree("v1");
    BuildPathShape(s, "/invoices/{id}", params, encode);
    assert EnsureLeadingSlash("/invoices/{id}") == "/invoices/{id}";
    InvoiceTemplateFilled(encode);
    InvoicePathCollapsed();
    BillingPathText();
  }

  lemma InvoicePathCollapsed()
    ensures CollapseSlashes("/invoices/42") == "/invoices/42"
  {
    assert SlashFree("invoices") && SlashFree("42");
    PrefixHasNoDoubleSlash("invoices", "42");
    assert "/" + "invoices" + "/" + "42" == "/invoices/42";
  }

  lemma BillingPathText()
    ensures "/" + "billing" + "/" + "v1" + "/invoices/42" == "/billing/v1/invoices/42"
  {
    var x := "/" + "billing" + "/" + "v1" + "/invoices/42";
    assert |x| == 23;
    assert forall i :: 0 <= i < 23 ==> x[i] == "/billing/v1/invoices/42"[i];
  }

  /** `ServiceRequestOptions`: the request options plus `pathParams`. */
  datatype ServiceRequestOptions = ServiceRequestOptions(rest: RequestOptions, pathParams: Option<seq<(string, Primitive)>>)

  /** The call a service request dispatches through its client. */
  function ServiceCall(s: ServiceClient, path: string, options: ServiceRequestOptions, rt: Runtime): Call {
    CallFor(s.client, BuildPath(s, path, options.pathParams, rt.encode), options.rest, rt.stringify)
  }

  /** `{ ...options, method }` */
  function WithMethod(options: ServiceRequestOptions, m: Method): ServiceRequestOptions {
    options.(rest := options.rest.(verb := Some(m)))
  }

  /** The convenience forms dispatch their own method whatever the options
      say, and change nothing else. */
  lemma WithMethodForcesMethod(s: ServiceClient, path: string, options: ServiceRequestOptions, rt: Runtime, m: Method)
    ensures ServiceCall(s, path, WithMethod(options, m), rt).verb == m
    ensures ServiceCall(s, path, WithMethod(options, m), rt).(verb := ServiceCall(s, path, options, rt).verb)
            == ServiceCall(s, path, options, rt)
  {
  }

  /** `ServiceClient.request`: build the path, forward the other options. */
  method ServiceRequest(s: ServiceClient, path: string, options: ServiceRequestOptions, rt: Runtime)
    returns (r: Result<Json, ClientError>)
    ensures r == Outcome(rt.fetch(s.client.fetcher, ServiceCall(s, path, options, rt)), rt.parse)
  {
    r := Request(s.client, BuildPath(s, path, options.pathParams, rt.encode), options.rest, rt);
  }

  method Get(s: ServiceClient, path: string, options: ServiceRequestOptions, rt: Runtime)
    returns (r: Result<Json, ClientError>)
    ensures r == Outcome(rt.fetch(s.client.fetcher, ServiceCall(s, path, WithMethod(options, GET), rt)), rt.parse)
  {
    r := ServiceRequest(s, path, WithMethod(options, GET), rt);
  }

  method Post(s: ServiceClient, path: string, options: ServiceRequestOptions, rt: Runtime)
    returns (r: Result<Json, ClientError>)
    ensures r == Outcome(rt.fetch(s.client.fetcher, ServiceCall(s, path, WithMethod(options, POST), rt)), rt.parse)
  {
    r := ServiceRequest(s, path, WithMethod(options, POST), rt);
  }

  method Put(s: ServiceClient, path: string, options: ServiceRequestOptions, rt: Runtime)
    returns (r: Result<Json, ClientError>)
    ensures r == Outcome(rt.fetch(s.client.fetcher, ServiceCall(s, path, WithMethod(options, PUT), rt)), rt.parse)
  {
    r := ServiceRequest(s, path, WithMethod(options, PUT), rt);
  }

  method Patch(s: ServiceClient, path: string, options: ServiceRequestOptions, rt: Runtime)
    returns (r: Result<Json, ClientError>)
    ensures r == Outcome(rt.fetch(s.client.fetcher, ServiceCall(s, path, WithMethod(options, PATCH), rt)), rt.parse)
  {
    r := ServiceRequest(s, path, WithMethod(options, PATCH), rt);
  }

  method Delete(s: ServiceClient, path: string, options: ServiceRequestOptions, rt: Runtime)
    returns (r: Result<Json, ClientError>)
    ensures r == Outcome(rt.fetch(s.client.fetcher, ServiceCall(s, path, WithMethod(options, DELETE), rt)), rt.parse)
  {
    r := ServiceRequest(s, path, WithMethod(options, DELETE), rt);
  }
}
