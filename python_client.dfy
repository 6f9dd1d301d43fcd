/** The Python port: the `FabraicClient` dataclass (its `__post_init__`,
    `request` and `service`) and `ServiceClient` (`__init__`, `_build_path`,
    `request`, `get..delete`). */
module PythonSdk {
  import opened Strings
  import opened Http

  const DefaultBaseUrl: string := "https://api.fabraic.co"
  const DefaultServiceVersion: string := "v1"
  const MissingCredentials: string := "Provide either `api_key` or `access_token`"
  const EmptyServicePath: string := "`service_path` must be a non-empty string"

  /** Python truthiness of an optional string: `None` and `""` are falsy. */
  predicate Truthy(s: Option<string>) {
    s.Some? && s.value != ""
  }

  /** `str(x)` of an optional string. */
  function PyStrOption(s: Option<string>): string {
    match s
    case Some(v) => v
    case None => "None"
  }

  /** `str(value)` of a scalar path parameter. */
  function PyStr(v: Primitive): string {
    match v
    case PString(s) => s
    case PNumber(n) => Decimal(n)
    case PBool(b) => if b then "True" else "False"
  }

  /** `str.upper` on ASCII letters. */
  function Upper(s: string): (r: string)
    ensures |r| == |s|
    ensures forall i :: 0 <= i < |s| ==> r[i] == (if 'a' <= s[i] <= 'z' then (s[i] as int - 32) as char else s[i])
  {
    seq(|s|, i requires 0 <= i < |s| => if 'a' <= s[i] <= 'z' then (s[i] as int - 32) as char else s[i])
  }

  /** Upper-casing is idempotent, so an already upper-case method name is
      sent as it is. */
  lemma UpperIdempotent(s: string)
    ensures Upper(Upper(s)) == Upper(s)
  {
    var u := Upper(s);
    forall i | 0 <= i < |s| ensures Upper(u)[i] == u[i] {
      if 'a' <= s[i] <= 'z' {
        assert 'A' <= u[i] <= 'Z';
      }
    }
  }

  /** A `requests.Session`; of it only the default headers matter here. The
      object is shared: a session the caller passes in is the one whose
      headers `__post_init__` updates. */
  class Session {
    var headers: map<string, string>

    constructor (headers: map<string, string>)
      ensures this.headers == headers
    {
      this.headers := headers;
    }
  }

  /** The headers `__post_init__` adds to the session: `Accept` and one auth
      header, the access token winning whenever it is truthy. */
  function AuthDefaults(apiKey: Option<string>, accessToken: Option<string>): (h: map<string, string>)
    ensures h.Keys == {"Accept", if Truthy(accessToken) then "Authorization" else "x-api-key"}
    ensures h["Accept"] == "application/json"
    ensures Truthy(accessToken) ==> h["Authorization"] == "Bearer " + accessToken.value
    ensures !Truthy(accessToken) ==> h["x-api-key"] == PyStrOption(apiKey)
  {
    var h := map["Accept" := "application/json"];
    if Truthy(accessToken) then h["Authorization" := "Bearer " + accessToken.value]
    else h["x-api-key" := PyStrOption(apiKey)]
  }

  /** Construction accepted only with a truthy credential, so the API-key
      header carries the key itself, never the text `None`. */
  lemma ApiKeyHeaderIsTheKey(apiKey: Option<string>, accessToken: Option<string>)
    requires Truthy(apiKey) || Truthy(accessToken)
    ensures var h := AuthDefaults(apiKey, accessToken);
      !Truthy(accessToken) ==> h["x-api-key"] == apiKey.value && h["x-api-key"] != ""
  {
  }

  /** What `request` hands to `Session.request`. */
  datatype Call = Call(
    verb: string,
    url: string,
    params: Option<seq<(string, Primitive)>>,
    json: Option<Json>,
    headers: map<string, string>)

  /** The errors `request` raises: `raise_for_status`'s `HTTPError`, and the
      `JSONDecodeError` of `response.json()`. */
  datatype RequestError = HttpError(status: int) | JsonDecodeError

  /** The decision on a response: `raise_for_status` raises on 400..599;
      empty content is `None`; anything else must parse. */
  function Outcome(response: Response, parse: string -> Option<Json>): (r: Result<Json, RequestError>)
    ensures r.Err? && r.error.HttpError? <==> 400 <= response.status < 600
    ensures r.Err? && r.error.HttpError? ==> r.error.status == response.status
    ensures r == Err(JsonDecodeError) <==> !(400 <= response.status < 600) && response.body != [] && parse(response.body).None?
    ensures r.Ok? && response.body == [] ==> r.value == JNull
    ensures r.Ok? && response.body != [] ==> parse(response.body) == Some(r.value)
  {
    if 400 <= response.status < 600 then Err(HttpError(response.status))
    else if response.body == [] then Ok(JNull)
    else match parse(response.body)
      case None => Err(JsonDecodeError)
      case Some(j) => Ok(j)
  }

  /** A body of white space only is not empty content: it is handed to the
      parser. */
  lemma BlankBodyIsParsed(parse: string -> Option<Json>)
    requires parse(" ").None?
    ensures Outcome(Response(200, " "), parse) == Err(JsonDecodeError)
  {
  }

  /** The `FabraicClient` dataclass. */
  class FabraicClient {
    var apiKey: Option<string>
    var accessToken: Option<string>
    var baseUrl: string
    var session: Option<Session>

    /** The generated dataclass `__init__`: the fields as given. */
    constructor (apiKey: Option<string>, accessToken: Option<string>, baseUrl: string, session: Option<Session>)
      ensures this.apiKey == apiKey && this.accessToken == accessToken
      ensures this.baseUrl == baseUrl && this.session == session
    {
      this.apiKey := apiKey;
      this.accessToken := accessToken;
      this.baseUrl := baseUrl;
      this.session := session;
    }

    /** A client whose `__post_init__` has run has a session. */
    predicate Ready()
      reads this
    {
      session.Some?
    }

    /** `__post_init__`: without a truthy credential it raises `ValueError`
        and changes nothing; otherwise it strips every trailing `/` from the
        base URL, takes the given session or a fresh one (whose headers are
        `freshHeaders`), and updates that session's headers with `Accept`
        and the auth header. */
    method PostInit(freshHeaders: map<string, string>) returns (error: Option<string>)
      modifies this, if session.Some? then {session.value} else {}
      ensures apiKey == old(apiKey) && accessToken == old(accessToken)
      ensures error.Some? <==> !Truthy(apiKey) && !Truthy(accessToken)
      ensures error.Some? ==> error.value == MissingCredentials
      ensures error.Some? ==> baseUrl == old(baseUrl) && session == old(session)
      ensures error.Some? && session.Some? ==> session.value.headers == old(session.value.headers)
      ensures error.None? ==> baseUrl == TrimEnd(old(baseUrl), IsSlash)
      ensures error.None? ==> session.Some?
      ensures error.None? && old(session).Some? ==> session == old(session)
      ensures error.None? && old(session).None? ==> fresh(session.value)
      ensures error.None? ==>
        session.value.headers == (if old(session).Some? then old(session.value.headers) else freshHeaders) + AuthDefaults(apiKey, accessToken)
    {
      if !Truthy(apiKey) && !Truthy(accessToken) {
        return Some(MissingCredentials);
      }
      baseUrl := TrimEnd(baseUrl, IsSlash);
      if session.None? {
        var s := new Session(freshHeaders);
        session := Some(s);
      }
      var headers := map["Accept" := "application/json"];
      if Truthy(accessToken) {
        headers := headers["Authorization" := "Bearer " + accessToken.value];
      } else {
        headers := headers["x-api-key" := PyStrOption(apiKey)];
      }
      session.value.headers := session.value.headers + headers;
      error := None;
    }

    /** The call `request` makes: the upper-cased method, the base URL
        followed by the path with a leading `/`, the session headers updated
        with the caller's, and params and json as given. */
    function CallFor(verb: string, path: string, params: Option<seq<(string, Primitive)>>, json: Option<Json>,
                     headers: Option<map<string, string>>): Call
      requires Ready()
      reads this, session.value
    {
      Call(Upper(verb), baseUrl + EnsureLeadingSlash(path), params, json, session.value.headers + headers.GetOr(map[]))
    }

    /** The caller's headers win over the session's, and the session's stay
        where the caller names nothing. */
    lemma CallerHeadersWin(verb: string, path: string, params: Option<seq<(string, Primitive)>>, json: Option<Json>,
                           headers: map<string, string>)
      requires Ready()
      ensures var h := CallFor(verb, path, params, json, Some(headers)).headers;
        && h.Keys == session.value.headers.Keys + headers.Keys
        && (forall k :: k in headers ==> h[k] == headers[k])
        && (forall k :: k in session.value.headers && k !in headers ==> h[k] == session.value.headers[k])
    {
    }

    /** `FabraicClient.request`; `send` is the session's round trip. */
    method Request(verb: string, path: string, params: Option<seq<(string, Primitive)>>, json: Option<Json>,
                   headers: Option<map<string, string>>, send: Call -> Response, parse: string -> Option<Json>)
      returns (r: Result<Json, RequestError>)
      requires Ready()
      ensures r == Outcome(send(CallFor(verb, path, params, json, headers)), parse)
    {
      var cleanPath := if |path| > 0 && path[0] == '/' then path else "/" + path;
      var url := baseUrl + cleanPath;
      var requestHeaders := session.value.headers;
      if headers.Some? && headers.value != map[] {
        requestHeaders := requestHeaders + headers.value;
      } else {
        assert requestHeaders + headers.GetOr(map[]) == requestHeaders;
      }
      var response := send(Call(Upper(verb), url, params, json, requestHeaders));
      r := Outcome(response, parse);
    }
  }

  /** The whole construction `FabraicClient(...)`: `__init__`, then
      `__post_init__`. */
  method NewClient(apiKey: Option<string>, accessToken: Option<string>, baseUrl: string, session: Option<Session>,
                   freshHeaders: map<string, string>)
    returns (r: Result<FabraicClient, string>)
    modifies if session.Some? then {session.value} else {}
    ensures r.Err? <==> !Truthy(apiKey) && !Truthy(accessToken)
    ensures r.Err? ==> r.error == MissingCredentials
    ensures r.Ok? ==> r.value.Ready() && r.value.baseUrl == TrimEnd(baseUrl, IsSlash)
    ensures r.Ok? ==> r.value.apiKey == apiKey && r.value.accessToken == accessToken
    ensures r.Ok? ==> fresh(r.value)
    ensures r.Ok? && session.Some? ==> r.value.session == session
    ensures r.Ok? && session.None? ==> fresh(r.value.session.value)
    ensures r.Ok? ==>
      r.value.session.value.headers == (if session.Some? then old(session.value.headers) else freshHeaders) + AuthDefaults(apiKey, accessToken)
    ensures r.Err? && session.Some? ==> session.value.headers == old(session.value.headers)
  {
    var c := new FabraicClient(apiKey, accessToken, baseUrl, session);
    var error := c.PostInit(freshHeaders);
    if error.Some? {
      r := Err(error.value);
    } else {
      r := Ok(c);
    }
  }

  // ---------------------------------------------------------------------
  // ServiceClient

  datatype ServiceClient = ServiceClient(client: FabraicClient, servicePath: string, version: string)

  /** `ServiceClient.__init__` (and `FabraicClient.service`): the service
      path is stripped of `/` at both ends and must not end up empty; an
      empty version becomes `v1`. */
  function Service(client: FabraicClient, servicePath: string, version: string): (r: Result<ServiceClient, string>)
    ensures r.Err? <==> All(servicePath, IsSlash)
    ensures r.Err? ==> r.error == EmptyServicePath
    ensures r.Ok? ==> r.value.client == client && r.value.servicePath == TrimSlashes(servicePath)
    ensures r.Ok? ==> r.value.version == (if version == "" then DefaultServiceVersion else version)
  {
    var clean := TrimSlashes(servicePath);
    if clean == [] then Err(EmptyServicePath)
    else Ok(ServiceClient(client, clean, if version == "" then DefaultServiceVersion else version))
  }

  /** The path `_build_path` returns: `/{service}/{version}` followed by the
      path with a leading `/`, each `{key}` replaced by
      `quote(str(value), safe="")`; slashes are not collapsed. */
  function FullPath(s: ServiceClient, path: string, pathParams: Option<seq<(string, Primitive)>>, quote: string -> string): string {
    "/" + s.servicePath + "/" + s.version + Substitute(EnsureLeadingSlash(path), pathParams.GetOr([]), PyStr, quote)
  }

  /** `ServiceClient._build_path`: the replacement loop over the mapping's
      items. */
  method BuildPath(s: ServiceClient, path: string, pathParams: Option<seq<(string, Primitive)>>, quote: string -> string)
    returns (full: string)
    ensures full == FullPath(s, path, pathParams, quote)
  {
    var cleanPath := if |path| > 0 && path[0] == '/' then path else "/" + path;
    if pathParams.Some? && pathParams.value != [] {
      var params := pathParams.value;
      var i := 0;
      while i < |params|
        invariant 0 <= i <= |params|
        invariant cleanPath == Substitute(EnsureLeadingSlash(path), params[..i], PyStr, quote)
      {
        var (key, value) := params[i];
        assert params[..i + 1][..i] == params[..i];
        cleanPath := ReplaceAll(cleanPath, Placeholder(key), quote(PyStr(value)));
        i := i + 1;
      }
      assert params[..i] == params;
    }
    full := "/" + s.servicePath + "/" + s.version + cleanPath;
  }

  /** Without parameters the path is the prefix and the caller's path with
      a leading `/`, kept exactly, doubled slashes included. */
  lemma FullPathWithoutParams(s: ServiceClient, path: string, quote: string -> string)
    ensures FullPath(s, path, None, quote) == "/" + s.servicePath + "/" + s.version + EnsureLeadingSlash(path)
    ensures FullPath(s, "//" + path, None, quote) == "/" + s.servicePath + "/" + s.version + "//" + path
  {
    assert ("//" + path)[0] == '/';
  }

  /** Parameters the path does not mention leave it unchanged. */
  lemma FullPathUnreferenced(s: ServiceClient, path: string, params: seq<(string, Primitive)>, quote: string -> string)
    requires forall i :: 0 <= i < |params| ==> !Contains(EnsureLeadingSlash(path), Placeholder(params[i].0))
    ensures FullPath(s, path, Some(params), quote) == FullPath(s, path, None, quote)
  {
    SubstituteUnreferenced(EnsureLeadingSlash(path), params, PyStr, quote);
  }

  /** A placeholder without a parameter passes through, given brace-free
      names and quoted values (`quote` with `safe=""` escapes braces). */
  lemma FullPathKeepsUnmatched(s: ServiceClient, path: string, params: seq<(string, Primitive)>, quote: string -> string, name: string)
    requires BraceFree(name) && Contains(EnsureLeadingSlash(path), Placeholder(name))
    requires forall i :: 0 <= i < |params| ==> params[i].0 != name && BraceFree(params[i].0)
    requires forall i :: 0 <= i < |params| ==> BraceFree(quote(PyStr(params[i].1)))
    ensures Contains(FullPath(s, path, Some(params), quote), Placeholder(name))
  {
    SubstituteKeepsUnmatched(EnsureLeadingSlash(path), params, PyStr, quote, name);
    ContainsExtend("/" + s.servicePath + "/" + s.version, Substitute(EnsureLeadingSlash(path), params, PyStr, quote), "", Placeholder(name));
    assert "/" + s.servicePath + "/" + s.version + Substitute(EnsureLeadingSlash(path), params, PyStr, quote) + ""
        == FullPath(s, path, Some(params), quote);
  }

  /** The keyword arguments `request` forwards besides the method. */
  datatype Options = Options(
    params: Option<seq<(string, Primitive)>>,
    json: Option<Json>,
    headers: Option<map<string, string>>,
    pathParams: Option<seq<(string, Primitive)>>)

  /** `ServiceClient.request`: build the path, delegate to the client. */
  method ServiceRequest(s: ServiceClient, path: string, verb: string, options: Options, quote: string -> string,
                        send: Call -> Response, parse: string -> Option<Json>)
    returns (r: Result<Json, RequestError>)
    requires s.client.Ready()
    ensures r == Outcome(send(s.client.CallFor(verb, FullPath(s, path, options.pathParams, quote), options.params, options.json, options.headers)), parse)
  {
    var full := BuildPath(s, path, options.pathParams, quote);
    r := s.client.Request(verb, full, options.params, options.json, options.headers, send, parse);
  }

  method Get(s: ServiceClient, path: string, options: Options, quote: string -> string, send: Call -> Response, parse: string -> Option<Json>)
    returns (r: Result<Json, RequestError>)
    requires s.client.Ready()
    ensures r == Outcome(send(s.client.CallFor("GET", FullPath(s, path, options.pathParams, quote), options.params, options.json, options.headers)), parse)
  {
    r := ServiceRequest(s, path, "GET", options, quote, send, parse);
  }

  method Post(s: ServiceClient, path: string, options: Options, quote: string -> string, send: Call -> Response, parse: string -> Option<Json>)
    returns (r: Result<Json, RequestError>)
    requires s.client.Ready()
    ensures r == Outcome(send(s.client.CallFor("POST", FullPath(s, path, options.pathParams, quote), options.params, options.json, options.headers)), parse)
  {
    r := ServiceRequest(s, path, "POST", options, quote, send, parse);
  }

  method Put(s: ServiceClient, path: string, options: Options, quote: string -> string, send: Call -> Response, parse: string -> Option<Json>)
    returns (r: Result<Json, RequestError>)
    requires s.client.Ready()
    ensures r == Outcome(send(s.client.CallFor("PUT", FullPath(s, path, options.pathParams, quote), options.params, options.json, options.headers)), parse)
  {
    r := ServiceRequest(s, path, "PUT", options, quote, send, parse);
  }

  method Patch(s: ServiceClient, path: string, options: Options, quote: string -> string, send: Call -> Response, parse: string -> Option<Json>)
    returns (r: Result<Json, RequestError>)
    requires s.client.Ready()
    ensures r == Outcome(send(s.client.CallFor("PATCH", FullPath(s, path, options.pathParams, quote), options.params, options.json, options.headers)), parse)
  {
    r := ServiceRequest(s, path, "PATCH", options, quote, send, parse);
  }

  method Delete(s: ServiceClient, path: string, options: Options, quote: string -> string, send: Call -> Response, parse: string -> Option<Json>)
    returns (r: Result<Json, RequestError>)
    requires s.client.Ready()
    ensures r == Outcome(send(s.client.CallFor("DELETE", FullPath(s, path, options.pathParams, quote), options.params, options.json, options.headers)), parse)
  {
    r := ServiceRequest(s, path, "DELETE", options, quote, send, parse);
  }

  /** A method name without lower-case letters, such as the fixed names
      of the convenience methods, is sent exactly as given. */
  lemma UpperKeepsUpperCase(s: string)
    requires forall i :: 0 <= i < |s| ==> !('a' <= s[i] <= 'z')
    ensures Upper(s) == s
  {
  }
}
