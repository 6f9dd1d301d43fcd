/** The PHP port's `ServiceClient`: its constructor (reached through
    `Client::service`), `buildPath`, `request` and the `get` .. `delete`
    shortcuts. */
module PhpServiceClient {
  import opened Strings
  import opened Http
  import PhpClient

  const EmptyServicePath: string := "`servicePath` must be a non-empty string."

  datatype ServiceClient = ServiceClient(client: PhpClient.Client, servicePath: string, version: string)

  /** What the constructor guarantees of every service client: a service
      path without slashes at its ends, and a non-empty version. */
  predicate Valid(s: ServiceClient) {
    && s.servicePath != [] && s.servicePath[0] != '/' && s.servicePath[|s.servicePath| - 1] != '/'
    && s.version != []
  }

  /** The constructor: `trim` of slashes, which must leave something; an
      empty version is the default one, any other is kept as given. */
  function New(client: PhpClient.Client, servicePath: string, version: string): (r: Result<ServiceClient, PhpClient.Error>)
    ensures r.Err? <==> All(servicePath, IsSlash)
    ensures r.Err? ==> r.error == PhpClient.InvalidArgument(EmptyServicePath)
    ensures r.Ok? ==> Valid(r.value) && r.value.client == client
    ensures r.Ok? ==> r.value.servicePath == TrimSlashes(servicePath)
    ensures r.Ok? ==> r.value.version == if version == "" then PhpClient.DefaultServiceVersion else version
  {
    var clean := TrimSlashes(servicePath);
    if clean == [] then Err(PhpClient.InvalidArgument(EmptyServicePath))
    else Ok(ServiceClient(client, clean, if version != "" then version else PhpClient.DefaultServiceVersion))
  }

  /** `Client::service`, whose version defaults to `v1` when not passed. */
  function Service(c: PhpClient.Client, servicePath: string, version: Option<string>): (r: Result<ServiceClient, PhpClient.Error>)
    ensures r == New(c, servicePath, version.GetOr(PhpClient.DefaultServiceVersion))
    ensures r.Ok? ==> r.value.version == if version == Some("") || version.None? then "v1" else version.value
  {
    New(c, servicePath, version.GetOr(PhpClient.DefaultServiceVersion))
  }

  /** `(string) $value` for a scalar: `true` is `"1"`, `false` is `""`. */
  function PhpText(p: Primitive): string {
    match p
    case PString(s) => s
    case PNumber(n) => Decimal(n)
    case PBool(b) => if b then "1" else ""
  }

  /** The path `buildPath` returns: `/{service}/{version}` and the caller's
      path (with a leading `/`), each `{key}` replaced by `rawurlencode` of
      the value's text. Slashes are neither trimmed nor collapsed. */
  function FullPath(s: ServiceClient, path: string, pathParams: seq<(string, Primitive)>, rawurlencode: string -> string): string {
    "/" + s.servicePath + "/" + s.version + Substitute(EnsureLeadingSlash(path), pathParams, PhpText, rawurlencode)
  }

  /** `buildPath`: the `foreach` over the parameters in array order. */
  method BuildPath(s: ServiceClient, path: string, pathParams: seq<(string, Primitive)>, rawurlencode: string -> string)
    returns (full: string)
    ensures full == FullPath(s, path, pathParams, rawurlencode)
  {
    var cleanPath := EnsureLeadingSlash(path);
    var i := 0;
    while i < |pathParams|
      invariant 0 <= i <= |pathParams|
      invariant cleanPath == Substitute(EnsureLeadingSlash(path), pathParams[..i], PhpText, rawurlencode)
    {
      var (key, value) := pathParams[i];
      assert pathParams[..i + 1][..i] == pathParams[..i];
      cleanPath := ReplaceAll(cleanPath, Placeholder(key), rawurlencode(PhpText(value)));
      i := i + 1;
    }
    assert pathParams[..i] == pathParams;
    full := "/" + s.servicePath + "/" + s.version + cleanPath;
  }

  /** Without parameters the path is the prefix and the caller's path. */
  lemma FullPathWithoutParams(s: ServiceClient, path: string, rawurlencode: string -> string)
    ensures FullPath(s, path, [], rawurlencode) == "/" + s.servicePath + "/" + s.version + EnsureLeadingSlash(path)
  {
  }

  /** A placeholder no parameter names passes through, when keys and
      encoded values are free of braces. */
  lemma UnmatchedPlaceholderKept(s: ServiceClient, path: string, pathParams: seq<(string, Primitive)>,
                                 rawurlencode: string -> string, other: string)
    requires BraceFree(other) && Contains(path, Placeholder(other))
    requires forall i :: 0 <= i < |pathParams| ==> pathParams[i].0 != other && BraceFree(pathParams[i].0)
    requires forall i :: 0 <= i < |pathParams| ==> BraceFree(rawurlencode(PhpText(pathParams[i].1)))
    ensures Contains(FullPath(s, path, pathParams, rawurlencode), Placeholder(other))
  {
    var p := EnsureLeadingSlash(path);
    if p != path {
      ContainsExtend("/", path, [], Placeholder(other));
      assert "/" + path + [] == p;
    }
    SubstituteKeepsUnmatched(p, pathParams, PhpText, rawurlencode, other);
    var prefix := "/" + s.servicePath + "/" + s.version;
    ContainsExtend(prefix, Substitute(p, pathParams, PhpText, rawurlencode), [], Placeholder(other));
    assert prefix + Substitute(p, pathParams, PhpText, rawurlencode) + [] == FullPath(s, path, pathParams, rawurlencode);
  }

  /** A version that ends in `/` is kept, so the path holds `//`: nothing
      collapses it. */
  lemma NoSlashCollapsing(s: ServiceClient, path: string, rawurlencode: string -> string)
    requires s.version != [] && s.version[|s.version| - 1] == '/'
    ensures var full := FullPath(s, path, [], rawurlencode);
      var k := |s.servicePath| + |s.version| + 1;
      k + 1 < |full| && full[k] == '/' && full[k + 1] == '/'
  {
    var full := FullPath(s, path, [], rawurlencode);
    var k := |s.servicePath| + |s.version| + 1;
    assert full == "/" + s.servicePath + "/" + s.version + EnsureLeadingSlash(path);
    assert full[k] == s.version[|s.version| - 1];
  }

  /** The URI the client dispatches for a service client loses only the
      leading `/` of the full path. */
  lemma DispatchedUri(s: ServiceClient, path: string, pathParams: seq<(string, Primitive)>, rawurlencode: string -> string)
    requires Valid(s)
    ensures PhpClient.Uri(FullPath(s, path, pathParams, rawurlencode))
      == s.servicePath + "/" + s.version + Substitute(EnsureLeadingSlash(path), pathParams, PhpText, rawurlencode)
  {
    var rest := s.servicePath + "/" + s.version + Substitute(EnsureLeadingSlash(path), pathParams, PhpText, rawurlencode);
    var full := FullPath(s, path, pathParams, rawurlencode);
    assert full == "/" + rest;
    assert full[1..] == rest;
    assert rest[0] != '/';
    assert TrimStart(full, IsSlash) == TrimStart(rest, IsSlash);
  }

  /** `request`: build the path, delegate to the client. */
  method Request<X>(s: ServiceClient, verb: string, path: string, options: PhpClient.Options<X>,
                    pathParams: seq<(string, Primitive)>, rawurlencode: string -> string,
                    send: (PhpClient.HttpClient, PhpClient.Call<X>) -> Result<string, string>,
                    decode: string -> Result<Json, string>)
    returns (r: Result<Json, PhpClient.Error>)
    ensures r == PhpClient.Outcome(send(s.client.httpClient,
                                        PhpClient.CallFor(s.client, verb, FullPath(s, path, pathParams, rawurlencode), options)), decode)
  {
    var full := BuildPath(s, path, pathParams, rawurlencode);
    r := PhpClient.Request(s.client, verb, full, options, send, decode);
  }

  method Get<X>(s: ServiceClient, path: string, options: PhpClient.Options<X>, pathParams: seq<(string, Primitive)>,
                rawurlencode: string -> string, send: (PhpClient.HttpClient, PhpClient.Call<X>) -> Result<string, string>,
                decode: string -> Result<Json, string>)
    returns (r: Result<Json, PhpClient.Error>)
    ensures r == PhpClient.Outcome(send(s.client.httpClient,
                                        PhpClient.CallFor(s.client, "GET", FullPath(s, path, pathParams, rawurlencode), options)), decode)
  {
    r := Request(s, "GET", path, options, pathParams, rawurlencode, send, decode);
  }

  method Post<X>(s: ServiceClient, path: string, options: PhpClient.Options<X>, pathParams: seq<(string, Primitive)>,
                 rawurlencode: string -> string, send: (PhpClient.HttpClient, PhpClient.Call<X>) -> Result<string, string>,
                 decode: string -> Result<Json, string>)
    returns (r: Result<Json, PhpClient.Error>)
    ensures r == PhpClient.Outcome(send(s.client.httpClient,
                                        PhpClient.CallFor(s.client, "POST", FullPath(s, path, pathParams, rawurlencode), options)), decode)
  {
    r := Request(s, "POST", path, options, pathParams, rawurlencode, send, decode);
  }

  method Put<X>(s: ServiceClient, path: string, options: PhpClient.Options<X>, pathParams: seq<(string, Primitive)>,
                rawurlencode: string -> string, send: (PhpClient.HttpClient, PhpClient.Call<X>) -> Result<string, string>,
                decode: string -> Result<Json, string>)
    returns (r: Result<Json, PhpClient.Error>)
    ensures r == PhpClient.Outcome(send(s.client.httpClient,
                                        PhpClient.CallFor(s.client, "PUT", FullPath(s, path, pathParams, rawurlencode), options)), decode)
  {
    r := Request(s, "PUT", path, options, pathParams, rawurlencode, send, decode);
  }

  method Patch<X>(s: ServiceClient, path: string, options: PhpClient.Options<X>, pathParams: seq<(string, Primitive)>,
                  rawurlencode: string -> string, send: (PhpClient.HttpClient, PhpClient.Call<X>) -> Result<string, string>,
                  decode: string -> Result<Json, string>)
    returns (r: Result<Json, PhpClient.Error>)
    ensures r == PhpClient.Outcome(send(s.client.httpClient,
                                        PhpClient.CallFor(s.client, "PATCH", FullPath(s, path, pathParams, rawurlencode), options)), decode)
  {
    r := Request(s, "PATCH", path, options, pathParams, rawurlencode, send, decode);
  }

  method Delete<X>(s: ServiceClient, path: string, options: PhpClient.Options<X>, pathParams: seq<(string, Primitive)>,
                   rawurlencode: string -> string, send: (PhpClient.HttpClient, PhpClient.Call<X>) -> Result<string, string>,
                   decode: string -> Result<Json, string>)
    returns (r: Result<Json, PhpClient.Error>)
    ensures r == PhpClient.Outcome(send(s.client.httpClient,
                                        PhpClient.CallFor(s.client, "DELETE", FullPath(s, path, pathParams, rawurlencode), options)), decode)
  {
    r := Request(s, "DELETE", path, options, pathParams, rawurlencode, send, decode);
  }
}
