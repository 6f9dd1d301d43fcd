/** The PHP port's `Client`: the constructor (credentials, base URL,
    default headers) and `request` (path, header merge, decoding).
    Header arrays are PHP arrays with string keys: ordered, each key once. */
module PhpClient {
  import opened Strings
  import opened Http

  const DefaultBaseUrl: string := "https://api.fabraic.co"
  const DefaultServiceVersion: string := "v1"
  const MissingCredentials: string := "Provide either `api_key` or `access_token`."

  // ---------------------------------------------------------------------
  // PHP arrays with string keys

  /** A PHP array with string keys: ordered pairs, each key at most once. */
  type PhpArray = arr: seq<Pair> | DistinctNames(arr) witness []

  /** The position of `key` in `arr`, or -1 when `arr` has no such key. */
  function IndexOf(arr: seq<Pair>, key: string): (i: int)
    ensures -1 <= i < |arr|
    ensures i >= 0 ==> arr[i].0 == key
    ensures i == -1 <==> forall j :: 0 <= j < |arr| ==> arr[j].0 != key
    decreases |arr|
  {
    if arr == [] then -1
    else if arr[|arr| - 1].0 == key then |arr| - 1
    else IndexOf(arr[..|arr| - 1], key)
  }

  /** In an array whose keys are distinct, the value found for a key is the
      one at its position. */
  lemma {:induction false} LookupAt(arr: seq<Pair>, i: int)
    requires DistinctNames(arr) && 0 <= i < |arr|
    ensures Lookup(arr, arr[i].0) == Some(arr[i].1)
    decreases |arr|
  {
    if i < |arr| - 1 {
      var init := arr[..|arr| - 1];
      assert init[i] == arr[i];
      assert DistinctNames(init) by {
        forall a, b | 0 <= a < b < |init| ensures init[a].0 != init[b].0 {
          assert init[a] == arr[a] && init[b] == arr[b];
        }
      }
      assert arr[|arr| - 1].0 != arr[i].0;
      LookupAt(init, i);
    }
  }

  /** `$arr[$key] = $value`: an existing key keeps its position and takes
      the new value; a new key is appended. */
  function Assign(arr: PhpArray, key: string, value: string): (r: PhpArray)
    ensures |r| == |arr| + (if IndexOf(arr, key) >= 0 then 0 else 1)
    ensures forall i :: 0 <= i < |arr| ==> r[i].0 == arr[i].0
    ensures Lookup(r, key) == Some(value)
    ensures forall k :: k != key ==> Lookup(r, k) == Lookup(arr, k)
  {
    var i := IndexOf(arr, key);
    var r := if i >= 0 then arr[i := (key, value)] else arr + [(key, value)];
    assert r[if i >= 0 then i else |arr|] == (key, value);
    LookupAt(r, if i >= 0 then i else |arr|);
    forall k | k != key ensures Lookup(r, k) == Lookup(arr, k) {
      var j := IndexOf(arr, k);
      if j >= 0 {
        assert r[j] == arr[j];
        LookupAt(r, j);
        LookupAt(arr, j);
      } else {
        assert forall m :: 0 <= m < |r| ==> r[m].0 != k;
      }
    }
    assert DistinctNames(r) by {
      forall a, b | 0 <= a < b < |r| ensures r[a].0 != r[b].0 {
        if b < |arr| {
          assert r[a].0 == arr[a].0 && r[b].0 == arr[b].0;
        }
      }
    }
    r
  }

  /** `array_merge($a, $b)` for string keys: `$a`'s keys in their order, then
      `$b`'s new keys in theirs; on a shared key `$b`'s value wins. */
  function ArrayMerge(a: PhpArray, b: PhpArray): (r: PhpArray)
    ensures |r| >= |a|
    ensures forall i :: 0 <= i < |a| ==> r[i].0 == a[i].0
    ensures forall k :: Lookup(r, k) == if Lookup(b, k).Some? then Lookup(b, k) else Lookup(a, k)
    decreases |b|
  {
    if b == [] then a
    else
      var init := b[..|b| - 1];
      assert DistinctNames(init) by {
        forall i, j | 0 <= i < j < |init| ensures init[i].0 != init[j].0 {
          assert init[i] == b[i] && init[j] == b[j];
        }
      }
      var (key, value) := b[|b| - 1];
      Assign(ArrayMerge(a, init), key, value)
  }

  // ---------------------------------------------------------------------
  // Construction

  /** PHP truthiness of an optional string: `null`, `''` and `'0'` are
      false. */
  predicate Truthy(v: Option<string>) {
    v.Some? && v.value != "" && v.value != "0"
  }

  /** The Guzzle client requests go through: one built on the base URL, or
      the one the caller injected. */
  datatype HttpClient = Guzzle(baseUri: string) | Injected(id: nat)

  /** The constructor's `$config`; a missing key is `None`. */
  datatype Config = Config(apiKey: Option<string>, accessToken: Option<string>, baseUrl: Option<string>,
                           httpClient: Option<HttpClient>)

  datatype Client = Client(httpClient: HttpClient, defaultHeaders: PhpArray)

  /** The errors a PHP caller sees: an `InvalidArgumentException`, whatever
      Guzzle throws (transport failures, and error statuses unless the
      options turn them off), or the `JsonException` of a body that does
      not decode. */
  datatype Error = InvalidArgument(message: string) | Transfer(cause: string) | JsonError(cause: string)

  /** The default headers, built by successive assignment: `Accept`, then
      the bearer token when the access token is truthy, else the API key. */
  function DefaultHeaders(apiKey: string, accessToken: Option<string>): (h: PhpArray)
    ensures |h| == 2
    ensures h[0] == ("Accept", "application/json")
    ensures Truthy(accessToken) ==> h[1] == ("Authorization", "Bearer " + accessToken.value)
    ensures !Truthy(accessToken) ==> h[1] == ("x-api-key", apiKey)
  {
    var h := Assign([], "Accept", "application/json");
    if Truthy(accessToken) then Assign(h, "Authorization", "Bearer " + accessToken.value)
    else Assign(h, "x-api-key", apiKey)
  }

  /** The constructor: `rtrim` of the base URL (the default only when the
      key is missing), the credential check, the headers, and Guzzle built
      on the base URL unless a client is injected. */
  function New(cfg: Config): (r: Result<Client, Error>)
    ensures r.Err? <==> !Truthy(cfg.apiKey) && !Truthy(cfg.accessToken)
    ensures r.Err? ==> r.error == InvalidArgument(MissingCredentials)
    ensures r.Ok? && cfg.httpClient.Some? ==> r.value.httpClient == cfg.httpClient.value
    ensures r.Ok? && cfg.httpClient.None? ==>
      r.value.httpClient == Guzzle(TrimEnd(cfg.baseUrl.GetOr(DefaultBaseUrl), IsSlash))
    ensures r.Ok? ==> r.value.defaultHeaders == DefaultHeaders(cfg.apiKey.GetOr(""), cfg.accessToken)
  {
    var baseUrl := TrimEnd(cfg.baseUrl.GetOr(DefaultBaseUrl), IsSlash);
    if !Truthy(cfg.apiKey) && !Truthy(cfg.accessToken) then Err(InvalidArgument(MissingCredentials))
    else
      Ok(Client(cfg.httpClient.GetOr(Guzzle(baseUrl)), DefaultHeaders(cfg.apiKey.GetOr(""), cfg.accessToken)))
  }

  /** Exactly one auth header is sent by default, and the access token wins
      over the API key. */
  lemma OneAuthHeader(cfg: Config)
    requires New(cfg).Ok?
    ensures var h := New(cfg).value.defaultHeaders;
      (Lookup(h, "Authorization").Some? <==> Truthy(cfg.accessToken))
      && (Lookup(h, "x-api-key").Some? <==> !Truthy(cfg.accessToken))
      && Lookup(h, "Accept") == Some("application/json")
  {
    var h := New(cfg).value.defaultHeaders;
    LookupAt(h, 0);
    LookupAt(h, 1);
  }

  /** The string `'0'` is not a credential. */
  lemma ZeroIsNoCredential(baseUrl: Option<string>, httpClient: Option<HttpClient>)
    ensures New(Config(Some("0"), Some("0"), baseUrl, httpClient)) == Err(InvalidArgument(MissingCredentials))
  {
  }

  /** Only a missing `base_url` falls back to the default: an empty or
      all-slash one leaves Guzzle an empty base URI. */
  lemma SlashBaseUrlIsEmpty(apiKey: string, n: nat)
    requires Truthy(Some(apiKey))
    ensures New(Config(Some(apiKey), None, Some(seq(n, _ => '/')), None)).value.httpClient == Guzzle("")
  {
  }

  // ---------------------------------------------------------------------
  // request

  /** The `$options` array: its `headers` entry, and every other option,
      which `request` passes to Guzzle untouched. */
  datatype Options<X> = Options(headers: Option<PhpArray>, others: X)

  /** What `request` hands to Guzzle: the method, the relative URI and the
      options. */
  datatype Call<X> = Call(verb: string, uri: string, options: Options<X>)

  /** The call `request` makes: leading slashes dropped from the path, the
      caller's headers merged over the defaults. */
  function CallFor<X>(c: Client, verb: string, path: string, options: Options<X>): (call: Call<X>)
    ensures call.verb == verb
    ensures call.uri == Uri(path)
    ensures call.options.others == options.others
    ensures call.options.headers == Some(ArrayMerge(c.defaultHeaders, options.headers.GetOr([])))
  {
    Call(verb, Uri(path), options.(headers := Some(ArrayMerge(c.defaultHeaders, options.headers.GetOr([])))))
  }

  /** The URI `request` dispatches: the path with its leading slashes
      removed (`ltrim($path, '/')`). It never starts with `/`, and only
      slashes were dropped in front of it. */
  function Uri(path: string): (uri: string)
    ensures uri == [] || uri[0] != '/'
    ensures |uri| <= |path| && uri == path[|path| - |uri|..]
  {
    TrimStart(path, IsSlash)
  }

  lemma UriDropsOnlySlashes(path: string)
    ensures |Uri(path)| <= |path| && All(path[..|path| - |Uri(path)|], IsSlash)
  {
    TrimStartDropped(path, IsSlash);
    var k := |path| - |Uri(path)|;
    assert forall i :: 0 <= i < k ==> path[..k][i] == path[i];
  }

  /** The headers sent: every default header first, in order, with the
      caller's value when the caller names it, and the caller's other
      headers after them. */
  lemma CallerHeadersOverride<X>(c: Client, verb: string, path: string, options: Options<X>, name: string)
    ensures var sent := ArrayMerge(c.defaultHeaders, options.headers.GetOr([]));
      && CallFor(c, verb, path, options).options.headers == Some(sent)
      && |c.defaultHeaders| <= |sent|
      && (forall i :: 0 <= i < |c.defaultHeaders| ==> sent[i].0 == c.defaultHeaders[i].0)
      && Lookup(sent, name) ==
           if Lookup(options.headers.GetOr([]), name).Some? then Lookup(options.headers.GetOr([]), name)
           else Lookup(c.defaultHeaders, name)
  {
  }

  /** The decision on what Guzzle returned: its exception propagates; an
      empty body is `null`; any other body must decode. */
  function Outcome(received: Result<string, string>, decode: string -> Result<Json, string>): (r: Result<Json, Error>)
    ensures received.Err? ==> r == Err(Transfer(received.error))
    ensures received == Ok("") ==> r == Ok(JNull)
    ensures received.Ok? && received.value != "" ==>
      r == match decode(received.value)
           case Ok(j) => Ok(j)
           case Err(e) => Err(JsonError(e))
  {
    match received
    case Err(e) => Err(Transfer(e))
    case Ok(body) =>
      if body == "" then Ok(JNull)
      else
        match decode(body)
        case Ok(j) => Ok(j)
        case Err(e) => Err(JsonError(e))
  }

  /** Only the empty body is `null`: a body of white space goes to
      `json_decode`, whose syntax error is raised. */
  lemma BlankBodyIsDecoded(decode: string -> Result<Json, string>)
    requires decode(" ").Err?
    ensures Outcome(Ok(" "), decode) == Err(JsonError(decode(" ").error))
  {
  }

  /** `request`: `$options['headers']` replaced by the merge, Guzzle called,
      the body decided. `send` stands for Guzzle's `request` and reading
      the body. */
  method Request<X>(c: Client, verb: string, path: string, options: Options<X>,
                    send: (HttpClient, Call<X>) -> Result<string, string>, decode: string -> Result<Json, string>)
    returns (r: Result<Json, Error>)
    ensures r == Outcome(send(c.httpClient, CallFor(c, verb, path, options)), decode)
  {
    var call := CallFor(c, verb, path, options);
    var received := send(c.httpClient, call);
    r := Outcome(received, decode);
  }
}
