/** Values every port passes around: optional values and results, decoded
    JSON, what the transport returns, credentials, query pairs and the
    scalar values that path and query parameters carry. */
module Http {
  datatype Option<T> = None | Some(value: T) {
    function GetOr(default: T): T {
      match this
      case Some(v) => v
      case None => default
    }
  }

  datatype Result<T, E> = Ok(value: T) | Err(error: E)

  /** A decoded JSON document (numbers restricted to integers). */
  datatype Json =
    | JNull
    | JBool(b: bool)
    | JNumber(n: int)
    | JString(s: string)
    | JArray(items: seq<Json>)
    | JObject(members: seq<(string, Json)>)

  /** What a transport hands back: the status code and the body text. */
  datatype Response = Response(status: int, body: string)

  /** The credential a client authenticates with. */
  datatype Auth = Bearer(token: string) | ApiKey(key: string)

  /** A scalar parameter value: a string, a number (integers only) or a
      boolean. */
  datatype Primitive = PString(s: string) | PNumber(n: int) | PBool(b: bool)

  /** A query name/value pair; a query is the ordered list of its pairs. */
  type Pair = (string, string)

  /** The values paired with `name`, in query order. */
  function ValuesOf(ps: seq<Pair>, name: string): (vs: seq<string>)
    ensures |vs| <= |ps|
  {
    if ps == [] then []
    else (if ps[0].0 == name then [ps[0].1] else []) + ValuesOf(ps[1..], name)
  }

  lemma {:induction false} ValuesOfConcat(xs: seq<Pair>, ys: seq<Pair>, name: string)
    ensures ValuesOf(xs + ys, name) == ValuesOf(xs, name) + ValuesOf(ys, name)
    decreases |xs|
  {
    if xs == [] {
      assert xs + ys == ys;
    } else {
      assert (xs + ys)[0] == xs[0];
      assert (xs + ys)[1..] == xs[1..] + ys;
      ValuesOfConcat(xs[1..], ys, name);
    }
  }

  /** No two entries share a name (the keys of a record, dictionary or map,
      listed in iteration order). */
  predicate DistinctNames<V>(entries: seq<(string, V)>) {
    forall i, j :: 0 <= i < j < |entries| ==> entries[i].0 != entries[j].0
  }

  /** The value of the last entry named `name`. */
  function Lookup<V>(entries: seq<(string, V)>, name: string): (r: Option<V>)
    ensures r.None? <==> forall i :: 0 <= i < |entries| ==> entries[i].0 != name
    decreases |entries|
  {
    if entries == [] then None
    else if entries[|entries| - 1].0 == name then Some(entries[|entries| - 1].1)
    else Lookup(entries[..|entries| - 1], name)
  }

  function Names(entries: seq<Pair>): set<string> {
    set i | 0 <= i < |entries| :: entries[i].0
  }

  /** A multi-valued map (a header map, a parsed query) after setting each
      pair in order: setting replaces every earlier value of a name, so the
      last value given for a name is its only value and names not given
      keep theirs. */
  function SetAll(m: map<string, seq<string>>, entries: seq<Pair>): (r: map<string, seq<string>>)
    ensures r.Keys == m.Keys + Names(entries)
    ensures forall name :: name in r && Lookup(entries, name).Some? ==> r[name] == [Lookup(entries, name).value]
    ensures forall name :: name in r && Lookup(entries, name).None? ==> r[name] == m[name]
    decreases |entries|
  {
    if entries == [] then m
    else
      var init := entries[..|entries| - 1];
      var (name, value) := entries[|entries| - 1];
      assert Names(entries) == Names(init) + {name} by {
        assert forall i :: 0 <= i < |init| ==> init[i] == entries[i];
      }
      SetAll(m, init)[name := [value]]
  }

  /** `path` if it starts with `/`, otherwise `/` + `path`. */
  function EnsureLeadingSlash(path: string): (r: string)
    ensures |r| > 0 && r[0] == '/'
    ensures r == path <==> |path| > 0 && path[0] == '/'
    ensures r != path ==> r == "/" + path
  {
    if |path| > 0 && path[0] == '/' then path else "/" + path
  }

  /** Decimal rendering of an integer, as every port's `String`/`str`/cast
      prints it. */
  function Decimal(n: int): (r: string)
    ensures |r| > 0
    decreases if n < 0 then -n + 1 else n
  {
    if n < 0 then "-" + Decimal(-n)
    else if n < 10 then [(48 + n) as char]
    else Decimal(n / 10) + [(48 + n % 10) as char]
  }

  /** The identity on strings: the text and encoding of a value that is
      substituted as it is. */
  function Verbatim(s: string): string { s }
}
