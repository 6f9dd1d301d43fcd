/** String operations shared by all five ports: trimming, slash collapsing,
    literal replacement and `{key}` placeholder substitution. */
module Strings {

  predicate IsSlash(c: char) { c == '/' }

  /** The characters JavaScript's `String.prototype.trim` removes:
      WhiteSpace and LineTerminator of ECMA-262. */
  predicate IsJsWhitespace(c: char) {
    || c == '\t' || c == '\n' || c == '\U{000B}' || c == '\U{000C}' || c == '\r'
    || c == ' ' || c == '\U{00A0}' || c == '\U{1680}'
    || ('\U{2000}' <= c <= '\U{200A}')
    || c == '\U{2028}' || c == '\U{2029}' || c == '\U{202F}' || c == '\U{205F}'
    || c == '\U{3000}' || c == '\U{FEFF}'
  }

  /** The Unicode White_Space property, used by Rust's `str::trim` and Go's
      `bytes.TrimSpace`. */
  predicate IsUnicodeWhiteSpace(c: char) {
    || ('\t' <= c <= '\r') || c == ' ' || c == '\U{0085}' || c == '\U{00A0}'
    || c == '\U{1680}' || ('\U{2000}' <= c <= '\U{200A}')
    || c == '\U{2028}' || c == '\U{2029}' || c == '\U{202F}' || c == '\U{205F}'
    || c == '\U{3000}'
  }

  predicate All(s: string, p: char -> bool) {
    forall i :: 0 <= i < |s| ==> p(s[i])
  }

  /** Removes every leading character satisfying `drop`: the result is a
      suffix of `s` that does not start with such a character
      (`TrimStartDropped`: everything removed was one). */
  function TrimStart(s: string, drop: char -> bool): (r: string)
    ensures |r| <= |s| && r == s[|s| - |r|..]
    ensures r == [] || !drop(r[0])
    decreases |s|
  {
    if |s| > 0 && drop(s[0]) then TrimStart(s[1..], drop) else s
  }

  lemma {:induction false} TrimStartDropped(s: string, drop: char -> bool)
    ensures forall i :: 0 <= i < |s| - |TrimStart(s, drop)| ==> drop(s[i])
    decreases |s|
  {
    if |s| > 0 && drop(s[0]) {
      TrimStartDropped(s[1..], drop);
      assert forall i :: 1 <= i < |s| ==> s[1..][i - 1] == s[i];
    }
  }

  /** Removes every trailing character satisfying `drop`: the result is a
      prefix of `s` that does not end with such a character
      (`TrimEndDropped`: everything removed was one). */
  function TrimEnd(s: string, drop: char -> bool): (r: string)
    ensures |r| <= |s| && r == s[..|r|]
    ensures r == [] || !drop(r[|r| - 1])
    decreases |s|
  {
    if |s| > 0 && drop(s[|s| - 1]) then TrimEnd(s[..|s| - 1], drop) else s
  }

  lemma {:induction false} TrimEndDropped(s: string, drop: char -> bool)
    ensures forall i :: |TrimEnd(s, drop)| <= i < |s| ==> drop(s[i])
    decreases |s|
  {
    if |s| > 0 && drop(s[|s| - 1]) {
      TrimEndDropped(s[..|s| - 1], drop);
      assert forall i :: 0 <= i < |s| - 1 ==> s[..|s| - 1][i] == s[i];
    }
  }

  /** Removes every leading and trailing character satisfying `drop`: what
      is left neither starts nor ends with such a character, and it is empty
      exactly when every character of `s` is one (`TrimContained` shows it
      is a slice of `s`). */
  function Trim(s: string, drop: char -> bool): (r: string)
    ensures r == [] || (!drop(r[0]) && !drop(r[|r| - 1]))
    ensures r == [] <==> All(s, drop)
  {
    var t := TrimStart(s, drop);
    var r := TrimEnd(t, drop);
    TrimFacts(s, drop, t, r);
    r
  }

  lemma TrimFacts(s: string, drop: char -> bool, t: string, r: string)
    requires t == TrimStart(s, drop) && r == TrimEnd(t, drop)
    ensures r == s[|s| - |t|..|s| - |t| + |r|]
    ensures r == [] || (!drop(r[0]) && !drop(r[|r| - 1]))
    ensures r == [] <==> All(s, drop)
  {
    assert r == s[|s| - |t|..|s| - |t| + |r|];
    assert r != [] ==> r[0] == t[0];
    TrimEmptyExactly(s, drop, t, r);
  }

  lemma TrimEmptyExactly(s: string, drop: char -> bool, t: string, r: string)
    requires t == TrimStart(s, drop) && r == TrimEnd(t, drop)
    ensures r == [] <==> All(s, drop)
  {
    var k := |s| - |t|;
    if r == [] {
      TrimStartDropped(s, drop);
      TrimEndDropped(t, drop);
      assert t == s[k..];
    } else {
      assert t[0] == s[k];
    }
  }

  /** A string that neither starts nor ends with a character to drop is
      its own trim. */
  lemma TrimFixed(s: string, drop: char -> bool)
    requires s != [] && !drop(s[0]) && !drop(s[|s| - 1])
    ensures Trim(s, drop) == s
  {
    assert TrimStart(s, drop) == s;
  }

  /** Every leading and trailing `/` removed. */
  function TrimSlashes(s: string): (r: string)
    ensures r == [] <==> All(s, IsSlash)
    ensures r != [] ==> r[0] != '/' && r[|r| - 1] != '/'
  {
    var r := Trim(s, IsSlash);
    assert r != [] ==> !IsSlash(r[0]) && !IsSlash(r[|r| - 1]);
    r
  }

  /** A string with no `/` at either end is its own slash-trim. */
  lemma TrimSlashesFixed(s: string)
    requires s != [] && s[0] != '/' && s[|s| - 1] != '/'
    ensures TrimSlashes(s) == s
  {
    TrimFixed(s, IsSlash);
  }

  /** A string of slashes trims to nothing. */
  lemma TrimSlashesAllSlashes(s: string)
    requires All(s, IsSlash)
    ensures TrimSlashes(s) == []
  {
  }

  /** Trimming twice removes nothing more. */
  lemma TrimIdempotent(s: string, drop: char -> bool)
    ensures Trim(Trim(s, drop), drop) == Trim(s, drop)
  {
    var r := Trim(s, drop);
    if r != [] {
      assert TrimStart(r, drop) == r;
      assert TrimEnd(r, drop) == r;
    }
  }

  predicate SlashFree(s: string) {
    forall i :: 0 <= i < |s| ==> s[i] != '/'
  }

  predicate DoubleSlashAt(s: string, i: int)
    requires 0 <= i < |s| - 1
  {
    s[i] == '/' && s[i + 1] == '/'
  }

  predicate NoDoubleSlash(s: string) {
    forall i :: 0 <= i < |s| - 1 ==> !DoubleSlashAt(s, i)
  }

  /** Replaces every run of `/` by a single `/` (the regular expression
      replacement `/\/+/g` → `/`). */
  function CollapseSlashes(s: string): (r: string)
    ensures NoDoubleSlash(r)
    ensures |r| <= |s|
    ensures |s| > 0 ==> |r| > 0 && r[0] == s[0]
    ensures NoDoubleSlash(s) ==> r == s
    decreases |s|
  {
    if |s| <= 1 then s
    else if s[0] == '/' && s[1] == '/' then
      assert DoubleSlashAt(s, 0);
      CollapseSlashes(s[1..])
    else
      var rest := CollapseSlashes(s[1..]);
      assert NoDoubleSlash(s) ==> NoDoubleSlash(s[1..]) by {
        if NoDoubleSlash(s) {
          forall i | 0 <= i < |s[1..]| - 1 ensures !DoubleSlashAt(s[1..], i) {
            assert !DoubleSlashAt(s, i + 1);
          }
        }
      }
      var r := [s[0]] + rest;
      assert !DoubleSlashAt(r, 0);
      assert forall i :: 1 <= i < |r| - 1 ==> (DoubleSlashAt(r, i) <==> DoubleSlashAt(rest, i - 1));
      r
  }

  /** Collapsing does not distinguish `//` from `/` anywhere in a string;
      together with the fact that a string without `//` is its own collapse,
      this pins the function down. */
  lemma {:induction false} CollapseDouble(a: string, b: string)
    ensures CollapseSlashes(a + "//" + b) == CollapseSlashes(a + "/" + b)
    decreases |a|
  {
    if a == [] {
      assert a + "//" + b == "/" + ("/" + b);
      assert ("/" + ("/" + b))[1..] == "/" + b == a + "/" + b;
    } else {
      var x, y := a + "//" + b, a + "/" + b;
      assert x[1..] == a[1..] + "//" + b;
      assert y[1..] == a[1..] + "/" + b;
      CollapseDouble(a[1..], b);
      assert x[0] == y[0] && x[1] == y[1];
    }
  }

  /** A prefix that has no `//` and does not end in `/` survives collapsing
      untouched. */
  lemma {:induction false} CollapseKeepsPrefix(a: string, b: string)
    requires a != [] && NoDoubleSlash(a) && a[|a| - 1] != '/'
    ensures CollapseSlashes(a + b) == a + CollapseSlashes(b)
    decreases |a|
  {
    var s := a + b;
    if |a| == 1 {
      if |s| > 1 {
        assert s[1..] == b;
      }
    } else {
      assert !DoubleSlashAt(a, 0);
      assert s[1..] == a[1..] + b;
      assert NoDoubleSlash(a[1..]) by {
        forall i | 0 <= i < |a[1..]| - 1 ensures !DoubleSlashAt(a[1..], i) {
          assert !DoubleSlashAt(a, i + 1);
        }
      }
      CollapseKeepsPrefix(a[1..], b);
    }
  }

  /** `q` occurs in `s` as a contiguous slice. */
  predicate OccursAt(s: string, q: string, i: int) {
    0 <= i <= |s| - |q| && s[i..i + |q|] == q
  }

  predicate Contains(s: string, q: string) {
    exists i :: 0 <= i <= |s| - |q| && OccursAt(s, q, i)
  }

  lemma ContainsExtend(x: string, s: string, y: string, q: string)
    requires Contains(s, q)
    ensures Contains(x + s + y, q)
  {
    var i :| 0 <= i <= |s| - |q| && OccursAt(s, q, i);
    assert (x + s + y)[|x| + i..|x| + i + |q|] == q;
    assert OccursAt(x + s + y, q, |x| + i);
  }

  lemma ContainsTail(s: string, q: string)
    requires s != []
    ensures Contains(s[1..], q) ==> Contains(s, q)
  {
    if Contains(s[1..], q) {
      ContainsExtend(s[..1], s[1..], [], q);
      assert s[..1] + s[1..] + [] == s;
    }
  }

  lemma ContainsTransitive(s: string, t: string, r: string)
    requires Contains(s, t) && Contains(t, r)
    ensures Contains(s, r)
  {
    var i :| 0 <= i <= |s| - |t| && OccursAt(s, t, i);
    var j :| 0 <= j <= |t| - |r| && OccursAt(t, r, j);
    assert forall n :: 0 <= n < |r| ==> r[n] == t[j + n] == s[i + j + n];
    assert s[i + j..i + j + |r|] == r;
    assert OccursAt(s, r, i + j);
  }

  /** What trimming leaves is a slice of the original. */
  lemma TrimContained(s: string, drop: char -> bool)
    ensures Contains(s, Trim(s, drop))
  {
    var t := TrimStart(s, drop);
    var r := TrimEnd(t, drop);
    TrimFacts(s, drop, t, r);
    assert OccursAt(s, r, |s| - |t|);
  }

  /** A property of every character of `s` holds of every character of
      what trimming leaves. */
  lemma TrimKeepsAll(s: string, drop: char -> bool, p: char -> bool)
    requires All(s, p)
    ensures All(Trim(s, drop), p)
  {
    var t := TrimStart(s, drop);
    assert t == s[|s| - |t|..];
    assert All(t, p);
    var r := TrimEnd(t, drop);
    assert r == t[..|r|];
  }

  /** Literal, left-to-right, non-overlapping replacement of every occurrence
      of `pat` by `rep` (`replaceAll`, `str::replace`, `str.replace`,
      `strings.ReplaceAll`, `str_replace`). */
  function ReplaceAll(s: string, pat: string, rep: string): string
    requires pat != []
    decreases |s|
  {
    if |s| < |pat| then s
    else if s[..|pat|] == pat then rep + ReplaceAll(s[|pat|..], pat, rep)
    else [s[0]] + ReplaceAll(s[1..], pat, rep)
  }

  /** Replacing a pattern that does not occur changes nothing. */
  lemma {:induction false} ReplaceAbsent(s: string, pat: string, rep: string)
    requires pat != [] && !Contains(s, pat)
    ensures ReplaceAll(s, pat, rep) == s
    decreases |s|
  {
    if |s| < |pat| {
    } else {
      assert !OccursAt(s, pat, 0);
      assert s[0..|pat|] == s[..|pat|];
      ContainsTail(s, pat);
      ReplaceAbsent(s[1..], pat, rep);
    }
  }

  predicate BraceFree(s: string) {
    forall i :: 0 <= i < |s| ==> s[i] != '{' && s[i] != '}'
  }

  /** The placeholder `{key}` a path template uses for a parameter. */
  function Placeholder(key: string): (p: string)
    ensures |p| == |key| + 2 && p[0] == '{' && p[|p| - 1] == '}'
    ensures p[1..|p| - 1] == key
  {
    "{" + key + "}"
  }

  /** A first character that cannot start the pattern is copied as it is. */
  lemma ReplaceCopiesFirst(s: string, pat: string, rep: string)
    requires pat != [] && |s| > 0 && s[0] != pat[0]
    ensures ReplaceAll(s, pat, rep) == [s[0]] + ReplaceAll(s[1..], pat, rep)
  {
    if |s| >= |pat| {
      assert s[..|pat|][0] == s[0];
    }
  }

  /** Characters before the first `{` are never part of a replacement. */
  lemma {:induction false} ReplaceSkipsPrefix(s: string, m: nat, pat: string, rep: string)
    requires pat != [] && pat[0] == '{' && m <= |s|
    requires forall j :: 0 <= j < m ==> s[j] != '{'
    ensures ReplaceAll(s, pat, rep) == s[..m] + ReplaceAll(s[m..], pat, rep)
    decreases m
  {
    if m > 0 {
      var t := s[1..];
      ReplaceCopiesFirst(s, pat, rep);
      ReplaceSkipsPrefix(t, m - 1, pat, rep);
      assert t[m - 1..] == s[m..];
      assert [s[0]] + t[..m - 1] == s[..m];
    }
  }

  /** The leftmost placeholder of a template is replaced by its value. */
  lemma ReplaceLeftmost(a: string, b: string, pat: string, rep: string)
    requires pat != [] && pat[0] == '{'
    requires forall j :: 0 <= j < |a| ==> a[j] != '{'
    ensures ReplaceAll(a + pat + b, pat, rep) == a + rep + ReplaceAll(b, pat, rep)
  {
    var s := a + pat + b;
    ReplaceSkipsPrefix(s, |a|, pat, rep);
    assert s[..|a|] == a;
    assert s[|a|..] == pat + b;
    assert (pat + b)[..|pat|] == pat;
    assert (pat + b)[|pat|..] == b;
  }

  /** The only `}` of a placeholder with a brace-free name is its last character. */
  lemma PlaceholderCloseIsLast(key: string, j: int)
    requires BraceFree(key) && 0 <= j < |Placeholder(key)|
    ensures Placeholder(key)[j] == '}' ==> j == |key| + 1
    ensures 0 < j ==> Placeholder(key)[j] != '{'
  {
    var p := Placeholder(key);
    assert 0 < j < |p| - 1 ==> p[j] == key[j - 1];
  }

  /** Two placeholders with brace-free names that both start a string are
      the same placeholder. */
  lemma SamePlaceholderAtStart(s: string, key: string, other: string)
    requires BraceFree(key) && BraceFree(other)
    ensures OccursAt(s, Placeholder(key), 0) && OccursAt(s, Placeholder(other), 0) ==> key == other
  {
    var P, Q := Placeholder(key), Placeholder(other);
    if OccursAt(s, P, 0) && OccursAt(s, Q, 0) {
      var m := if |P| < |Q| then |P| else |Q|;
      assert s[m - 1] == P[m - 1] == Q[m - 1];
      PlaceholderCloseIsLast(key, m - 1);
      PlaceholderCloseIsLast(other, m - 1);
      assert |P| == |Q|;
      assert key == P[1..|P| - 1] == s[1..|P| - 1] == Q[1..|Q| - 1] == other;
    }
  }

  /** Where `{key}` is replaced at the head of `s`, an occurrence of a
      different placeholder starts after it. */
  lemma OtherPlaceholderAfterMatch(s: string, key: string, other: string, i: int)
    requires BraceFree(key) && BraceFree(other) && key != other
    requires OccursAt(s, Placeholder(key), 0) && OccursAt(s, Placeholder(other), i)
    ensures i >= |Placeholder(key)|
  {
    var P, Q := Placeholder(key), Placeholder(other);
    assert s[i] == s[i..i + |Q|][0] == '{';
    SamePlaceholderAtStart(s, key, other);
    assert i != 0;
    forall j | 0 < j < |P| ensures s[j] != '{' {
      assert s[j] == s[..|P|][j] == P[j];
      PlaceholderCloseIsLast(key, j);
    }
  }

  /** A string that starts with `{other}` but not with `{key}` keeps that
      `{other}` at the head of its replacement. */
  lemma OtherPlaceholderAtHead(s: string, key: string, other: string, rep: string)
    requires BraceFree(key) && BraceFree(other)
    requires OccursAt(s, Placeholder(other), 0) && !OccursAt(s, Placeholder(key), 0)
    ensures Contains(ReplaceAll(s, Placeholder(key), rep), Placeholder(other))
  {
    var P, Q := Placeholder(key), Placeholder(other);
    var t := s[1..];
    assert s[0..|Q|] == Q;
    forall j | 0 <= j < |other| + 1 ensures t[j] != '{' {
      assert t[j] == s[j + 1] == Q[j + 1];
      PlaceholderCloseIsLast(other, j + 1);
    }
    ReplaceSkipsPrefix(t, |other| + 1, P, rep);
    if |s| >= |P| {
      assert s[..|P|] != P;
    }
    var tail := ReplaceAll(t[|other| + 1..], P, rep);
    assert ReplaceAll(s, P, rep) == [s[0]] + t[..|other| + 1] + tail;
    assert [s[0]] + t[..|other| + 1] == s[..|Q|] == Q;
    assert OccursAt(Q + tail, Q, 0);
  }

  /** Replacing one placeholder keeps every occurrence of a different
      placeholder, provided both names and the replacement are free of
      braces. */
  lemma {:induction false} ReplaceKeepsOtherPlaceholder(s: string, key: string, other: string, rep: string)
    requires BraceFree(key) && BraceFree(other) && key != other && BraceFree(rep)
    requires Contains(s, Placeholder(other))
    ensures Contains(ReplaceAll(s, Placeholder(key), rep), Placeholder(other))
    decreases |s|
  {
    var P, Q := Placeholder(key), Placeholder(other);
    var i :| 0 <= i <= |s| - |Q| && OccursAt(s, Q, i);
    if |s| < |P| {
    } else if s[..|P|] == P {
      assert OccursAt(s, P, 0);
      OtherPlaceholderAfterMatch(s, key, other, i);
      var t := s[|P|..];
      assert t[i - |P|..i - |P| + |Q|] == s[i..i + |Q|];
      assert OccursAt(t, Q, i - |P|);
      ReplaceKeepsOtherPlaceholder(t, key, other, rep);
      ContainsExtend(rep, ReplaceAll(t, P, rep), [], Q);
      assert rep + ReplaceAll(t, P, rep) + [] == ReplaceAll(s, P, rep);
    } else if i > 0 {
      var t := s[1..];
      assert t[i - 1..i - 1 + |Q|] == s[i..i + |Q|];
      assert OccursAt(t, Q, i - 1);
      ReplaceKeepsOtherPlaceholder(t, key, other, rep);
      ContainsExtend([s[0]], ReplaceAll(t, P, rep), [], Q);
      assert [s[0]] + ReplaceAll(t, P, rep) + [] == ReplaceAll(s, P, rep);
    } else {
      OtherPlaceholderAtHead(s, key, other, rep);
    }
  }

  /** The substitution every port performs: for each `(key, value)` in
      iteration order, every `{key}` is replaced by `encode(text(value))`. */
  function Substitute<V>(path: string, params: seq<(string, V)>, text: V -> string, encode: string -> string): string
    decreases |params|
  {
    if params == [] then path
    else
      var (key, value) := params[|params| - 1];
      ReplaceAll(Substitute(path, params[..|params| - 1], text, encode), Placeholder(key), encode(text(value)))
  }

  /** A template that mentions none of the parameters comes back unchanged. */
  lemma {:induction false} SubstituteUnreferenced<V>(path: string, params: seq<(string, V)>, text: V -> string, encode: string -> string)
    requires forall i :: 0 <= i < |params| ==> !Contains(path, Placeholder(params[i].0))
    ensures Substitute(path, params, text, encode) == path
    decreases |params|
  {
    if params != [] {
      var init := params[..|params| - 1];
      assert forall i :: 0 <= i < |init| ==> init[i] == params[i];
      SubstituteUnreferenced(path, init, text, encode);
      ReplaceAbsent(path, Placeholder(params[|params| - 1].0), encode(text(params[|params| - 1].1)));
    }
  }

  /** A placeholder with no matching parameter passes through, when names
      and encoded values are free of braces. */
  lemma {:induction false} SubstituteKeepsUnmatched<V>(path: string, params: seq<(string, V)>, text: V -> string, encode: string -> string, other: string)
    requires BraceFree(other) && Contains(path, Placeholder(other))
    requires forall i :: 0 <= i < |params| ==> params[i].0 != other && BraceFree(params[i].0)
    requires forall i :: 0 <= i < |params| ==> BraceFree(encode(text(params[i].1)))
    ensures Contains(Substitute(path, params, text, encode), Placeholder(other))
    decreases |params|
  {
    if params != [] {
      var init := params[..|params| - 1];
      assert forall i :: 0 <= i < |init| ==> init[i] == params[i];
      SubstituteKeepsUnmatched(path, init, text, encode, other);
      var (key, value) := params[|params| - 1];
      ReplaceKeepsOtherPlaceholder(Substitute(path, init, text, encode), key, other, encode(text(value)));
    }
  }
}
