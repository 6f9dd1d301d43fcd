# fabraic SDK request pipeline in Dafny

The fabraic SDK is one small HTTP API client written five times: TypeScript,
Rust, Python, Go and PHP. Every port does the same job. It builds a client
from an API key or an access token and a base URL. It derives service clients
that prefix paths with `/{service}/{version}`, fills `{key}` placeholders from
path parameters, and builds the query and headers of a request. It then hands
the request to a transport and turns the response into a decoded JSON value
or an error.

This project models that request-composition pipeline port by port. The
ports differ in small but real ways, and each module keeps its own port's
rules rather than a common one:

| module | file |
|---|---|
| `Strings` (`strings.dfy`) | shared string operations: trimming by a character class, slash collapsing, literal replace-all, placeholder substitution |
| `Http` (`http.dfy`) | shared values: `Option`, `Result`, `Json`, `Response`, `Auth`, scalar parameters, query pairs, "last value wins" header setting |
| `TypeScriptSdk` (`typescript_client.dfy`) | `typescript/src/index.ts` |
| `RustSdk` (`rust_client.dfy`) | `rust/src/lib.rs` |
| `PythonSdk` (`python_client.dfy`) | `python/src/fabraic_sdk/client.py` |
| `GoSdk` (`go_client.dfy`) | `go/fabraic/client.go` |
| `PhpClient` (`php_client.dfy`) | `php/src/Client.php` |
| `PhpServiceClient` (`php_service_client.dfy`) | `php/src/ServiceClient.php` |

Clients that never change after construction are datatypes, built by a
function that returns a `Result`. The Python client is a class, because
`__post_init__` rewrites its fields and updates a session object that the
caller may share.

The source has loops in several places: the query loops, the header-merge
loops and the path-parameter replacement loops. Each becomes a `method` with
a `while` loop. The method's postcondition equates its result with a
specification function, and the properties are proved about that function.

Some things are passed in as function parameters rather than modelled:

- the transport: fetch, reqwest, `requests`, `net/http`, Guzzle;
- JSON encoding and decoding;
- the percent-encoders;
- URL parsing.

Map iteration order (JavaScript object entries, Rust `HashMap`, Go `map`,
Python dict, PHP array order) is an input: each map arrives as a sequence of
pairs in the order the loop visits them.

Where the repository's own description of the SDK and its code disagree, the
model follows the code:

- TypeScript accepts `"/ /"` as a service path. Whitespace is trimmed before
  slashes, which leaves `" "`; see `TypeScriptSdk.SlashSpaceSlashAccepted`.
- TypeScript strips only one trailing `/` from the base URL. Rust, Python,
  Go and PHP strip them all.
- Only TypeScript collapses runs of `/` in the path it builds. Rust strips
  the leading slashes of the substituted path. Python, Go and PHP build the
  path without cleaning it. Go then hands it to `path.Join`, which collapses
  `//`, resolves `.` and `..` and drops a trailing `/` before sending; that
  cleaning is not modelled (see "## Left out").
- On malformed JSON in a success response, TypeScript and Rust return
  `null`. Python, Go and PHP fail.
- Rust and Python treat only 400..599 as errors, so a redirect that reaches
  them is a success. Go treats anything outside 200..299 as an error. PHP
  leaves the status to Guzzle.
- In Rust an empty version passed as `Some("")` is kept, so the path gets an
  empty segment. `Some("")` also counts as a credential.
- PHP's `base_url` falls back to the default only when the key is missing
  or null.
  An empty or all-slash value leaves Guzzle an empty base URI.
- In Go, the caller's headers are set after `Content-Type`, so they can
  replace it. In TypeScript, `Content-Type` is set after the caller's
  headers and always wins. In Rust, it is appended beside the caller's value.

## Model

| member | source | states |
|---|---|---|
| Strings.CollapseSlashes | typescript/src/index.ts:146 | the result never contains `//`, keeps the first character, is no longer than the input, and is the input itself when that has no `//` |
| Strings.CollapseDouble | typescript/src/index.ts:146 | collapsing `a + "//" + b` equals collapsing `a + "/" + b` |
| Strings.CollapseKeepsPrefix | typescript/src/index.ts:146 | a prefix free of `//` that does not end in `/` passes through collapsing unchanged |
| Strings.TrimSlashes | rust/src/lib.rs:55 | the result is empty iff the input is all slashes, and otherwise starts and ends with something other than `/` |
| Strings.TrimIdempotent | go/fabraic/client.go:159 | trimming an already trimmed string changes nothing |
| Strings.TrimContained | typescript/src/index.ts:25 | the trimmed string is a contiguous slice of the input |
| Strings.SubstituteUnreferenced | typescript/src/index.ts:30-36 | parameters whose `{key}` the path does not mention leave it unchanged |
| Strings.SubstituteKeepsUnmatched | typescript/src/index.ts:30-36 | a placeholder with no matching key survives substitution when keys and encoded values are brace-free |
| Strings.ReplaceKeepsOtherPlaceholder | typescript/src/index.ts:34 | replacing one `{key}` never destroys a different placeholder |
| Http.SetAll | rust/src/lib.rs:85-90 | setting headers one by one: every name set takes its last value as its only value; names not set keep their values; the key set is the union |
| Http.ValuesOfConcat | typescript/src/index.ts:73-76 | the values of a name in appended query pairs are those of the first part followed by those of the second |
| TypeScriptSdk.NewClient | typescript/src/index.ts:44-59 | fails iff there is no truthy credential or no fetch implementation, with the credential error first; keeps both credentials; removes exactly one trailing `/` from the base URL when there is one |
| TypeScriptSdk.Credential | typescript/src/index.ts:111-121 | the access token when it is truthy, otherwise the API key when that is truthy |
| TypeScriptSdk.AuthHeaders | typescript/src/index.ts:111-121 | at most one header: `Authorization: Bearer <token>` iff the token is truthy, `x-api-key: <key>` iff it is not and the key is |
| TypeScriptSdk.ClientSendsOneAuthHeader | typescript/src/index.ts:47-49 | every client construction accepts sends exactly one auth header, the bearer one whenever the token is truthy |
| TypeScriptSdk.SetParam | typescript/src/index.ts:78 | `set` leaves exactly one value for the name and leaves every other name's values alone |
| TypeScriptSdk.RemoveParam | typescript/src/index.ts:78 | removing a name leaves it no values and every other name's values untouched |
| TypeScriptSdk.ArrayPairsValues | typescript/src/index.ts:73-76 | an array value appends one pair per element, in array order, under its own name only |
| TypeScriptSdk.SearchParamsValues | typescript/src/index.ts:70-81 | for distinct names: a null entry leaves no values, a scalar exactly one, an array its elements in order, an absent name none |
| TypeScriptSdk.SearchParamsExample | typescript/src/index.ts:70-81 | `{tags: ["x","y"], page: null}` gives `tags` the values `x`, `y` and `page` none |
| TypeScriptSdk.RequestHeaders | typescript/src/index.ts:83-93 | the keys are `Accept`, the auth header, the caller's headers and, with a body, `Content-Type`; the caller overrides `Accept` and auth; `Content-Type: application/json` overrides the caller |
| TypeScriptSdk.ComposeRequest | typescript/src/index.ts:65-93 | the query and header loops produce exactly the call `CallFor` describes |
| TypeScriptSdk.Outcome | typescript/src/index.ts:101-108 | success iff the status is in 200..299; a failure carries the status; an unparsable body is `null` on both paths, otherwise the parsed value |
| TypeScriptSdk.Request | typescript/src/index.ts:65-109 | the result is the outcome of fetching the composed call |
| TypeScriptSdk.StripServicePath | typescript/src/index.ts:25 | empty iff the whitespace-trimmed input is all slashes; otherwise no `/` at either end |
| TypeScriptSdk.NormalizeServicePath | typescript/src/index.ts:24-28 | fails with the service-path error iff nothing is left after trimming whitespace and slashes; an accepted path has no `/` at either end |
| TypeScriptSdk.NormalizedServicePathIsSlice | typescript/src/index.ts:24-27 | the accepted service path is a slice of the input |
| TypeScriptSdk.BlankServicePathRejected | typescript/src/index.ts:26 | an all-whitespace or all-slash service path is rejected |
| TypeScriptSdk.SlashSpaceSlashAccepted | typescript/src/index.ts:25-27 | `"/ /"` is accepted as the service path `" "` |
| TypeScriptSdk.PlainServicePathKept | typescript/src/index.ts:24-28 | a path with no whitespace or slash at its ends is accepted unchanged |
| TypeScriptSdk.Service | typescript/src/index.ts:137-141 | fails exactly when normalisation fails; keeps the client; an absent or empty version becomes `v1`, any other truthy version is kept |
| TypeScriptSdk.ApplyPathParamsUnreferenced | typescript/src/index.ts:30-36 | parameters the path does not mention leave it unchanged |
| TypeScriptSdk.ApplyPathParamsKeepsUnmatched | typescript/src/index.ts:30-36 | a placeholder with no parameter passes through |
| TypeScriptSdk.InvoiceTemplateFilled | typescript/src/index.ts:30-36 | `/invoices/{id}` with `id = 42` becomes `/invoices/42` |
| TypeScriptSdk.BuildPath | typescript/src/index.ts:143-147 | the built path starts with `/` and never contains `//` |
| TypeScriptSdk.BuildPathShape | typescript/src/index.ts:146 | with slash-free service path and version, the path is `/{service}/{version}` followed by the collapsed substituted path |
| TypeScriptSdk.PrefixHasNoDoubleSlash | typescript/src/index.ts:146 | the `/{service}/{version}` prefix holds no `//` and does not end in `/` |
| TypeScriptSdk.BuildPathIgnoresExtraSlash | typescript/src/index.ts:146 | `//a` and `/a` build the same path |
| TypeScriptSdk.BuildPathExample | typescript/src/index.ts:137-147 | service `billing` with the default version builds `/billing/v1/invoices/42` for `/invoices/{id}`, `id = 42` |
| TypeScriptSdk.BillingInvoicePath | typescript/src/index.ts:143-147 | the same path for any service client holding `billing` and `v1` |
| TypeScriptSdk.WithMethodForcesMethod | typescript/src/index.ts:154-172 | the convenience forms send their own method whatever the options say, and change nothing else |
| TypeScriptSdk.ServiceRequest | typescript/src/index.ts:149-152 | the client's request on the built path with the remaining options |
| TypeScriptSdk.Get | typescript/src/index.ts:154-156 | a service request with the method forced to GET |
| TypeScriptSdk.Post | typescript/src/index.ts:158-160 | a service request with the method forced to POST |
| TypeScriptSdk.Put | typescript/src/index.ts:162-164 | a service request with the method forced to PUT |
| TypeScriptSdk.Patch | typescript/src/index.ts:166-168 | a service request with the method forced to PATCH |
| TypeScriptSdk.Delete | typescript/src/index.ts:170-172 | a service request with the method forced to DELETE |
| RustSdk.Credential | rust/src/lib.rs:28-42 | none iff both credentials are `None`; a token given even empty is the bearer credential, otherwise the key |
| RustSdk.BearerValueValid | rust/src/lib.rs:36-37 | `Bearer <token>` is a valid header value iff the token is |
| RustSdk.DefaultHeaders | rust/src/lib.rs:32-42 | exactly `accept: application/json` and one auth header, `authorization` for a token and `x-api-key` for a key |
| RustSdk.New | rust/src/lib.rs:23-52 | fails iff no credential, the auth value is not a valid header value, or the base URL does not parse, with those errors in that order and the third carrying `Url::parse`'s message; on success keeps the base URL with all trailing `/` removed and the default headers |
| RustSdk.EmptyApiKeyAccepted | rust/src/lib.rs:28-41 | `Some("")` as the API key is accepted and sent as an empty `x-api-key` |
| RustSdk.AppendHeader | rust/src/lib.rs:95 | adding a header appends a value to the name's existing values and touches no other name |
| RustSdk.BodyAddsContentType | rust/src/lib.rs:94-96 | with a body, `application/json` is among the content-type values, after the caller's own |
| RustSdk.Outcome | rust/src/lib.rs:98-104 | a send failure propagates; then a status in 400..599 fails with that status before the body is read; a failure to read the body propagates; success iff none of these; a whitespace-only body is `null`; otherwise the parsed value, or `null` when parsing fails |
| RustSdk.RedirectIsNotAnError | rust/src/lib.rs:98 | a 304 that reaches the client is a success |
| RustSdk.Request | rust/src/lib.rs:67-105 | the query loop appends the pairs, the header loop inserts over the defaults, and the result is the outcome of sending that call, including the `reqwest::Error` of `send` or `text` |
| RustSdk.Service | rust/src/lib.rs:54-65 | fails iff the service path is all slashes; keeps the trimmed path and the version as given, `v1` only when none is given |
| RustSdk.BuildPath | rust/src/lib.rs:109-119 | the replacement loop builds `/{service}/{version}/` followed by the substituted path without its leading slashes |
| RustSdk.ReplaceParams | rust/src/lib.rs:112-116 | the loop over the parameters leaves the path with every `{key}` replaced by its value, one key after another in map order |
| RustSdk.FullPathShape | rust/src/lib.rs:118 | the path starts with the service prefix and the rest never starts with `/` |
| RustSdk.LeadingSlashesIgnored | rust/src/lib.rs:110-118 | an extra leading `/` on the caller's path makes no difference |
| RustSdk.EmptyVersionKept | rust/src/lib.rs:63 | `Some("")` as the version is kept, so a service `svc` and path `x` give `/svc//x` |
| RustSdk.ServiceRequest | rust/src/lib.rs:121-132 | the client's request on the built path |
| PythonSdk.Upper | python/src/fabraic_sdk/client.py:105 | the method upper-cased letter by letter, length kept |
| PythonSdk.UpperIdempotent | python/src/fabraic_sdk/client.py:105 | upper-casing twice is upper-casing once |
| PythonSdk.UpperKeepsUpperCase | python/src/fabraic_sdk/client.py:105 | a method name with no lower-case letter, such as the fixed names `get` .. `delete` pass, is sent unchanged |
| PythonSdk.AuthDefaults | python/src/fabraic_sdk/client.py:79-84 | `Accept` and exactly one auth header: `Authorization: Bearer <token>` iff the token is truthy, else `x-api-key` |
| PythonSdk.ApiKeyHeaderIsTheKey | python/src/fabraic_sdk/client.py:74-84 | for an accepted configuration the `x-api-key` value is the non-empty key, never `None` |
| PythonSdk.Outcome | python/src/fabraic_sdk/client.py:111-116 | an HTTP error iff the status is in 400..599; empty content is `None`; a body that does not parse is a decode error |
| PythonSdk.BlankBodyIsParsed | python/src/fabraic_sdk/client.py:113-116 | a body of one space is not empty content and fails to decode |
| PythonSdk.FabraicClient.constructor | python/src/fabraic_sdk/client.py:66-71 | the dataclass fields as given |
| PythonSdk.FabraicClient.PostInit | python/src/fabraic_sdk/client.py:73-86 | raises and changes nothing iff no credential is truthy; otherwise strips every trailing `/`, keeps or creates the session, and updates its headers with the defaults |
| PythonSdk.FabraicClient.CallerHeadersWin | python/src/fabraic_sdk/client.py:100-102 | the caller's headers override the session's, and the session's stay elsewhere |
| PythonSdk.FabraicClient.Request | python/src/fabraic_sdk/client.py:88-116 | sends the upper-cased method, base URL plus rooted path and merged headers, then decides on the response |
| PythonSdk.NewClient | python/src/fabraic_sdk/client.py:66-86 | construction fails iff no credential is truthy, and then leaves a caller's session alone; otherwise the new client is ready with the stripped base URL, keeps the caller's session object (or a fresh one when none is passed), and that session's headers are updated with the defaults |
| PythonSdk.Service | python/src/fabraic_sdk/client.py:21-27 | fails iff the service path is all slashes; keeps the trimmed path; an empty version becomes `v1` |
| PythonSdk.BuildPath | python/src/fabraic_sdk/client.py:29-35 | the replacement loop builds `/{service}/{version}` followed by the substituted path |
| PythonSdk.FullPathWithoutParams | python/src/fabraic_sdk/client.py:30-35 | without parameters, the caller's path is appended as given, doubled slashes included |
| PythonSdk.FullPathUnreferenced | python/src/fabraic_sdk/client.py:31-33 | parameters the path does not mention change nothing |
| PythonSdk.FullPathKeepsUnmatched | python/src/fabraic_sdk/client.py:31-33 | a placeholder with no parameter passes through |
| PythonSdk.ServiceRequest | python/src/fabraic_sdk/client.py:37-48 | the client's request on the built path with the remaining keyword arguments |
| PythonSdk.Get | python/src/fabraic_sdk/client.py:50-51 | a service request with method `GET` |
| PythonSdk.Post | python/src/fabraic_sdk/client.py:53-54 | a service request with method `POST` |
| PythonSdk.Put | python/src/fabraic_sdk/client.py:56-57 | a service request with method `PUT` |
| PythonSdk.Patch | python/src/fabraic_sdk/client.py:59-60 | a service request with method `PATCH` |
| PythonSdk.Delete | python/src/fabraic_sdk/client.py:62-63 | a service request with method `DELETE` |
| GoSdk.BaseText | go/fabraic/client.go:43-46 | all trailing `/` removed, the default when nothing is left, never empty and never ending in `/` |
| GoSdk.DefaultHeads | go/fabraic/client.go:53-59 | `Accept` and exactly one auth header, the bearer token whenever it is non-empty |
| GoSdk.NewClient | go/fabraic/client.go:38-71 | fails iff both credentials are empty or the base URL does not parse, with those errors in that order; keeps the parsed URL, the given HTTP client or the default one, and the default headers |
| GoSdk.TypedHeads | go/fabraic/client.go:101-110 | the defaults plus `Content-Type: application/json` exactly when there is a body |
| GoSdk.Compose | go/fabraic/client.go:85-120 | a marshal failure is reported first; composition succeeds iff marshalling succeeds and `http.NewRequest` accepts the built call, and otherwise fails with `NewRequest`'s error; a composed call has the rooted path, the base query with the caller's pairs set over it, the caller's headers set over the typed defaults, and the marshalled payload |
| GoSdk.CallerContentTypeWins | go/fabraic/client.go:109-114 | a caller's `Content-Type` replaces the body's; without one the body's stands |
| GoSdk.CallerHeadersOverrideDefaults | go/fabraic/client.go:101-114 | every default header is sent, with the caller's value when the caller names it |
| GoSdk.BaseQueryKept | go/fabraic/client.go:94-98 | query parameters on the base URL stay unless the caller sets the same name |
| GoSdk.Outcome | go/fabraic/client.go:128-146 | a status outside 200..299 fails with the status and body; a whitespace-only body is nil; otherwise the decoded value or a decode error |
| GoSdk.RedirectIsAnError | go/fabraic/client.go:128-131 | a 304 fails with `request failed (304): <body>` |
| GoSdk.SetQuery | go/fabraic/client.go:94-97 | the `Set` loop over the query gives the set-all result |
| GoSdk.SetEachHeader | go/fabraic/client.go:112-114 | the `Set` loop over the headers gives the set-all result |
| GoSdk.ComposeRequest | go/fabraic/client.go:85-120 | the steps before the round trip produce exactly `Compose` |
| GoSdk.Request | go/fabraic/client.go:85-147 | a composition error, the transport's error, or the decision on the response, in that order |
| GoSdk.Service | go/fabraic/client.go:73-83 | fails iff the service path is all slashes; keeps the trimmed path; an empty version becomes `v1`, any other is kept untrimmed |
| GoSdk.FullPathKeepsServicePath | go/fabraic/client.go:159 | re-trimming the stored service path changes nothing |
| GoSdk.SlashVersionPath | go/fabraic/client.go:159 | a version made only of slashes (such as `/`, which `Service` keeps) trims to an empty segment: the path is `/{service}/` followed by the rooted caller's path |
| GoSdk.SlashVersionLeavesEmptySegment | go/fabraic/client.go:159 | with such a version, the path the service client hands to `Request` holds `//` right after the service name |
| GoSdk.BuildPath | go/fabraic/client.go:150-159 | the path is `/`, the slash-trimmed service path, `/`, the slash-trimmed version and the rooted caller's path with each `{key}` replaced by its escaped value in map order |
| GoSdk.ServiceRequest | go/fabraic/client.go:149-161 | the replacement loop and prefix give the full path, and the client's request runs on it |
| PhpClient.Assign | php/src/Client.php:36-42 | assigning a key keeps it in place when present or appends it, keeps keys distinct and every earlier position's key, and changes no other key's value |
| PhpClient.ArrayMerge | php/src/Client.php:62 | the first array's keys stay first and in order; on a shared key the second array's value wins; keys stay distinct |
| PhpClient.DefaultHeaders | php/src/Client.php:36-42 | exactly two headers: `Accept` first, then `Authorization: Bearer <token>` when the token is truthy, else `x-api-key` |
| PhpClient.New | php/src/Client.php:26-47 | fails iff neither credential is truthy in PHP's sense; uses the injected HTTP client, or Guzzle on the base URL with every trailing `/` removed |
| PhpClient.OneAuthHeader | php/src/Client.php:36-42 | exactly one of `Authorization` and `x-api-key` is present, the former iff the token is truthy, and `Accept` is `application/json` |
| PhpClient.ZeroIsNoCredential | php/src/Client.php:32-34 | `'0'` for both credentials is rejected |
| PhpClient.SlashBaseUrlIsEmpty | php/src/Client.php:30 | an all-slash `base_url` gives Guzzle an empty base URI |
| PhpClient.Uri | php/src/Client.php:60 | the URI never starts with `/` and is a suffix of the path |
| PhpClient.UriDropsOnlySlashes | php/src/Client.php:60 | only slashes are removed in front of the URI |
| PhpClient.CallFor | php/src/Client.php:58-64 | the method as given, the relative URI, the other options untouched, and the headers merged over the defaults |
| PhpClient.CallerHeadersOverride | php/src/Client.php:61-62 | the default headers come first, in order, and each name's value is the caller's when the caller names it, else the default |
| PhpClient.Outcome | php/src/Client.php:64-71 | Guzzle's exception propagates; an empty body is `null`; any other body decodes or raises the decode error |
| PhpClient.BlankBodyIsDecoded | php/src/Client.php:67-71 | a body of one space is handed to the decoder, whose failure is raised |
| PhpClient.Request | php/src/Client.php:58-72 | the outcome of sending the call `CallFor` describes |
| PhpServiceClient.New | php/src/ServiceClient.php:13-23 | fails iff the service path is all slashes; keeps the trimmed path; an empty version becomes `v1`; the result is valid |
| PhpServiceClient.Service | php/src/Client.php:49-52 | the constructor with the version defaulting to `v1` when not passed |
| PhpServiceClient.BuildPath | php/src/ServiceClient.php:26-35 | the `foreach` builds `/{service}/{version}` followed by the substituted path |
| PhpServiceClient.FullPathWithoutParams | php/src/ServiceClient.php:28-34 | without parameters, the caller's path is appended with a leading `/` |
| PhpServiceClient.UnmatchedPlaceholderKept | php/src/ServiceClient.php:30-32 | a placeholder no parameter names passes through |
| PhpServiceClient.NoSlashCollapsing | php/src/ServiceClient.php:34 | a version ending in `/` leaves `//` in the path |
| PhpServiceClient.DispatchedUri | php/src/ServiceClient.php:44 | the URI the client dispatches is the built path without its leading `/` |
| PhpServiceClient.Request | php/src/ServiceClient.php:42-45 | the client's request on the built path with the options as given |
| PhpServiceClient.Get | php/src/ServiceClient.php:48-51 | a service request with method `GET` |
| PhpServiceClient.Post | php/src/ServiceClient.php:54-57 | a service request with method `POST` |
| PhpServiceClient.Put | php/src/ServiceClient.php:60-63 | a service request with method `PUT` |
| PhpServiceClient.Patch | php/src/ServiceClient.php:66-69 | a service request with method `PATCH` |
| PhpServiceClient.Delete | php/src/ServiceClient.php:72-75 | a service request with method `DELETE` |

## Left out

- The network round trip is a function parameter: fetch, reqwest `send`, `requests.Session.request`, `(*http.Client).Do` and Guzzle's `request`. Transport failures appear where the port surfaces them as values (Rust, Go, PHP); a rejected `fetch` in TypeScript and the connection errors `requests` raises in Python are not modelled.
- async/await and the promise and future plumbing.
- URL parsing and resolution are not modelled: `new URL`, `Url::parse`/`join`, `url.Parse`, `path.Join`, and Guzzle's `base_uri` resolution. A call records the base URL and the path separately, so the model does not show how a base URL's own path is resolved against the built path.
- GoSdk.Compose: the path it records is the rooted path before `path.Join`, so the `//` collapsing, `.`/`..` resolution and trailing-`/` removal Go applies before sending are not modelled; `GoSdk.SlashVersionLeavesEmptySegment` is about the path built, not the path sent.
- The URL-encoding of the query string is not modelled: `URLSearchParams` serialisation, `requests` params encoding, and `url.Values.Encode` with its key sorting.
- JSON serialisation and parsing are function parameters. JSON numbers are integers only.
- The percent-encoders `encodeURIComponent`, `quote(safe="")`, `rawurlencode` and `url.PathEscape` are function parameters.
- Scalar parameters are strings, integers and booleans. Floating-point values and their text forms are left out.
- Header names are compared exactly. HTTP's case-insensitive matching is not modelled, and neither is Go's canonicalisation in `http.Header.Set`.
- TypeScriptSdk.Call: a query string embedded in the caller's path is not split out of the path.
- PythonSdk.Upper: upper-cases ASCII letters only; `str.upper` on other letters is not modelled.
- PythonSdk.Get: passing `method` as a keyword to `get` .. `delete` raises `TypeError` in Python; the model's signatures leave no room for it.
- `requests` adding its own `Content-Type` for a `json=` body happens inside the library and is not modelled.
- PhpClient.ArrayMerge: models string keys only. PHP renumbers integer keys, including numeric-string header names.
- `io.ReadAll` errors in Go are folded into the transport parameter: on a 2xx it reports the error, which Go returns unwrapped; on any other status it returns whatever body was read, as Go ignores that error.
- Rust's `HeaderValue` checks on the caller's own header values are not modelled; those values arrive already parsed.
