/** frontend/src/lib/api.ts: the base URL, the request URL and headers that
    `apiFetch` builds, and how it turns the response into a value or an
    error. `localStorage` and `fetch` are parameters: the stored token, and
    the outcome of the request. */
module ApiClient {
  import opened Js

  /** `(VITE_API_BASE_URL || '').replace(/\/$/, '')`: at most one trailing
      slash removed. */
  function ApiBaseUrl(env: Option<string>): (r: string)
    ensures env.None? ==> r == ""
    ensures env.Some? ==> StartsWith(env.value, r)
    ensures env.Some? && EndsWith(env.value, "/") ==> |r| == |env.value| - 1
    ensures env.Some? && !EndsWith(env.value, "/") ==> r == env.value
  {
    if env.None? then ""
    else
      var s := env.value;
      if EndsWith(s, "/") then s[..|s| - 1] else s
  }

  /** Only one slash is removed: a base ending in two keeps one. */
  lemma OneSlashRemoved(s: string)
    ensures ApiBaseUrl(Some(s + "//")) == s + "/"
  {
    var t := s + "//";
    assert EndsWith(t, "/") by { assert t[|t| - 1..] == "/"; }
    assert t[..|t| - 1] == s + "/";
  }

  /** `path.startsWith('/') ? path : '/' + path`. */
  function RequestPath(path: string): (r: string)
    ensures StartsWith(r, "/")
    ensures StartsWith(path, "/") ==> r == path
    ensures !StartsWith(path, "/") ==> r == "/" + path
  {
    if StartsWith(path, "/") then path else "/" + path
  }

  function RequestUrl(base: string, path: string): (r: string)
    ensures StartsWith(r, base + "/")
    ensures EndsWith(r, path)
    ensures |r| == |base| + |path| + (if StartsWith(path, "/") then 0 else 1)
  {
    var p := RequestPath(path);
    var r := base + p;
    assert r[..|base|] == base;
    assert r[|base|..] == p;
    assert r[..|base| + 1] == base + "/" by {
      assert r[|base|] == p[0] == '/';
    }
    assert r[|r| - |path|..] == p[|p| - |path|..];
    r
  }

  /** A base configured with a trailing slash does not produce a double
      slash before an absolute path. */
  lemma NoDoubleSlash(b: string, path: string)
    requires !EndsWith(b, "/") && StartsWith(path, "/")
    ensures RequestUrl(ApiBaseUrl(Some(b + "/")), path) == b + path
  {
    var t := b + "/";
    assert EndsWith(t, "/") by { assert t[|t| - 1..] == "/"; }
    assert t[..|t| - 1] == b;
  }

  /** `auth ? localStorage.getItem('token') : null`. */
  function TokenFor(auth: bool, stored: Option<string>): (t: Option<string>)
    ensures !auth ==> t.None?
    ensures auth ==> t == stored
  {
    if auth then stored else None
  }

  const ContentTypeHeader := "Content-Type"
  const AuthorizationHeader := "Authorization"
  const JsonContentType := "application/json"

  /** `{ 'Content-Type': 'application/json', ...(token ? { Authorization:
      `Bearer ${token}` } : {}), ...headers }`: later entries win. */
  function Headers(token: Option<string>, caller: Option<map<string, string>>): (h: map<string, string>)
    ensures ContentTypeHeader in h
    ensures (caller.None? || ContentTypeHeader !in caller.value) ==> h[ContentTypeHeader] == JsonContentType
    ensures AuthorizationHeader in h <==>
      (token.Some? && token.value != "") || (caller.Some? && AuthorizationHeader in caller.value)
    ensures (caller.None? || AuthorizationHeader !in caller.value) && token.Some? && token.value != "" ==>
      h[AuthorizationHeader] == "Bearer " + token.value
    ensures caller.Some? ==> forall k :: k in caller.value ==> k in h && h[k] == caller.value[k]
    ensures forall k :: k in h ==> k == ContentTypeHeader || k == AuthorizationHeader || (caller.Some? && k in caller.value)
  {
    var base := map[ContentTypeHeader := JsonContentType];
    var withAuth := if token.Some? && token.value != "" then base[AuthorizationHeader := "Bearer " + token.value] else base;
    if caller.None? then withAuth else withAuth + caller.value
  }

  /** `isMessageObj`: a non-null object whose `message` is a string. */
  predicate IsMessageObj(v: Json)
  {
    v.JObj? && "message" in v.fields && v.fields["message"].JStr?
  }

  /** The options of `apiFetch`: `auth` (default true), the caller's headers,
      and the remaining `RequestInit` entries, passed on untouched. */
  datatype FetchOptions = FetchOptions(auth: Option<bool>, headers: Option<map<string, string>>, rest: map<string, Json>)

  /** The request handed to `fetch`. */
  datatype Request = Request(url: string, init: map<string, Json>, headers: map<string, string>)

  /** What `fetch` gives back: a rejection, or a status and the body parsed
      as JSON (`None` when it is not JSON). */
  datatype FetchOutcome = NetworkError(reason: string) | Responded(status: int, body: Option<Json>)

  /** The settled promise: a value (`None` for `undefined`), or an `Error`. */
  datatype ApiResult = Returned(data: Value) | Thrown(message: string)

  method ApiFetch(env: Option<string>, path: string, options: FetchOptions, storedToken: Option<string>,
                  outcome: FetchOutcome) returns (request: Request, result: ApiResult)
    ensures request.url == RequestUrl(ApiBaseUrl(env), path)
    ensures request.init == options.rest
    ensures request.headers == Headers(TokenFor(options.auth != Some(false), storedToken), options.headers)
    ensures result.Returned? <==> outcome.Responded? && IsOkStatus(outcome.status)
    ensures outcome.NetworkError? ==> result == Thrown(outcome.reason)
    ensures outcome.Responded? && IsOkStatus(outcome.status) ==> result == Returned(outcome.body)
    ensures outcome.Responded? && !IsOkStatus(outcome.status) && outcome.body.Some? && IsMessageObj(outcome.body.value) ==>
      result == Thrown(outcome.body.value.fields["message"].s)
    ensures outcome.Responded? && !IsOkStatus(outcome.status) && !(outcome.body.Some? && IsMessageObj(outcome.body.value)) ==>
      result == Thrown("Request failed with " + IntToString(outcome.status))
  {
    var auth := if options.auth.Some? then options.auth.value else true;
    var token := TokenFor(auth, storedToken);
    request := Request(RequestUrl(ApiBaseUrl(env), path), options.rest, Headers(token, options.headers));
    match outcome
    case NetworkError(reason) =>
      result := Thrown(reason);
    case Responded(status, body) =>
      if !IsOkStatus(status) {
        var message := "Request failed with " + IntToString(status);
        if body.Some? && IsMessageObj(body.value) {
          message := body.value.fields["message"].s;
        }
        result := Thrown(message);
      } else {
        result := Returned(body);
      }
  }

  /** With `auth: false` no stored token is ever sent. */
  lemma NoTokenWithoutAuth(stored: Option<string>, caller: Option<map<string, string>>)
    requires caller.None? || AuthorizationHeader !in caller.value
    ensures AuthorizationHeader !in Headers(TokenFor(false, stored), caller)
  {
  }
}
