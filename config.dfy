/**
 * The API base configuration of `js/config.js`: choosing the default base
 * from the host name, normalising a base URL, the initial base (query
 * parameter, then stored override, then default), the override kept in
 * `localStorage`, the URL builder `apiUrl`, and the request that `apiFetch`
 * hands to `fetch`.
 */
module Config {
  import opened Wrappers
  import opened JsStrings
  import opened WebStorage

  const DefaultRenderApi: string := "https://django-api-05y3.onrender.com"
  const LocalDevApi: string := "http://127.0.0.1:8000"

  /** The `localStorage` key holding the override chosen with `setApiBase`. */
  const OverrideKey: string := "apiBaseOverride"

  // ---------------------------------------------------------------------------
  // Default base
  // ---------------------------------------------------------------------------

  /** The page is served from the developer's own machine. */
  predicate OnLocalhost(hostname: string) {
    hostname == "localhost" || hostname == "127.0.0.1" || EndsWith(hostname, ".local")
  }

  /** `DEFAULT_BASE`: the local Django server on a loopback host, the Render backend elsewhere. */
  function DefaultBase(hostname: string): (r: string)
    ensures r == LocalDevApi <==> OnLocalhost(hostname)
    ensures r == DefaultRenderApi <==> !OnLocalhost(hostname)
  {
    if OnLocalhost(hostname) then LocalDevApi else DefaultRenderApi
  }

  // ---------------------------------------------------------------------------
  // normalize
  // ---------------------------------------------------------------------------

  /** Starts with the scheme name `http:` or `https:`, letters in any case. */
  predicate HasSchemeName(s: string) {
    PrefixIgnoringCase(s, "http:") || PrefixIgnoringCase(s, "https:")
  }

  /** The shape of every base URL `normalize` produces. */
  predicate IsNormalized(s: string) {
    s != "" && HasSchemeName(s) && !EndsWith(s, "/")
  }

  /** Prefixes `https://` unless the text already starts with `http://` or `https://`. */
  function WithScheme(x: string): (r: string)
    ensures HasHttpScheme(x) ==> r == x
    ensures !HasHttpScheme(x) ==> r == "https://" + x
    ensures HasHttpScheme(r)
  {
    if HasHttpScheme(x) then x
    else
      var r := "https://" + x;
      assert r[..8] == "https://";
      r
  }

  lemma SameIgnoringCaseColon(c: char)
    requires SameIgnoringCase(c, ':')
    ensures c == ':'
  {
  }

  /** Removing trailing slashes from a URL with a scheme never cuts into the scheme name. */
  lemma StripKeepsSchemeName(full: string)
    requires HasHttpScheme(full)
    ensures IsNormalized(StripTrailingSlashes(full))
  {
    var r := StripTrailingSlashes(full);
    var colon := if PrefixIgnoringCase(full, "http://") then 4 else 5;
    SameIgnoringCaseColon(full[colon]);
    assert forall i :: 0 <= i < |r| ==> r[i] == full[i];
  }

  /**
   * `normalize(u)`: nothing for a missing, empty or blank value; otherwise the
   * trimmed value, with `https://` put in front when it has no `http://` or
   * `https://` (in any case), and every trailing slash removed.
   */
  function Normalize(u: Option<string>): (r: Option<string>)
    ensures r.None? <==> u.None? || Trim(u.value) == ""
    ensures r.Some? ==> IsNormalized(r.value)
    ensures r.Some? ==>
      var full := WithScheme(Trim(u.value));
      StartsWith(full, r.value) && AllSlashes(full[|r.value|..])
  {
    if !Truthy(u) then None
    else
      var x := Trim(u.value);
      if x == "" then None
      else
        StripKeepsSchemeName(WithScheme(x));
        Some(StripTrailingSlashes(WithScheme(x)))
  }

  lemma StartsWithIgnoringCase(s: string, p: string)
    requires StartsWith(s, p)
    ensures PrefixIgnoringCase(s, p)
  {
    assert forall i :: 0 <= i < |p| ==> s[i] == s[..|p|][i];
  }

  /**
   * A value that already has a scheme, no white space at its ends and no
   * trailing slash is left as it is.
   */
  lemma NormalizeFixedPoint(s: string)
    requires HasHttpScheme(s)
    requires s != [] && !IsSpace(s[0]) && !IsSpace(s[|s| - 1]) && s[|s| - 1] != '/'
    ensures Normalize(Some(s)) == Some(s)
  {
    TrimOfTrimmed(s);
  }

  /** Both defaults are already normalised. */
  lemma DefaultBaseNormalized(hostname: string)
    ensures Normalize(Some(DefaultBase(hostname))) == Some(DefaultBase(hostname))
  {
    assert DefaultRenderApi[..8] == "https://";
    StartsWithIgnoringCase(DefaultRenderApi, "https://");
    assert LocalDevApi[..7] == "http://";
    StartsWithIgnoringCase(LocalDevApi, "http://");
    NormalizeFixedPoint(DefaultBase(hostname));
  }

  lemma DefaultBaseIsNormalized(hostname: string)
    ensures IsNormalized(DefaultBase(hostname))
  {
    DefaultBaseNormalized(hostname);
  }

  /**
   * Normalising is not idempotent on a bare scheme: `http://` loses its
   * slashes, and what is left then counts as scheme-less.
   */
  lemma NormalizeBareScheme()
    ensures Normalize(Some("http://")) == Some("http:")
    ensures Normalize(Some("http:")) == Some("https://http:")
  {
    StartsWithIgnoringCase("http://", "http://");
    TrimOfTrimmed("http://");
    TrimOfTrimmed("http:");
    assert !PrefixIgnoringCase("http:", "http://");
    assert !SameIgnoringCase("http:"[4], "https://"[4]);
    assert !PrefixIgnoringCase("http:", "https://");
    assert "http://"[..6] == "http:/" && "http:/"[..5] == "http:";
    assert "https://" + "http:" == "https://http:";
  }

  // ---------------------------------------------------------------------------
  // Initial base
  // ---------------------------------------------------------------------------

  /**
   * The initial `API_BASE`: the query parameter `api` if it normalises to
   * something, else the stored override if that does, else the default.
   */
  function InitialBase(query: Option<string>, stored: Option<string>, hostname: string): (r: string)
    ensures Normalize(query).Some? ==> r == Normalize(query).value
    ensures Normalize(query).None? && Normalize(stored).Some? ==> r == Normalize(stored).value
    ensures Normalize(query).None? && Normalize(stored).None? ==> r == DefaultBase(hostname)
    ensures IsNormalized(r)
  {
    DefaultBaseNormalized(hostname);
    Or(Normalize(query), Or(Normalize(stored), Normalize(Some(DefaultBase(hostname))))).value
  }

  // ---------------------------------------------------------------------------
  // apiUrl
  // ---------------------------------------------------------------------------

  /**
   * `apiUrl(path)` against `base`: the base for a missing or empty path, an
   * absolute `http(s)://` path unchanged, and otherwise the base joined to the
   * path by exactly the slash the path starts with, or one added in front.
   */
  function ApiUrlFrom(base: string, path: Option<string>): (r: string)
    ensures !Truthy(path) ==> r == base
    ensures Truthy(path) && HasHttpScheme(path.value) ==> r == path.value
    ensures Truthy(path) && !HasHttpScheme(path.value) ==>
      StartsWith(r, base + "/") && EndsWith(r, path.value) &&
      |r| == |base| + |path.value| + (if StartsWith(path.value, "/") then 0 else 1)
  {
    if !Truthy(path) then base
    else if HasHttpScheme(path.value) then path.value
    else if StartsWith(path.value, "/") then
      assert path.value == "/" + path.value[1..];
      base + path.value
    else base + "/" + path.value
  }

  /**
   * Over a base with a scheme every built URL is absolute, so building a URL
   * from a built URL gives it back unchanged.
   */
  lemma ApiUrlIdempotent(base: string, path: Option<string>)
    requires HasHttpScheme(base)
    ensures HasHttpScheme(ApiUrlFrom(base, path))
    ensures ApiUrlFrom(base, Some(ApiUrlFrom(base, path))) == ApiUrlFrom(base, path)
  {
    var r := ApiUrlFrom(base, path);
    if Truthy(path) && !HasHttpScheme(path.value) {
      assert r[..|base|] == base by {
        assert r[..|base| + 1] == base + "/";
        assert r[..|base|] == r[..|base| + 1][..|base|];
      }
      HasHttpSchemeAppend(base, r[|base|..]);
      assert base + r[|base|..] == r;
    }
  }

  // ---------------------------------------------------------------------------
  // apiFetch request
  // ---------------------------------------------------------------------------

  /** The `body` option: missing, `null`, a string, or a plain object. */
  datatype BodyValue =
    | Absent
    | Null
    | Text(text: string)
      /** A plain object; `serialized` is its `JSON.stringify` text. */
    | Object(serialized: string)

  /**
   * The options of `apiFetch`. `json` and `auth` default to true in the
   * source; `method`, `mode` and `credentials` are None when the caller does
   * not pass them. `rest` holds every other request field the caller passes
   * (`cache`, `signal`, `redirect`, ...), each by name with its value as
   * text; `apiFetch` hands them to `fetch` unchanged.
   */
  datatype FetchOptions = FetchOptions(
    json: bool,
    auth: bool,
    headers: map<string, string>,
    body: BodyValue,
    httpMethod: Option<string>,
    mode: Option<string>,
    credentials: Option<string>,
    rest: map<string, string>)

  /** What `apiFetch` hands to `fetch`; a `body` of `Absent` means no body. */
  datatype FetchInit = FetchInit(
    url: string,
    httpMethod: string,
    mode: string,
    credentials: string,
    headers: map<string, string>,
    body: BodyValue,
    rest: map<string, string>)

  const ContentType: string := "Content-Type"
  const Authorization: string := "Authorization"
  const JsonMediaType: string := "application/json"

  /** The bearer token `apiFetch` finds in `localStorage`: `access`, else `token`. */
  function StoredToken(local: map<string, string>): (r: Option<string>)
    ensures r.Some? ==> r.value != ""
    ensures Truthy(Get(local, "access")) ==> r == Get(local, "access")
    ensures !Truthy(Get(local, "access")) && Truthy(Get(local, "token")) ==> r == Get(local, "token")
    ensures !Truthy(Get(local, "access")) && !Truthy(Get(local, "token")) ==> r == None
  {
    var t := Or(Get(local, "access"), Get(local, "token"));
    if Truthy(t) then t else None
  }

  /**
   * The request headers: the caller's headers, never overwritten, plus
   * `Content-Type: application/json` when `json` is set and the caller gave
   * none, plus `Authorization: Bearer <token>` when `auth` is set, a token is
   * stored and the caller gave none.
   */
  function RequestHeaders(opts: FetchOptions, local: map<string, string>): (r: map<string, string>)
    ensures forall k :: k in opts.headers ==> k in r && r[k] == opts.headers[k]
    ensures ContentType in r <==> ContentType in opts.headers || opts.json
    ensures ContentType !in opts.headers && opts.json ==> r[ContentType] == JsonMediaType
    ensures Authorization in r <==> Authorization in opts.headers || (opts.auth && StoredToken(local).Some?)
    ensures Authorization !in opts.headers && opts.auth && StoredToken(local).Some? ==>
      r[Authorization] == "Bearer " + StoredToken(local).value
    ensures forall k :: k in r ==> k in opts.headers || k == ContentType || k == Authorization
  {
    var withType :=
      if opts.json && ContentType !in opts.headers then opts.headers[ContentType := JsonMediaType]
      else opts.headers;
    var token := StoredToken(local);
    if opts.auth && token.Some? && Authorization !in withType then
      withType[Authorization := "Bearer " + token.value]
    else withType
  }

  /** The body sent: a plain object is JSON-encoded when `json` is set; anything else goes as given. */
  function SentBody(opts: FetchOptions): (r: BodyValue)
    ensures r.Absent? <==> opts.body.Absent?
    ensures opts.json && opts.body.Object? ==> r == Text(opts.body.serialized)
    ensures !(opts.json && opts.body.Object?) ==> r == opts.body
  {
    if opts.json && opts.body.Object? then Text(opts.body.serialized) else opts.body
  }

  /**
   * The method as the source computes it: the caller's, else `GET`; with a
   * body, `|| "POST"` only replaces an empty method the caller passed.
   */
  function MethodAsWritten(opts: FetchOptions): (r: string)
    ensures opts.httpMethod.None? ==> r == "GET"
    ensures opts.httpMethod.Some? && opts.httpMethod.value != "" ==> r == opts.httpMethod.value
    ensures opts.httpMethod == Some("") ==> r == (if opts.body.Absent? then "" else "POST")
  {
    var m := opts.httpMethod.GetOr("GET");
    if !opts.body.Absent? && m == "" then "POST" else m
  }

  /** The method the source means: `POST` for a body sent without a method. */
  function MethodIntended(opts: FetchOptions): (r: string)
    ensures opts.httpMethod.None? && !opts.body.Absent? ==> r == "POST"
    ensures opts.httpMethod.None? && opts.body.Absent? ==> r == "GET"
    ensures opts.httpMethod.Some? && opts.httpMethod.value != "" ==> r == opts.httpMethod.value
  {
    var m := opts.httpMethod.GetOr("");
    if m != "" then m else if opts.body.Absent? then opts.httpMethod.GetOr("GET") else "POST"
  }

  /** `apiFetch`'s request exactly as written, body without a method included. */
  function BuildFetchInitAsWritten(base: string, path: Option<string>, opts: FetchOptions,
                                   local: map<string, string>): (r: FetchInit)
    ensures r.url == ApiUrlFrom(base, path)
    ensures r.httpMethod == MethodAsWritten(opts)
    ensures r.mode == opts.mode.GetOr("cors") && r.credentials == opts.credentials.GetOr("omit")
    ensures r.headers == RequestHeaders(opts, local) && r.body == SentBody(opts)
    ensures r.rest == opts.rest
  {
    FetchInit(ApiUrlFrom(base, path), MethodAsWritten(opts), opts.mode.GetOr("cors"),
              opts.credentials.GetOr("omit"), RequestHeaders(opts, local), SentBody(opts), opts.rest)
  }

  /**
   * As written, a body sent without a method goes out as a `GET` request,
   * which `fetch` refuses: the `POST` fallback never applies.
   */
  lemma BodyWithoutMethodStaysGet(base: string, path: Option<string>, opts: FetchOptions,
                                  local: map<string, string>)
    requires opts.httpMethod.None? && !opts.body.Absent?
    ensures BuildFetchInitAsWritten(base, path, opts, local).httpMethod == "GET"
    ensures BuildFetchInitAsWritten(base, path, opts, local).body != Absent
  {
  }

  /** `apiFetch`'s request with a body defaulting to `POST`, as the source intends. */
  function BuildFetchInit(base: string, path: Option<string>, opts: FetchOptions,
                          local: map<string, string>): (r: FetchInit)
    ensures r.url == ApiUrlFrom(base, path)
    ensures r.httpMethod == MethodIntended(opts)
    ensures r.body.Absent? <==> opts.body.Absent?
    ensures !r.body.Absent? && opts.httpMethod.None? ==> r.httpMethod == "POST"
    ensures r.rest == opts.rest
    ensures r == BuildFetchInitAsWritten(base, path, opts, local).(httpMethod := r.httpMethod)
  {
    BuildFetchInitAsWritten(base, path, opts, local).(httpMethod := MethodIntended(opts))
  }

  /** The correction changes nothing except the method of a body sent without one. */
  lemma {:induction false} FetchMethodCorrectionOnlyThere(base: string, path: Option<string>,
                                                          opts: FetchOptions, local: map<string, string>)
    ensures opts.httpMethod.Some? || opts.body.Absent? ==>
      BuildFetchInit(base, path, opts, local) == BuildFetchInitAsWritten(base, path, opts, local)
  {
    if opts.httpMethod.Some? && opts.httpMethod.value == "" && !opts.body.Absent? {
      assert MethodIntended(opts) == "POST" == MethodAsWritten(opts);
    }
  }

  // ---------------------------------------------------------------------------
  // The configuration object
  // ---------------------------------------------------------------------------

  /**
   * The state `js/config.js` keeps: `window.API_BASE` and the `localStorage`
   * area holding the override.
   */
  class ApiConfig {
    const hostname: string
    const local: Storage
    var base: string

    /** The base is always a normalised URL. */
    ghost predicate Valid()
      reads this
    {
      IsNormalized(base)
    }

    /** Page load: the base is chosen from the query, the stored override and the default. */
    constructor (hostname: string, query: Option<string>, local: Storage)
      ensures this.hostname == hostname && this.local == local
      ensures base == InitialBase(query, local.GetItem(OverrideKey), hostname)
      ensures Valid()
    {
      this.hostname := hostname;
      this.local := local;
      base := InitialBase(query, local.GetItem(OverrideKey), hostname);
    }

    /** `setApiBase(url)`: a usable URL is stored and becomes the base; anything else changes nothing. */
    method SetApiBase(url: Option<string>)
      requires Valid()
      modifies this, local
      ensures Valid()
      ensures Normalize(url).Some? ==>
        base == Normalize(url).value && local.items == old(local.items)[OverrideKey := base]
      ensures Normalize(url).None? ==> base == old(base) && local.items == old(local.items)
    {
      var v := Normalize(url);
      if v.Some? {
        local.SetItem(OverrideKey, v.value);
        base := v.value;
      }
    }

    /** `clearApiBaseOverride()`: the override is removed and the base is the default again. */
    method ClearApiBaseOverride()
      modifies this, local
      ensures Valid()
      ensures base == DefaultBase(hostname)
      ensures local.items == old(local.items) - {OverrideKey}
    {
      local.RemoveItem(OverrideKey);
      DefaultBaseIsNormalized(hostname);
      base := DefaultBase(hostname);
    }

    /**
     * `apiUrl(path)` against the current base: the base for a missing or
     * empty path, an absolute URL unchanged, and otherwise the path joined
     * to the base by one slash.
     */
    function ApiUrl(path: Option<string>): (r: string)
      reads this
      ensures r == ApiUrlFrom(base, path)
      ensures !Truthy(path) ==> r == base
      ensures Truthy(path) && HasHttpScheme(path.value) ==> r == path.value
      ensures Truthy(path) && !HasHttpScheme(path.value) ==>
        StartsWith(r, base + "/") && EndsWith(r, path.value) &&
        |r| == |base| + |path.value| + (if StartsWith(path.value, "/") then 0 else 1)
    {
      ApiUrlFrom(base, path)
    }

    /**
     * The request `apiFetch(path, opts)` sends as written, from the current
     * base and stored token: a body without a method goes out as `GET`.
     */
    function RequestInitAsWritten(path: Option<string>, opts: FetchOptions): (r: FetchInit)
      reads this, local
      ensures r == BuildFetchInitAsWritten(base, path, opts, local.items)
      ensures r.url == ApiUrl(path)
      ensures r.httpMethod == MethodAsWritten(opts)
      ensures r.mode == opts.mode.GetOr("cors") && r.credentials == opts.credentials.GetOr("omit")
      ensures r.headers == RequestHeaders(opts, local.items) && r.body == SentBody(opts)
      ensures r.rest == opts.rest
    {
      BuildFetchInitAsWritten(base, path, opts, local.items)
    }

    /**
     * The request `apiFetch(path, opts)` would send with the method
     * corrected (a body without a method is a `POST`): the request as
     * written with only the method changed.
     */
    function RequestInit(path: Option<string>, opts: FetchOptions): (r: FetchInit)
      reads this, local
      ensures r == BuildFetchInit(base, path, opts, local.items)
      ensures r.url == ApiUrl(path)
      ensures r.httpMethod == MethodIntended(opts)
      ensures !r.body.Absent? && opts.httpMethod.None? ==> r.httpMethod == "POST"
      ensures r.mode == opts.mode.GetOr("cors") && r.credentials == opts.credentials.GetOr("omit")
      ensures r.headers == RequestHeaders(opts, local.items) && r.body == SentBody(opts)
      ensures r.rest == opts.rest
      ensures r == RequestInitAsWritten(path, opts).(httpMethod := MethodIntended(opts))
    {
      BuildFetchInit(base, path, opts, local.items)
    }
  }
}
