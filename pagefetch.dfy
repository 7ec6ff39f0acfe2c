/**
 * The request helpers that the signed-in pages (`logIncome`, `logPayment`,
 * `income`, `expenses`, `home`, `profile`, `wallet` and the `new*` forms)
 * each carry a copy of: the page's API base, the session guard, resolving an
 * image URL, the cache-busting query, `authFetch` and `discoverOnce` with
 * its candidate endpoint lists, and the display name.
 */
module PageFetch {
  import opened Wrappers
  import opened JsStrings
  import opened WebStorage
  import Config

  // ---------------------------------------------------------------------------
  // Base and guard
  // ---------------------------------------------------------------------------

  /** `API_BASE` on a page: `window.API_BASE` when it is a non-empty string, else the page's origin. */
  function PageApiBase(windowApiBase: Option<string>, origin: string): (r: string)
    ensures Truthy(windowApiBase) ==> r == windowApiBase.value
    ensures !Truthy(windowApiBase) ==> r == origin
  {
    OrElse(windowApiBase, origin)
  }

  const AuthTokenKey: string := "authToken"

  /** A page opens only with a non-empty `authToken` in the session; otherwise it sends the user to the login page. */
  function SessionToken(session: map<string, string>): (r: Option<string>)
    ensures r.Some? <==> AuthTokenKey in session && session[AuthTokenKey] != ""
    ensures r.Some? ==> r.value == session[AuthTokenKey]
  {
    var t := Get(session, AuthTokenKey);
    if Truthy(t) then t else None
  }

  // ---------------------------------------------------------------------------
  // Image URLs
  // ---------------------------------------------------------------------------

  /**
   * `resolveImageUrl(raw)`: nothing for a missing or blank value; a trimmed
   * absolute `http(s)://` URL as it is; any other trimmed path appended to
   * the base with exactly one slash in front of it.
   */
  function ResolveImageUrl(base: string, raw: Option<string>): (r: Option<string>)
    ensures r.None? <==> raw.None? || Trim(raw.value) == ""
    ensures r.Some? && HasHttpScheme(Trim(raw.value)) ==> r.value == Trim(raw.value)
    ensures r.Some? && !HasHttpScheme(Trim(raw.value)) ==>
      var s := Trim(raw.value);
      StartsWith(r.value, base + "/") && EndsWith(r.value, s) &&
      |r.value| == |base| + |s| + (if StartsWith(s, "/") then 0 else 1)
  {
    if !Truthy(raw) then None
    else
      var s := Trim(raw.value);
      if s == "" then None
      else if HasHttpScheme(s) then Some(s)
      else if StartsWith(s, "/") then
        assert s == "/" + s[1..];
        Some(base + s)
      else Some(base + "/" + s)
  }

  /** Each page's image resolver is `apiUrl` applied to the trimmed value. */
  lemma ResolveImageUrlIsApiUrl(base: string, raw: Option<string>)
    requires raw.Some? && Trim(raw.value) != ""
    ensures ResolveImageUrl(base, raw) == Some(Config.ApiUrlFrom(base, Some(Trim(raw.value))))
  {
  }

  // ---------------------------------------------------------------------------
  // Cache busting
  // ---------------------------------------------------------------------------

  /** `url + (url.includes("?") ? "&t=" : "?t=") + now`: the timestamp joins an existing query or starts one. */
  function CacheBust(url: string, now: nat): (r: string)
    ensures StartsWith(r, url) && EndsWith(r, Decimal(now))
    ensures |r| == |url| + 3 + |Decimal(now)|
    ensures r[|url|] == (if '?' in url then '&' else '?') && r[|url| + 1..|url| + 3] == "t="
  {
    url + (if '?' in url then "&t=" else "?t=") + Decimal(now)
  }

  /** `url + "?t=" + now`, the form `logPayment` uses, which always starts a new query. */
  function CacheBustNewQuery(url: string, now: nat): (r: string)
    ensures StartsWith(r, url) && EndsWith(r, Decimal(now))
    ensures |r| == |url| + 3 + |Decimal(now)|
    ensures r[|url|] == '?' && r[|url| + 1..|url| + 3] == "t="
  {
    url + "?t=" + Decimal(now)
  }

  /** The two forms agree exactly on URLs that have no query yet. */
  lemma CacheBustFormsAgreeIff(url: string, now: nat)
    ensures CacheBust(url, now) == CacheBustNewQuery(url, now) <==> '?' !in url
  {
    if '?' in url {
      assert CacheBust(url, now)[|url|] != CacheBustNewQuery(url, now)[|url|];
    }
  }

  /** After `CacheBustNewQuery`, a URL that had a query holds two `?`: the second one is taken as data. */
  lemma CacheBustNewQueryDoublesMark(url: string, now: nat)
    requires '?' in url
    ensures exists i, j ::
      && 0 <= i < j < |CacheBustNewQuery(url, now)|
      && CacheBustNewQuery(url, now)[i] == '?'
      && CacheBustNewQuery(url, now)[j] == '?'
  {
    var r := CacheBustNewQuery(url, now);
    var i :| 0 <= i < |url| && url[i] == '?';
    assert r[i] == '?' && r[|url|] == '?';
  }

  // ---------------------------------------------------------------------------
  // authFetch
  // ---------------------------------------------------------------------------

  const ContentType: string := "Content-Type"
  const Authorization: string := "Authorization"

  /**
   * The headers `authFetch` sends: `Content-Type: application/json` and
   * `Authorization: Bearer <session token>`, each replaced by the caller's
   * header of the same name, plus every other header the caller gives.
   */
  function AuthHeaders(token: string, caller: map<string, string>): (r: map<string, string>)
    ensures r.Keys == caller.Keys + {ContentType, Authorization}
    ensures forall k :: k in caller ==> r[k] == caller[k]
    ensures ContentType !in caller ==> r[ContentType] == "application/json"
    ensures Authorization !in caller ==> r[Authorization] == "Bearer " + token
  {
    map[ContentType := "application/json", Authorization := "Bearer " + token] + caller
  }

  /** What `authFetch` gives back: the response, or the error it throws on a 401. */
  datatype FetchOutcome = Unauthorized | Returned(status: int)

  /**
   * `authFetch` once the response is in: a 401 clears the whole session
   * (the page then goes to the login page and the call throws); any other
   * status is handed back and the session is left alone.
   */
  method AuthFetch(session: Storage, status: int) returns (r: FetchOutcome)
    modifies session
    ensures status == 401 ==> r == Unauthorized && session.items == map[]
    ensures status != 401 ==> r == Returned(status) && session.items == old(session.items)
  {
    if status == 401 {
      session.Clear();
      return Unauthorized;
    }
    return Returned(status);
  }

  // ---------------------------------------------------------------------------
  // discoverOnce
  // ---------------------------------------------------------------------------

  /** How a probe request to one candidate ended. */
  datatype Probe = ProbeNetworkError | ProbeStatus(status: int)

  predicate ProbeOk(p: Probe) {
    p.ProbeStatus? && 200 <= p.status <= 299
  }

  predicate ProbeUnauthorized(p: Probe) {
    p.ProbeStatus? && p.status == 401
  }

  /** The session after a run of probes: emptied if any of them came back 401. */
  function SessionAfterProbes(items: map<string, string>, probes: seq<Probe>): (r: map<string, string>)
    ensures (exists i :: 0 <= i < |probes| && ProbeUnauthorized(probes[i])) ==> r == map[]
    ensures (forall i :: 0 <= i < |probes| ==> !ProbeUnauthorized(probes[i])) ==> r == items
    decreases |probes|
  {
    if probes == [] then items
    else if ProbeUnauthorized(probes[|probes| - 1]) then map[]
    else SessionAfterProbes(items, probes[..|probes| - 1])
  }

  /**
   * `discoverOnce(key, candidates)`, where `probes[i]` is how the probe of
   * `candidates[i]` ends. A truthy cached value is returned and nothing is
   * sent. Otherwise the candidates are probed in order; the first one that
   * answers OK is cached under `key` and returned, and nothing after it is
   * probed. A 401 on the way empties the session, but probing goes on. When
   * no candidate answers OK the first candidate is returned (none for an
   * empty list) and nothing is cached.
   */
  method DiscoverOnce(session: Storage, key: string, candidates: seq<string>, probes: seq<Probe>)
    returns (url: Option<string>, probed: nat)
    requires |probes| == |candidates|
    modifies session
    ensures Truthy(old(session.GetItem(key))) ==>
      url == old(session.GetItem(key)) && probed == 0 && session.items == old(session.items)
    ensures !Truthy(old(session.GetItem(key))) ==> probed <= |candidates|
    ensures forall i :: 0 <= i < probed - 1 ==> !ProbeOk(probes[i])
    ensures !Truthy(old(session.GetItem(key))) && 0 < probed && ProbeOk(probes[probed - 1]) ==>
      url == Some(candidates[probed - 1]) &&
      session.items == SessionAfterProbes(old(session.items), probes[..probed])[key := candidates[probed - 1]]
    ensures !Truthy(old(session.GetItem(key))) && (probed == 0 || !ProbeOk(probes[probed - 1])) ==>
      probed == |candidates| &&
      url == (if candidates == [] then None else Some(candidates[0])) &&
      session.items == SessionAfterProbes(old(session.items), probes)
    ensures (forall i :: 0 <= i < probed ==> !ProbeUnauthorized(probes[i])) ==>
      forall k :: k != key ==> Get(session.items, k) == Get(old(session.items), k)
  {
    var cached := session.GetItem(key);
    if Truthy(cached) {
      return cached, 0;
    }
    probed := 0;
    while probed < |candidates|
      invariant probed <= |candidates|
      invariant forall i :: 0 <= i < probed ==> !ProbeOk(probes[i])
      invariant session.items == SessionAfterProbes(old(session.items), probes[..probed])
    {
      var p := probes[probed];
      assert probes[..probed + 1][..probed] == probes[..probed];
      if p.ProbeStatus? {
        var r := AuthFetch(session, p.status);
        if ProbeOk(p) {
          session.SetItem(key, candidates[probed]);
          return Some(candidates[probed]), probed + 1;
        }
      }
      probed := probed + 1;
    }
    assert probes[..probed] == probes;
    url := if candidates == [] then None else Some(candidates[0]);
  }

  // ---------------------------------------------------------------------------
  // Candidate endpoints
  // ---------------------------------------------------------------------------

  /** The session keys under which `discoverOnce` caches each discovered URL. */
  const MeKey: string := "endpoint_me"
  const FixedExpensesKey: string := "endpoint_egresos_fijos"
  const ExtraExpensesKey: string := "endpoint_egresos_extra"

  /**
   * A run of probes without a 401, followed by caching under `key`, leaves
   * every other key of the session as it was: the session `DiscoverOnce`
   * ends with keeps the other discoveries' cached URLs.
   */
  lemma DiscoveryKeepsOtherKeys(items: map<string, string>, probes: seq<Probe>, key: string,
                                url: string, other: string)
    requires other != key
    requires forall i :: 0 <= i < |probes| ==> !ProbeUnauthorized(probes[i])
    ensures Get(SessionAfterProbes(items, probes), other) == Get(items, other)
    ensures Get(SessionAfterProbes(items, probes)[key := url], other) == Get(items, other)
  {
  }

  /**
   * The three discoveries cache under three different keys, so by
   * DiscoveryKeepsOtherKeys (and DiscoverOnce's last clause) one discovery
   * without a 401 leaves the others' cached URLs alone.
   */
  lemma DiscoveryKeysDistinct()
    ensures MeKey != FixedExpensesKey && MeKey != ExtraExpensesKey && FixedExpensesKey != ExtraExpensesKey
  {
    assert MeKey[9] != FixedExpensesKey[9] && MeKey[9] != ExtraExpensesKey[9];
    assert FixedExpensesKey[17] != ExtraExpensesKey[17];
  }

  /**
   * The `me` discovery, when none of its probes came back 401, leaves the
   * cached fixed-expense and extra-expense URLs as they were.
   */
  lemma MeDiscoveryKeepsListCaches(items: map<string, string>, probes: seq<Probe>, url: string)
    requires forall i :: 0 <= i < |probes| ==> !ProbeUnauthorized(probes[i])
    ensures Get(SessionAfterProbes(items, probes)[MeKey := url], FixedExpensesKey) == Get(items, FixedExpensesKey)
    ensures Get(SessionAfterProbes(items, probes)[MeKey := url], ExtraExpensesKey) == Get(items, ExtraExpensesKey)
  {
    DiscoveryKeysDistinct();
    DiscoveryKeepsOtherKeys(items, probes, MeKey, url, FixedExpensesKey);
    DiscoveryKeepsOtherKeys(items, probes, MeKey, url, ExtraExpensesKey);
  }

  /** Where the signed-in user's profile may live, in the order tried. */
  function MeCandidates(base: string): (r: seq<string>)
    ensures |r| == 4 && r[0] == base + "/api/auth/me/"
  {
    [base + "/api/auth/me/", base + "/api/users/me/", base + "/api/me/", base + "/api/user/me/"]
  }

  /** Where the fixed-expense list may live (`getFixUrl`), in the order tried. */
  function FixedExpenseCandidates(base: string): (r: seq<string>)
    ensures |r| == 3 && r[0] == base + "/api/EgresosFijos/"
  {
    [base + "/api/EgresosFijos/", base + "/api/egresos/fijos/", base + "/api/egresos-fijos/"]
  }

  /** Where the extra-expense list may live (`getVarUrl`), in the order tried. */
  function ExtraExpenseCandidates(base: string): (r: seq<string>)
    ensures |r| == 3 && r[0] == base + "/api/EgresosExtra/"
  {
    [base + "/api/EgresosExtra/", base + "/api/egresos/extra/", base + "/api/egresos-variados/"]
  }

  /** No candidate list repeats an address, so the cached address names one candidate. */
  lemma CandidatesDistinct(base: string)
    ensures forall i, j :: 0 <= i < j < 4 ==> MeCandidates(base)[i] != MeCandidates(base)[j]
    ensures forall i, j :: 0 <= i < j < 3 ==> FixedExpenseCandidates(base)[i] != FixedExpenseCandidates(base)[j]
    ensures forall i, j :: 0 <= i < j < 3 ==> ExtraExpenseCandidates(base)[i] != ExtraExpenseCandidates(base)[j]
  {
    var me := MeCandidates(base);
    var n := |base|;
    assert me[0][n + 5] == 'a' && me[1][n + 5] == 'u' && me[2][n + 5] == 'm' && me[3][n + 5] == 'u';
    assert me[1][n + 6] == 's' && me[3][n + 6] == 's';
    assert me[1][n + 7] == 'e' && me[3][n + 7] == 'e';
    assert me[1][n + 8] == 'r' && me[3][n + 8] == 'r';
    assert me[1][n + 9] == 's' && me[3][n + 9] == '/';
    var fx := FixedExpenseCandidates(base);
    assert fx[0][n + 5] == 'E' && fx[1][n + 5] == 'e' && fx[2][n + 5] == 'e';
    assert fx[1][n + 12] == '/' && fx[2][n + 12] == '-';
    var ex := ExtraExpenseCandidates(base);
    assert ex[0][n + 5] == 'E' && ex[1][n + 5] == 'e' && ex[2][n + 5] == 'e';
    assert ex[1][n + 12] == '/' && ex[2][n + 12] == '-';
  }

  /** When no list candidate answers, the pages fall back to the route they were written for. */
  lemma DiscoverFallbackIsPrimaryRoute(base: string)
    ensures FixedExpenseCandidates(base)[0] == base + "/api/EgresosFijos/"
    ensures ExtraExpenseCandidates(base)[0] == base + "/api/EgresosExtra/"
    ensures MeCandidates(base)[0] == base + "/api/auth/me/"
  {
  }

  // ---------------------------------------------------------------------------
  // Display name
  // ---------------------------------------------------------------------------

  const DefaultDisplayName: string := "Usuario"

  /** `first_name || email || "Usuario"`: never empty. */
  function DisplayName(firstName: Option<string>, email: Option<string>): (r: string)
    ensures r != ""
    ensures Truthy(firstName) ==> r == firstName.value
    ensures !Truthy(firstName) && Truthy(email) ==> r == email.value
    ensures !Truthy(firstName) && !Truthy(email) ==> r == DefaultDisplayName
  {
    OrElse(firstName, OrElse(email, DefaultDisplayName))
  }
}
