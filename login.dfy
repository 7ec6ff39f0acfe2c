/**
 * The login page `js/index.js`: the known login endpoints, the request body
 * each one expects, the normalisation of the token response, the loop that
 * tries the endpoints in order, and what the submit handler stores in
 * `sessionStorage`.
 */
module Login {
  import opened Wrappers
  import opened JsStrings
  import opened WebStorage

  // ---------------------------------------------------------------------------
  // Endpoints and request bodies
  // ---------------------------------------------------------------------------

  const AuthLoginPath: string := "/api/auth/login/"
  const UsersLoginPath: string := "/api/users/login/"
  const TokenPath: string := "/api/token/"

  /** `LOGIN_ENDPOINTS`, in the order they are tried. */
  function LoginEndpoints(base: string): (r: seq<string>)
    ensures |r| == 3
    ensures r[0] == base + AuthLoginPath && r[1] == base + UsersLoginPath && r[2] == base + TokenPath
  {
    [base + AuthLoginPath, base + UsersLoginPath, base + TokenPath]
  }

  /** The JSON body of a login request: `{email, password}` or `{username, password}`. */
  datatype LoginBody =
    | EmailPassword(email: string, password: string)
    | UsernamePassword(username: string, password: string)

  /** Simple JWT's token endpoint wants a `username`; every other endpoint an `email`. */
  function LoginBodyFor(url: string, email: string, password: string): (r: LoginBody)
    ensures r.UsernamePassword? <==> EndsWith(url, TokenPath)
    ensures r.UsernamePassword? ==> r.username == email && r.password == password
    ensures r.EmailPassword? ==> r.email == email && r.password == password
  {
    if EndsWith(url, TokenPath) then UsernamePassword(email, password) else EmailPassword(email, password)
  }

  /** Over any base, only the third endpoint is sent a `username`. */
  lemma LoginBodiesOfEndpoints(base: string, email: string, password: string)
    ensures LoginBodyFor(LoginEndpoints(base)[0], email, password) == EmailPassword(email, password)
    ensures LoginBodyFor(LoginEndpoints(base)[1], email, password) == EmailPassword(email, password)
    ensures LoginBodyFor(LoginEndpoints(base)[2], email, password) == UsernamePassword(email, password)
  {
    EndsWithAppend(base, AuthLoginPath, TokenPath);
    assert !EndsWith(AuthLoginPath, TokenPath) by {
      assert AuthLoginPath[|AuthLoginPath| - |TokenPath|..][1] != TokenPath[1];
    }
    EndsWithAppend(base, UsersLoginPath, TokenPath);
    assert !EndsWith(UsersLoginPath, TokenPath) by {
      assert UsersLoginPath[|UsersLoginPath| - |TokenPath|..][1] != TokenPath[1];
    }
    EndsWithAppend(base, TokenPath, TokenPath);
  }

  // ---------------------------------------------------------------------------
  // Token response
  // ---------------------------------------------------------------------------

  /** The fields of a login response body that the page looks at. */
  datatype LoginData = LoginData(
    access: Option<string>,
    token: Option<string>,
    key: Option<string>,
    refresh: Option<string>,
    detail: Option<string>)

  /** `{access, refresh}` as `normalizeTokenResponse` returns it. */
  datatype Tokens = Tokens(access: Option<string>, refresh: Option<string>)

  /**
   * `normalizeTokenResponse(data, endpoint)`: the access token is the first
   * truthy field among `access`, `token` and `key`, and `refresh` is carried
   * over. On the token endpoint a body with only a `refresh` still yields a
   * pair, whose access token is then falsy. A null body yields nothing.
   */
  function NormalizeTokenResponse(data: Option<LoginData>, endpoint: string): (r: Option<Tokens>)
    ensures data.None? ==> r.None?
    ensures r.Some? ==> data.Some? && r.value.refresh == data.value.refresh
    ensures data.Some? && Truthy(data.value.access) ==> r == Some(Tokens(data.value.access, data.value.refresh))
    ensures data.Some? && !Truthy(data.value.access) && Truthy(data.value.token) ==>
      r == Some(Tokens(data.value.token, data.value.refresh))
    ensures data.Some? && !Truthy(data.value.access) && !Truthy(data.value.token) && Truthy(data.value.key) ==>
      r == Some(Tokens(data.value.key, data.value.refresh))
    ensures r.Some? && !Truthy(r.value.access) ==> EndsWith(endpoint, TokenPath) && Truthy(data.value.refresh)
    ensures data.Some? && !Truthy(data.value.access) && !Truthy(data.value.token) && !Truthy(data.value.key) ==>
      (r.Some? <==> EndsWith(endpoint, TokenPath) && Truthy(data.value.refresh)) &&
      (r.Some? ==> r.value == Tokens(data.value.access, data.value.refresh))
  {
    match data
    case None => None
    case Some(d) =>
      if Truthy(d.access) then Some(Tokens(d.access, d.refresh))
      else if Truthy(d.token) then Some(Tokens(d.token, d.refresh))
      else if Truthy(d.key) then Some(Tokens(d.key, d.refresh))
      else if EndsWith(endpoint, TokenPath) && (Truthy(d.access) || Truthy(d.refresh)) then
        Some(Tokens(d.access, d.refresh))
      else None
  }

  /** The response carries a usable access token exactly when one of `access`, `token`, `key` is truthy. */
  predicate HasUsableToken(data: Option<LoginData>, endpoint: string) {
    var t := NormalizeTokenResponse(data, endpoint);
    t.Some? && Truthy(t.value.access)
  }

  lemma UsableTokenIff(data: Option<LoginData>, endpoint: string)
    ensures HasUsableToken(data, endpoint) <==>
      data.Some? && (Truthy(data.value.access) || Truthy(data.value.token) || Truthy(data.value.key))
  {
  }

  // ---------------------------------------------------------------------------
  // The endpoint loop
  // ---------------------------------------------------------------------------

  /** What one login request came back with. */
  datatype LoginResponse =
    | NetworkError
      /** `data` is None when the body parsed to `null`; an unparsable body gives all-None fields. */
    | Response(status: int, data: Option<LoginData>)

  predicate IsOk(status: int) { 200 <= status <= 299 }

  datatype LoginResult =
    | Success(tokens: Tokens, endpoint: string)
    | Failure(error: string, failedAt: Option<string>)

  const GenericLoginError: string := "No se pudo iniciar sesi\U{00F3}n con los endpoints conocidos."

  datatype Attempt = Continue | Stop(result: LoginResult)

  /**
   * The decision taken on one endpoint's response. It stops with success on
   * an OK response carrying a usable token, and with failure on a non-OK
   * response (other than 404) whose body has a truthy `detail`. A 404, a
   * network error, an OK response without a usable token and a non-OK
   * response without `detail` all move on.
   */
  function Decide(url: string, resp: LoginResponse): (a: Attempt)
    ensures a.Stop? && a.result.Success? <==>
      resp.Response? && resp.status != 404 && IsOk(resp.status) && HasUsableToken(resp.data, url)
    ensures a.Stop? && a.result.Failure? <==>
      resp.Response? && resp.status != 404 && !IsOk(resp.status) && resp.data.Some? && Truthy(resp.data.value.detail)
    ensures a.Stop? && a.result.Success? ==>
      a.result == Success(NormalizeTokenResponse(resp.data, url).value, url)
    ensures a.Stop? && a.result.Failure? ==>
      a.result == Failure(resp.data.value.detail.value, Some(url))
  {
    match resp
    case NetworkError => Continue
    case Response(status, data) =>
      if status == 404 then Continue
      else if IsOk(status) then
        var tokens := NormalizeTokenResponse(data, url);
        if tokens.Some? && Truthy(tokens.value.access) then Stop(Success(tokens.value, url)) else Continue
      else if data.Some? && Truthy(data.value.detail) then Stop(Failure(data.value.detail.value, Some(url)))
      else Continue
  }

  /** One request sent by the loop. */
  datatype LoginRequest = LoginRequest(url: string, body: LoginBody)

  /**
   * The outcome of trying `endpoints` in order, each with the body it
   * expects, where `responses[i]` is what `endpoints[i]` answers: the first
   * endpoint whose response is decisive gives the result `r`, and nothing
   * after it is in `sent`; when none is decisive the result is the generic
   * failure, after every endpoint was tried.
   */
  predicate TriedInOrder(endpoints: seq<string>, responses: seq<LoginResponse>, email: string, password: string,
                         r: LoginResult, sent: seq<LoginRequest>)
    requires |responses| == |endpoints|
  {
    |sent| <= |endpoints|
    && (forall i :: 0 <= i < |sent| ==>
      sent[i] == LoginRequest(endpoints[i], LoginBodyFor(endpoints[i], email, password)))
    && (forall i :: 0 <= i < |sent| - 1 ==> Decide(endpoints[i], responses[i]).Continue?)
    && (|sent| < |endpoints| ==>
      0 < |sent| && Decide(endpoints[|sent| - 1], responses[|sent| - 1]) == Stop(r))
    && (|sent| == |endpoints| && 0 < |sent| && Decide(endpoints[|sent| - 1], responses[|sent| - 1]).Stop? ==>
      Decide(endpoints[|sent| - 1], responses[|sent| - 1]) == Stop(r))
    && ((|sent| == 0 || Decide(endpoints[|sent| - 1], responses[|sent| - 1]).Continue?) ==>
      |sent| == |endpoints| && r == Failure(GenericLoginError, None))
  }

  /** `tryLogin(email, password)`: the endpoints are tried in order until one is decisive. */
  method TryLogin(endpoints: seq<string>, responses: seq<LoginResponse>, email: string, password: string)
    returns (r: LoginResult, sent: seq<LoginRequest>)
    requires |responses| == |endpoints|
    ensures TriedInOrder(endpoints, responses, email, password, r, sent)
    ensures r.Success? ==> Truthy(r.tokens.access)
  {
    sent := [];
    var i := 0;
    while i < |endpoints|
      invariant 0 <= i <= |endpoints| && |sent| == i
      invariant forall j :: 0 <= j < i ==>
        sent[j] == LoginRequest(endpoints[j], LoginBodyFor(endpoints[j], email, password))
      invariant forall j :: 0 <= j < i ==> Decide(endpoints[j], responses[j]).Continue?
    {
      var url := endpoints[i];
      sent := sent + [LoginRequest(url, LoginBodyFor(url, email, password))];
      var a := Decide(url, responses[i]);
      if a.Stop? {
        return a.result, sent;
      }
      i := i + 1;
    }
    r := Failure(GenericLoginError, None);
  }

  // ---------------------------------------------------------------------------
  // Submit handler
  // ---------------------------------------------------------------------------

  const CredentialsMissing: string := "Por favor ingresa tus credenciales"
  const LoginSucceeded: string := "\U{2705} Login exitoso. Redirigiendo..."
  const InvalidCredentials: string := "Credenciales inv\U{00E1}lidas"

  /** The line shown after a login attempt. */
  function ResultMessage(r: LoginResult): (m: string)
    ensures r.Success? ==> m == LoginSucceeded
    ensures r.Failure? && r.error != "" ==> m == "\U{274C} " + r.error
    ensures r.Failure? && r.error == "" ==> m == "\U{274C} " + InvalidCredentials
  {
    if r.Success? then LoginSucceeded else "\U{274C} " + OrElse(Some(r.error), InvalidCredentials)
  }

  /**
   * The session after a successful login: `authToken`, `username`,
   * `lastLoginEndpoint` and `apiBase` are set, `refreshToken` only when a
   * refresh token came back; every other key is as it was.
   */
  function SessionAfterLogin(items: map<string, string>, tokens: Tokens, email: string,
                             endpoint: string, base: string): (r: map<string, string>)
    requires Truthy(tokens.access)
    ensures "authToken" in r && r["authToken"] == tokens.access.value
    ensures "username" in r && r["username"] == email
    ensures "lastLoginEndpoint" in r && r["lastLoginEndpoint"] == endpoint
    ensures "apiBase" in r && r["apiBase"] == base
    ensures Truthy(tokens.refresh) ==> "refreshToken" in r && r["refreshToken"] == tokens.refresh.value
    ensures !Truthy(tokens.refresh) ==> Get(r, "refreshToken") == Get(items, "refreshToken")
    ensures forall k :: k !in {"authToken", "refreshToken", "username", "lastLoginEndpoint", "apiBase"} ==>
      Get(r, k) == Get(items, k)
  {
    var withToken := items["authToken" := tokens.access.value];
    var withRefresh := if Truthy(tokens.refresh) then withToken["refreshToken" := tokens.refresh.value] else withToken;
    withRefresh["username" := email]["lastLoginEndpoint" := endpoint]["apiBase" := base]
  }

  /**
   * The submit handler: blank credentials (after trimming) send nothing and
   * change nothing; otherwise the three endpoints of `base` are tried in
   * order with the trimmed credentials, a success is recorded in the
   * session, and the outcome is reported.
   */
  method Submit(session: Storage, base: string, emailInput: string, passwordInput: string,
                responses: seq<LoginResponse>)
    returns (r: Option<LoginResult>, message: string, sent: seq<LoginRequest>)
    requires |responses| == 3
    modifies session
    ensures r.None? <==> Trim(emailInput) == "" || Trim(passwordInput) == ""
    ensures r.None? ==> message == CredentialsMissing && sent == [] && session.items == old(session.items)
    ensures r.Some? ==>
      message == ResultMessage(r.value) && 0 < |sent| &&
      sent[0] == LoginRequest(base + AuthLoginPath, EmailPassword(Trim(emailInput), Trim(passwordInput)))
    ensures r.Some? ==>
      TriedInOrder(LoginEndpoints(base), responses, Trim(emailInput), Trim(passwordInput), r.value, sent)
    ensures r.Some? && r.value.Success? ==>
      Truthy(r.value.tokens.access) &&
      session.items == SessionAfterLogin(old(session.items), r.value.tokens, Trim(emailInput), r.value.endpoint, base)
    ensures r.Some? && r.value.Failure? ==> session.items == old(session.items)
  {
    var email := Trim(emailInput);
    var password := Trim(passwordInput);
    if email == "" || password == "" {
      return None, CredentialsMissing, [];
    }
    var endpoints := LoginEndpoints(base);
    LoginBodiesOfEndpoints(base, email, password);
    var result;
    result, sent := TryLogin(endpoints, responses, email, password);
    if result.Success? {
      session.items := SessionAfterLogin(session.items, result.tokens, email, result.endpoint, base);
    }
    r := Some(result);
    message := ResultMessage(result);
  }
}
