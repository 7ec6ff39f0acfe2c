/**
 * The account pages: sign-up (signup.js), its code check (verify-signup.js),
 * and the password-reset chain: request a code (recover-password.js),
 * check it (verify-code.js), choose the new password (new-password.js).
 *
 * The chain hands its state from page to page through `sessionStorage`:
 * `signupEmail`, then `resetEmail` and `resetToken`.
 */
module AuthPages {
  import opened Wrappers
  import opened JsStrings
  import opened WebStorage
  import ErrorText

  const SignupEmailKey := "signupEmail"
  const ResetEmailKey := "resetEmail"
  const ResetTokenKey := "resetToken"

  // ---------------------------------------------------------------------------
  // isEmail: /^[^\s@]+@[^\s@]+\.[^\s@]+$/
  // ---------------------------------------------------------------------------

  /** A character of the class `[^\s@]`. */
  predicate Plain(c: char) {
    !IsSpace(c) && c != '@'
  }

  predicate AllPlain(s: string) {
    forall i :: 0 <= i < |s| ==> Plain(s[i])
  }

  /**
   * The pattern as a decomposition: `v` is `a@c.d` with `a`, `c` and `d`
   * non-empty runs of `[^\s@]` (the `.` is some dot after the `@`, the
   * middle part may hold other dots).
   */
  ghost predicate EmailPattern(v: string) {
    exists i, k ::
      && 0 < i && i + 1 < k && k + 1 < |v|
      && v[i] == '@' && v[k] == '.'
      && AllPlain(v[..i]) && AllPlain(v[i + 1..k]) && AllPlain(v[k + 1..])
  }

  /**
   * `isEmail(v)` as a direct test: a non-empty `@`-free, space-free part up
   * to the first `@`; after it, space-free `@`-free text with a dot that is
   * neither its first nor its last character.
   */
  predicate IsEmail(v: string) {
    var i := IndexOf(v, '@');
    0 < i < |v|
    && var b := v[i + 1..];
    AllPlain(v[..i]) && AllPlain(b) && 3 <= |b| && IndexOf(b[1..], '.') < |b| - 2
  }

  /** The direct test accepts exactly the strings of the pattern. */
  lemma IsEmailMatchesPattern(v: string)
    ensures IsEmail(v) <==> EmailPattern(v)
  {
    if IsEmail(v) {
      IsEmailGivesPattern(v);
    }
    if EmailPattern(v) {
      PatternPassesIsEmail(v);
    }
  }

  lemma IsEmailGivesPattern(v: string)
    requires IsEmail(v)
    ensures EmailPattern(v)
  {
    var i := IndexOf(v, '@');
    var b := v[i + 1..];
    var d := IndexOf(b[1..], '.');
    var k := i + 2 + d;
    assert v[k] == b[1..][d];
    assert v[i + 1..k] == b[..d + 1];
    assert v[k + 1..] == b[d + 2..];
    assert AllPlain(b[..d + 1]) && AllPlain(b[d + 2..]);
  }

  lemma PatternPassesIsEmail(v: string)
    requires EmailPattern(v)
    ensures IsEmail(v)
  {
    var i, k :|
      && 0 < i && i + 1 < k && k + 1 < |v|
      && v[i] == '@' && v[k] == '.'
      && AllPlain(v[..i]) && AllPlain(v[i + 1..k]) && AllPlain(v[k + 1..]);
    PassesAt(v, i, k);
  }

  /** The test accepts `v` given the positions of its `@` and of a dot after it. */
  lemma PassesAt(v: string, i: nat, k: nat)
    requires 0 < i && i + 1 < k && k + 1 < |v|
    requires v[i] == '@' && v[k] == '.'
    requires AllPlain(v[..i]) && AllPlain(v[i + 1..k]) && AllPlain(v[k + 1..])
    ensures IsEmail(v)
  {
    FirstAt(v, i);
    PlainAfterAt(v, i, k);
    DotAfterAt(v, i, k);
  }

  lemma PlainAfterAt(v: string, i: nat, k: nat)
    requires i < k < |v| && v[k] == '.'
    requires AllPlain(v[i + 1..k]) && AllPlain(v[k + 1..])
    ensures AllPlain(v[i + 1..])
  {
    assert v[i + 1..] == v[i + 1..k] + [v[k]] + v[k + 1..];
    AllPlainConcat(v[i + 1..k], [v[k]]);
    AllPlainConcat(v[i + 1..k] + [v[k]], v[k + 1..]);
  }

  lemma DotAfterAt(v: string, i: nat, k: nat)
    requires i + 1 < k && k + 1 < |v| && v[k] == '.'
    ensures IndexOf(v[i + 1..][1..], '.') < |v[i + 1..]| - 2
  {
    assert v[i + 1..][1..][k - i - 2] == v[k];
  }

  lemma AllPlainConcat(a: string, b: string)
    requires AllPlain(a) && AllPlain(b)
    ensures AllPlain(a + b)
  {
    assert forall m :: 0 <= m < |a| ==> (a + b)[m] == a[m];
    assert forall m :: |a| <= m < |a + b| ==> (a + b)[m] == b[m - |a|];
  }

  /** An `@` with no `@` before it is the first one. */
  lemma FirstAt(v: string, i: nat)
    requires i < |v| && v[i] == '@' && AllPlain(v[..i])
    ensures IndexOf(v, '@') == i
  {
    assert forall m :: 0 <= m < i ==> v[m] == v[..i][m];
  }

  // ---------------------------------------------------------------------------
  // signup.js
  // ---------------------------------------------------------------------------

  /** The raw input values; None for a missing element. */
  datatype SignupInputs = SignupInputs(
    email: Option<string>, firstName: Option<string>, lastName: Option<string>,
    birthday: Option<string>, phone: Option<string>, country: Option<string>,
    password: Option<string>, confirm: Option<string>)

  /** The JSON body sent to `/api/auth/signup-request/`. */
  datatype SignupBody = SignupBody(
    email: string, password: string, birthday: string, phone: string,
    country: string, firstName: string, lastName: string)

  datatype SignupError = MissingFields | InvalidEmail | PasswordMismatch

  datatype SignupOutcome = SignupRefused(error: SignupError) | SignupSend(body: SignupBody)

  /**
   * The sign-up checks, in order: the required fields (all but the two
   * names), the e-mail format, then equal passwords.  Text fields are
   * trimmed; the passwords are compared and sent as typed.
   */
  function SignupCheck(inputs: SignupInputs): (r: SignupOutcome)
    ensures
      var email := TrimOr(inputs.email, "");
      var password := OrElse(inputs.password, "");
      var confirm := OrElse(inputs.confirm, "");
      var missing :=
        email == "" || TrimOr(inputs.birthday, "") == "" || TrimOr(inputs.phone, "") == ""
        || TrimOr(inputs.country, "") == "" || password == "" || confirm == "";
      && (r == SignupRefused(MissingFields) <==> missing)
      && (r == SignupRefused(InvalidEmail) <==> !missing && !EmailPattern(email))
      && (r == SignupRefused(PasswordMismatch) <==> !missing && EmailPattern(email) && password != confirm)
      && (r.SignupSend? ==>
            r.body == SignupBody(email, password, TrimOr(inputs.birthday, ""), TrimOr(inputs.phone, ""),
                                 TrimOr(inputs.country, ""), TrimOr(inputs.firstName, ""),
                                 TrimOr(inputs.lastName, "")))
  {
    var email := TrimOr(inputs.email, "");
    var birthday := TrimOr(inputs.birthday, "");
    var phone := TrimOr(inputs.phone, "");
    var country := TrimOr(inputs.country, "");
    var password := OrElse(inputs.password, "");
    var confirm := OrElse(inputs.confirm, "");
    IsEmailMatchesPattern(email);
    if email == "" || birthday == "" || phone == "" || country == "" || password == "" || confirm == "" then
      SignupRefused(MissingFields)
    else if !IsEmail(email) then SignupRefused(InvalidEmail)
    else if password != confirm then SignupRefused(PasswordMismatch)
    else SignupSend(SignupBody(email, password, birthday, phone, country,
                               TrimOr(inputs.firstName, ""), TrimOr(inputs.lastName, "")))
  }

  /**
   * Submitting the sign-up form: after an accepted request only
   * `signupEmail` is written; otherwise the session is unchanged.
   */
  method SubmitSignup(session: Storage, inputs: SignupInputs, accepted: bool) returns (r: SignupOutcome)
    modifies session
    ensures r == SignupCheck(inputs)
    ensures r.SignupSend? && accepted ==> session.items == old(session.items)[SignupEmailKey := r.body.email]
    ensures !(r.SignupSend? && accepted) ==> session.items == old(session.items)
  {
    r := SignupCheck(inputs);
    if r.SignupSend? && accepted {
      session.SetItem(SignupEmailKey, r.body.email);
    }
  }

  // ---------------------------------------------------------------------------
  // recover-password.js
  // ---------------------------------------------------------------------------

  /** The e-mail the reset code is requested for: the trimmed input, or None when blank. */
  function RecoverEmail(input: Option<string>): (r: Option<string>)
    ensures r.None? <==> TrimOr(input, "") == ""
    ensures r.Some? ==> r.value == TrimOr(input, "") && Truthy(r)
  {
    var email := TrimOr(input, "");
    if email == "" then None else Some(email)
  }

  /** Requesting a reset code: an accepted request stores `resetEmail`. */
  method SubmitRecover(session: Storage, input: Option<string>, accepted: bool) returns (r: Option<string>)
    modifies session
    ensures r == RecoverEmail(input)
    ensures r.Some? && accepted ==> session.items == old(session.items)[ResetEmailKey := r.value]
    ensures !(r.Some? && accepted) ==> session.items == old(session.items)
  {
    r := RecoverEmail(input);
    if r.Some? && accepted {
      session.SetItem(ResetEmailKey, r.value);
    }
  }

  // ---------------------------------------------------------------------------
  // verify-code.js and verify-signup.js
  // ---------------------------------------------------------------------------

  /** The JSON body `{email, token}`. */
  datatype VerifyRequest = VerifyRequest(email: string, token: string)

  /**
   * The request both verification pages send: the trimmed code and the
   * e-mail kept in the session by the previous page; None (an error, no
   * request) when either is missing or empty.
   */
  function VerifyRequestFor(code: Option<string>, storedEmail: Option<string>): (r: Option<VerifyRequest>)
    ensures r.None? <==> TrimOr(code, "") == "" || !Truthy(storedEmail)
    ensures r.Some? ==> r.value == VerifyRequest(storedEmail.value, TrimOr(code, ""))
  {
    var token := TrimOr(code, "");
    if token == "" || !Truthy(storedEmail) then None
    else Some(VerifyRequest(storedEmail.value, token))
  }

  /** The server's answer: a failed response, or an OK one with the truthiness of `data.valid`. */
  datatype VerifyReply = VerifyFailed(reply: ErrorText.Reply) | VerifyOk(valid: bool)

  datatype VerifyOutcome =
    | MissingData
    | ServerError(detail: Option<string>)
    | CodeInvalid
    | CodeAccepted(request: VerifyRequest)

  /**
   * verify-code.js: missing data sends nothing; a failed response shows
   * its error text (None: `parseError` rejected); an OK answer accepts the
   * code only when `valid` is truthy.
   */
  function VerifyCodeOutcome(code: Option<string>, storedEmail: Option<string>, answer: VerifyReply): (r: VerifyOutcome)
    ensures r.MissingData? <==> VerifyRequestFor(code, storedEmail).None?
    ensures r.CodeAccepted? <==> VerifyRequestFor(code, storedEmail).Some? && answer == VerifyOk(true)
    ensures r.CodeAccepted? ==> r.request == VerifyRequestFor(code, storedEmail).value
    ensures r.ServerError? <==> VerifyRequestFor(code, storedEmail).Some? && answer.VerifyFailed?
    ensures r.ServerError? ==>
      answer.VerifyFailed? && r.detail == ErrorText.ParseError(ErrorText.VerifyCodePolicy, answer.reply)
    ensures r.CodeInvalid? <==> VerifyRequestFor(code, storedEmail).Some? && answer == VerifyOk(false)
  {
    var req := VerifyRequestFor(code, storedEmail);
    if req.None? then MissingData
    else match answer
      case VerifyFailed(reply) => ServerError(ErrorText.ParseError(ErrorText.VerifyCodePolicy, reply))
      case VerifyOk(valid) => if valid then CodeAccepted(req.value) else CodeInvalid
  }

  /** Submitting the code: only an accepted code is stored, under `resetToken`. */
  method SubmitVerifyCode(session: Storage, code: Option<string>, answer: VerifyReply) returns (r: VerifyOutcome)
    modifies session
    ensures r == VerifyCodeOutcome(code, old(session.GetItem(ResetEmailKey)), answer)
    ensures r.CodeAccepted? ==> session.items == old(session.items)[ResetTokenKey := r.request.token]
    ensures !r.CodeAccepted? ==> session.items == old(session.items)
  {
    r := VerifyCodeOutcome(code, session.GetItem(ResetEmailKey), answer);
    if r.CodeAccepted? {
      session.SetItem(ResetTokenKey, r.request.token);
    }
  }

  /**
   * verify-signup.js: the same request, built from `signupEmail`; any OK
   * answer completes the sign-up, and the session is never written.
   */
  function VerifySignupOutcome(code: Option<string>, session: map<string, string>, answer: VerifyReply): (r: VerifyOutcome)
    ensures r.MissingData? <==> VerifyRequestFor(code, Get(session, SignupEmailKey)).None?
    ensures r.CodeAccepted? <==> VerifyRequestFor(code, Get(session, SignupEmailKey)).Some? && answer.VerifyOk?
    ensures r.ServerError? ==>
      answer.VerifyFailed? && r.detail == ErrorText.ParseError(ErrorText.SignupPolicy, answer.reply)
    ensures !r.CodeInvalid?
  {
    var req := VerifyRequestFor(code, Get(session, SignupEmailKey));
    if req.None? then MissingData
    else match answer
      case VerifyFailed(reply) => ServerError(ErrorText.ParseError(ErrorText.SignupPolicy, reply))
      case VerifyOk(_) => CodeAccepted(req.value)
  }

  // ---------------------------------------------------------------------------
  // new-password.js
  // ---------------------------------------------------------------------------

  /** `(query || stored || "").trim()`: the query value wins when it is non-empty. */
  function ResetValue(query: Option<string>, stored: Option<string>): (r: string)
    ensures Truthy(query) ==> r == Trim(query.value)
    ensures !Truthy(query) && Truthy(stored) ==> r == Trim(stored.value)
    ensures !Truthy(query) && !Truthy(stored) ==> r == ""
  {
    TrimOr(Or(query, stored), "")
  }

  datatype ResetPair = ResetPair(email: string, token: string)

  /** `getEmailToken()`: the query parameters first, then `resetEmail`/`resetToken`. */
  function EmailToken(queryEmail: Option<string>, queryToken: Option<string>, session: map<string, string>): (r: ResetPair)
    ensures r.email == ResetValue(queryEmail, Get(session, ResetEmailKey))
    ensures r.token == ResetValue(queryToken, Get(session, ResetTokenKey))
  {
    ResetPair(ResetValue(queryEmail, Get(session, ResetEmailKey)), ResetValue(queryToken, Get(session, ResetTokenKey)))
  }

  /**
   * A query value made only of white space is truthy, so it hides the
   * stored value, and then trims to nothing.
   */
  lemma BlankQueryHidesStored(stored: string)
    ensures ResetValue(Some(" "), Some(stored)) == ""
  {
    TrimAllSpace(" ");
  }

  /** A value read once and stored reads back unchanged from storage alone. */
  lemma {:induction false} ResetValueReadsBack(query: Option<string>, stored: Option<string>)
    requires ResetValue(query, stored) != ""
    ensures ResetValue(None, Some(ResetValue(query, stored))) == ResetValue(query, stored)
  {
    var v := Or(query, stored);
    TrimIdempotent(v.value);
  }

  datatype ResetError = MissingPasswords | PasswordsDiffer | MissingEmailOrToken

  /** The JSON body sent to `/api/auth/password-reset-confirm/`. */
  datatype ResetRequest = ResetRequest(email: string, token: string, newPassword: string)

  datatype ResetOutcome = ResetRefused(error: ResetError) | ResetSend(request: ResetRequest)

  /**
   * The checks, in order: both passwords present (after trimming), equal,
   * then an e-mail and a token available.
   */
  function ResetCheck(newPassword: Option<string>, confirm: Option<string>, pair: ResetPair): (r: ResetOutcome)
    ensures var p, c := TrimOr(newPassword, ""), TrimOr(confirm, "");
      && (r == ResetRefused(MissingPasswords) <==> p == "" || c == "")
      && (r == ResetRefused(PasswordsDiffer) <==> p != "" && c != "" && p != c)
      && (r == ResetRefused(MissingEmailOrToken) <==>
            p != "" && p == c && (pair.email == "" || pair.token == ""))
      && (r.ResetSend? ==> r.request == ResetRequest(pair.email, pair.token, p))
  {
    var p, c := TrimOr(newPassword, ""), TrimOr(confirm, "");
    if p == "" || c == "" then ResetRefused(MissingPasswords)
    else if p != c then ResetRefused(PasswordsDiffer)
    else if pair.email == "" || pair.token == "" then ResetRefused(MissingEmailOrToken)
    else ResetSend(ResetRequest(pair.email, pair.token, p))
  }

  /**
   * Submitting the new password: after an accepted request `resetEmail`
   * and `resetToken` are removed; otherwise the session is unchanged.
   */
  method SubmitNewPassword(session: Storage, queryEmail: Option<string>, queryToken: Option<string>,
                           newPassword: Option<string>, confirm: Option<string>, accepted: bool)
    returns (r: ResetOutcome)
    modifies session
    ensures r == ResetCheck(newPassword, confirm, EmailToken(queryEmail, queryToken, old(session.items)))
    ensures r.ResetSend? && accepted ==> session.items == old(session.items) - {ResetEmailKey, ResetTokenKey}
    ensures !(r.ResetSend? && accepted) ==> session.items == old(session.items)
  {
    r := ResetCheck(newPassword, confirm, EmailToken(queryEmail, queryToken, session.items));
    if r.ResetSend? && accepted {
      session.RemoveItem(ResetEmailKey);
      session.RemoveItem(ResetTokenKey);
      RemoveBoth(old(session.items), ResetEmailKey, ResetTokenKey);
    }
  }

  lemma RemoveBoth(m: map<string, string>, a: string, b: string)
    ensures m - {a} - {b} == m - {a, b}
  {
  }

  /**
   * On load, the e-mail and the token found (query first, then session)
   * are each written back to the session when non-empty.
   */
  method PersistOnLoad(session: Storage, queryEmail: Option<string>, queryToken: Option<string>)
    returns (pair: ResetPair)
    modifies session
    ensures pair == EmailToken(queryEmail, queryToken, old(session.items))
    ensures var afterEmail := if pair.email != "" then old(session.items)[ResetEmailKey := pair.email] else old(session.items);
      session.items == if pair.token != "" then afterEmail[ResetTokenKey := pair.token] else afterEmail
    // A second load without query parameters finds the same non-empty values.
    ensures pair.email != "" ==> EmailToken(None, None, session.items).email == pair.email
    ensures pair.token != "" ==> EmailToken(None, None, session.items).token == pair.token
  {
    pair := EmailToken(queryEmail, queryToken, session.items);
    ghost var s0 := session.items;
    if pair.email != "" {
      session.SetItem(ResetEmailKey, pair.email);
      ResetValueReadsBack(queryEmail, Get(s0, ResetEmailKey));
    }
    ghost var s1 := session.items;
    if pair.token != "" {
      session.SetItem(ResetTokenKey, pair.token);
      ResetValueReadsBack(queryToken, Get(s0, ResetTokenKey));
    }
    ResetKeysDiffer();
    assert Get(session.items, ResetEmailKey) == Get(s1, ResetEmailKey);
    assert Get(s1, ResetTokenKey) == Get(s0, ResetTokenKey);
  }

  lemma ResetKeysDiffer()
    ensures ResetEmailKey != ResetTokenKey
  {
    assert ResetEmailKey[5] != ResetTokenKey[5];
  }
}
