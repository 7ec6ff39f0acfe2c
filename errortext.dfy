/**
 * The error-text helpers of the pages: every `parseError(resp)` copy, and the
 * error detail of the password-reset confirmation.
 *
 * All `parseError` copies share one shape and differ only in four choices,
 * gathered in `ErrorPolicy`:
 *   - the order in which they try the fields `detail`, `error` and `message`;
 *   - the length cap (500 or 400 characters);
 *   - whether the text path strips `<...>` tags;
 *   - whether the JSON path ends with an `HTTP <status>` fallback.
 */
module ErrorText {
  import opened Wrappers
  import opened JsStrings

  // ---------------------------------------------------------------------------
  // Responses
  // ---------------------------------------------------------------------------

  /**
   * A JSON error body that parsed to an object: its string fields `detail`,
   * `error` and `message` (None when absent), and its `JSON.stringify` text.
   */
  datatype JsonBody = JsonBody(
    detail: Option<string>,
    error: Option<string>,
    message: Option<string>,
    serialized: string)

  /**
   * A failed response as `parseError` sees it.
   *   - `contentType` is the `content-type` header (None when absent).
   *   - `json` is the parsed body when `resp.json()` yields an object, and
   *     None when it throws or yields `null`.
   *   - `text` is the raw body text.
   */
  datatype Reply = Reply(
    status: nat,
    contentType: Option<string>,
    json: Option<JsonBody>,
    text: string)

  const JsonMediaType := "application/json"

  /** `(resp.headers.get("content-type") || "").includes("application/json")`. */
  predicate DeclaresJson(reply: Reply) {
    Contains(reply.contentType.GetOr(""), JsonMediaType)
  }

  /** The JSON path returns: JSON is declared and the body is an object. */
  predicate JsonPathTaken(reply: Reply) {
    DeclaresJson(reply) && reply.json.Some?
  }

  /** The template `HTTP ${resp.status}`. */
  function HttpStatusText(status: nat): (r: string)
    ensures r != []
    ensures StartsWith(r, "HTTP ")
    ensures '<' !in r
  {
    "HTTP " + Decimal(status)
  }

  // ---------------------------------------------------------------------------
  // Policies
  // ---------------------------------------------------------------------------

  datatype Field = DetailField | ErrorField | MessageField

  function FieldOf(j: JsonBody, f: Field): Option<string> {
    match f
    case DetailField => j.detail
    case ErrorField => j.error
    case MessageField => j.message
  }

  datatype ErrorPolicy = ErrorPolicy(
    order: seq<Field>,
    cap: nat,
    stripTags: bool,
    jsonHttpFallback: bool)

  const DetailFirst: seq<Field> := [DetailField, ErrorField, MessageField]
  const ErrorFirst: seq<Field> := [ErrorField, DetailField, MessageField]

  /** profile.js: detail first, 500 characters, no stripping, HTTP fallback on both paths. */
  const ProfilePolicy := ErrorPolicy(DetailFirst, 500, false, true)
  /** newIncome.js, newSuppIncome.js, newExpense.js, newExtraExp.js. */
  const FormPolicy := ErrorPolicy(DetailFirst, 500, false, false)
  /** signup.js and verify-signup.js: error first, 400 characters, tags stripped. */
  const SignupPolicy := ErrorPolicy(ErrorFirst, 400, true, false)
  /** recover-password.js: detail first, 400 characters, tags stripped, HTTP fallback on both paths. */
  const RecoverPolicy := ErrorPolicy(DetailFirst, 400, true, true)
  /** verify-code.js: detail first, 400 characters, tags stripped. */
  const VerifyCodePolicy := ErrorPolicy(DetailFirst, 400, true, false)

  // ---------------------------------------------------------------------------
  // parseError
  // ---------------------------------------------------------------------------

  /** `j.f1 || j.f2 || ...` over the fields in `order`: the first truthy one. */
  function FirstField(j: JsonBody, order: seq<Field>): (r: Option<string>)
    ensures r.Some? ==> Truthy(r)
    ensures r.Some? ==>
      exists i :: 0 <= i < |order| && FieldOf(j, order[i]) == r
        && forall k :: 0 <= k < i ==> !Truthy(FieldOf(j, order[k]))
    ensures r.None? <==> forall k :: 0 <= k < |order| ==> !Truthy(FieldOf(j, order[k]))
  {
    if order == [] then None
    else if Truthy(FieldOf(j, order[0])) then FieldOf(j, order[0])
    else
      var r := FirstField(j, order[1..]);
      assert forall k :: 1 <= k < |order| ==> order[k] == order[1..][k - 1];
      r
  }

  /** The JSON path: first truthy field, else the capped serialization, else (some pages) `HTTP <status>`. */
  function JsonMessage(p: ErrorPolicy, j: JsonBody, status: nat): string {
    var f := FirstField(j, p.order);
    if f.Some? then f.value
    else
      var s := Slice(j.serialized, p.cap);
      if s != "" || !p.jsonHttpFallback then s else HttpStatusText(status)
  }

  /** The response text as the text path reads it: tag-stripped on the pages that strip tags. */
  function ReadableText(p: ErrorPolicy, reply: Reply): string {
    if p.stripTags then StripTags(reply.text) else reply.text
  }

  /** `r` is `t.slice(0, cap)`: the first `cap` characters of `t`, or all of `t` when it is shorter. */
  predicate IsCappedPrefix(r: string, t: string, cap: nat) {
    |r| == (if |t| <= cap then |t| else cap) && StartsWith(t, r)
  }

  /** The text path: the (tag-stripped) text capped at `cap`, else `HTTP <status>`. */
  function TextMessage(p: ErrorPolicy, reply: Reply): string {
    var t := ReadableText(p, reply);
    var s := Slice(t, p.cap);
    if s != "" then s else HttpStatusText(reply.status)
  }

  /**
   * `parseError` as written.  When JSON is declared, `resp.json()` consumes
   * the body; if it then throws, or yields `null` (so that `j.detail`
   * throws), the code goes on to `resp.text()` on a body that has already
   * been read, and the returned promise rejects: None.
   */
  function ParseError(p: ErrorPolicy, reply: Reply): (r: Option<string>)
    ensures r.None? <==> DeclaresJson(reply) && reply.json.None?
    ensures r.Some? ==> r.value == ParseErrorIntended(p, reply)
  {
    if !DeclaresJson(reply) then Some(TextMessage(p, reply))
    else if reply.json.Some? then Some(JsonMessage(p, reply.json.value, reply.status))
    else None
  }

  /**
   * `parseError` as its `try`/`catch` intends it: a JSON body that cannot be
   * used falls through to the response text.
   */
  function ParseErrorIntended(p: ErrorPolicy, reply: Reply): (r: string)
    // JSON path: the first truthy field in the policy's order wins ...
    ensures JsonPathTaken(reply) && FirstField(reply.json.value, p.order).Some? ==>
      r == FirstField(reply.json.value, p.order).value
    // ... else the serialization cut to `cap` characters ...
    ensures JsonPathTaken(reply) && FirstField(reply.json.value, p.order).None?
            && reply.json.value.serialized != "" && p.cap > 0 ==>
      IsCappedPrefix(r, reply.json.value.serialized, p.cap) && r != ""
    // ... and when that cut is empty, `HTTP <status>` on the pages with the
    // JSON fallback and the empty string on the others.
    ensures JsonPathTaken(reply) && FirstField(reply.json.value, p.order).None?
            && (reply.json.value.serialized == "" || p.cap == 0) ==>
      r == (if p.jsonHttpFallback then HttpStatusText(reply.status) else "")
    ensures r == "" ==>
      JsonPathTaken(reply) && !p.jsonHttpFallback
      && (reply.json.value.serialized == "" || p.cap == 0)
    // Text path: the (stripped) text cut to `cap` characters, or
    // `HTTP <status>` exactly when that cut is empty.
    ensures !JsonPathTaken(reply) && ReadableText(p, reply) != "" && p.cap > 0 ==>
      IsCappedPrefix(r, ReadableText(p, reply), p.cap) && r != ""
    ensures !JsonPathTaken(reply) && (ReadableText(p, reply) == "" || p.cap == 0) ==>
      r == HttpStatusText(reply.status)
    ensures !JsonPathTaken(reply) && p.stripTags ==> NoTags(r)
  {
    if JsonPathTaken(reply) then
      var j := reply.json.value;
      var s := Slice(j.serialized, p.cap);
      assert s != "" <== j.serialized != "" && p.cap > 0;
      JsonMessage(p, j, reply.status)
    else
      TextMessageFacts(p, reply);
      TextMessage(p, reply)
  }

  /** The text path keeps no tag when it strips them. */
  lemma TextMessageFacts(p: ErrorPolicy, reply: Reply)
    ensures p.stripTags ==> NoTags(TextMessage(p, reply))
  {
    if p.stripTags {
      var t := StripTags(reply.text);
      StripTagsLeavesNoTags(reply.text);
      NoTagsPrefix(t, |Slice(t, p.cap)|);
      NoAngleNoTags(HttpStatusText(reply.status));
    }
  }

  /** A string without `<` contains no tag. */
  lemma NoAngleNoTags(s: string)
    requires '<' !in s
    ensures NoTags(s)
  {
    forall i | 0 <= i < |s|
      ensures !IsTagStart(s[i..])
    {
      assert s[i..][0] == s[i];
    }
  }

  /**
   * A JSON error body with a truthy `detail` and a different truthy `error`
   * is reported differently by signup.js/verify-signup.js (error first) and
   * by verify-code.js (detail first).
   */
  lemma {:induction false} FieldOrderDecides(reply: Reply)
    requires JsonPathTaken(reply)
    requires Truthy(reply.json.value.detail) && Truthy(reply.json.value.error)
    ensures ParseErrorIntended(SignupPolicy, reply) == reply.json.value.error.value
    ensures ParseErrorIntended(VerifyCodePolicy, reply) == reply.json.value.detail.value
  {
    var j := reply.json.value;
    assert FirstField(j, ErrorFirst) == j.error;
    assert FirstField(j, DetailFirst) == j.detail;
  }

  /**
   * The `HTTP <status>` fallback that profile.js adds to the JSON path is
   * reached only for an empty serialization, which `JSON.stringify` never
   * gives for an object: with any other body, profile.js and the form pages
   * report the same text.
   */
  lemma {:induction false} JsonFallbackOnlyForEmptySerialization(reply: Reply)
    requires reply.json.Some? ==> reply.json.value.serialized != ""
    ensures ParseErrorIntended(ProfilePolicy, reply) == ParseErrorIntended(FormPolicy, reply)
  {
    if JsonPathTaken(reply) {
      var j := reply.json.value;
      assert Slice(j.serialized, 500) != "";
    }
  }

  /**
   * On the pages that end the JSON path with `HTTP <status>`, and on every
   * page when the text path is taken, the message is never empty.
   */
  lemma ParseErrorNeverEmpty(p: ErrorPolicy, reply: Reply)
    requires p.jsonHttpFallback || !JsonPathTaken(reply)
    ensures ParseErrorIntended(p, reply) != ""
  {
  }

  /**
   * A JSON-declared body that does not parse makes the as-written
   * `parseError` reject, while the intended one reports the text.
   */
  lemma UnparsableJsonRejects(text: string)
    requires text != ""
    ensures ParseError(FormPolicy, Reply(500, Some(JsonMediaType), None, text)).None?
    ensures ParseErrorIntended(FormPolicy, Reply(500, Some(JsonMediaType), None, text)) != ""
  {
    assert StartsWith(JsonMediaType, JsonMediaType);
  }

  // ---------------------------------------------------------------------------
  // new-password.js error detail
  // ---------------------------------------------------------------------------

  const ResetDefaultError := "Error cambiando la contrasena"
  const ResetCap := 300

  /** The payload new-password.js keeps: the parsed body when JSON is declared and parses. */
  function ResetPayload(reply: Reply): (r: Option<JsonBody>)
    ensures r.Some? <==> JsonPathTaken(reply)
  {
    if DeclaresJson(reply) then reply.json else None
  }

  /**
   * The detail shown after `Error: ` when the reset fails, as written:
   * `payload.detail || payload.error || payload.message`, else the response
   * text capped at 300, else a fixed message.  Reading the text after
   * `resp.json()` was called rejects (the body was already read), so then
   * the outer handler takes over: None.
   */
  function ResetErrorDetail(reply: Reply): (r: Option<string>)
    ensures r.None? <==>
      DeclaresJson(reply) && (ResetPayload(reply).None? || FirstField(ResetPayload(reply).value, DetailFirst).None?)
    ensures r.Some? ==> r.value == ResetErrorDetailIntended(reply)
  {
    var payload := ResetPayload(reply);
    if payload.Some? && FirstField(payload.value, DetailFirst).Some? then
      FirstField(payload.value, DetailFirst)
    else if DeclaresJson(reply) then None
    else Some(OrElse(Some(Slice(reply.text, ResetCap)), ResetDefaultError))
  }

  /** The reset detail when the text stays readable: the same chain, never empty. */
  function ResetErrorDetailIntended(reply: Reply): (r: string)
    ensures r != ""
    ensures JsonPathTaken(reply) && FirstField(reply.json.value, DetailFirst).Some? ==>
      r == FirstField(reply.json.value, DetailFirst).value
    ensures !(JsonPathTaken(reply) && FirstField(reply.json.value, DetailFirst).Some?) ==>
      (reply.text == "" ==> r == ResetDefaultError)
      && (reply.text != "" ==> IsCappedPrefix(r, reply.text, ResetCap))
  {
    var payload := ResetPayload(reply);
    if payload.Some? && FirstField(payload.value, DetailFirst).Some? then
      FirstField(payload.value, DetailFirst).value
    else
      var s := Slice(reply.text, ResetCap);
      assert reply.text != "" ==> s != "";
      OrElse(Some(s), ResetDefaultError)
  }
}
