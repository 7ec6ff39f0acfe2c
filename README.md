# finanzas-front: a verified model of the browser pages

finanzas-front is the browser front end of a personal-finance application. A
set of static HTML pages talk to a Django REST backend through `fetch`. This
project models the JavaScript behind those pages in Dafny and proves
properties of the model. It covers:

- **config.js**: the shared API configuration. It picks the API base (query
  `?api=`, then the stored `apiBaseOverride`, then a default chosen from the
  hostname) and normalises it (trim, add `https://`, drop trailing slashes).
  It also builds API URLs and assembles the request of the `apiFetch` wrapper
  (headers, bearer token, body and method).
- **index.js**: the login page. It tries three login endpoints in order,
  normalises the token reply of each kind of backend and saves the session.
- **The table and history pages** (income.js, expenses.js, logIncome.js,
  logPayment.js, home.js, wallet.js). These cover:
  - the session-token guard and the page's API base;
  - `resolveImageUrl` and the cache-busting `?t=` / `&t=` suffix;
  - `authFetch`, which clears the session on 401;
  - `discoverOnce`, which probes candidate endpoints and caches the first
    that answers OK;
  - filter options (distinct truthy values) and the table filters;
  - the payment-history loop with its sorted date options;
  - tab switching and the header display name.
- **The record forms** (newIncome.js, newSuppIncome.js, newExpense.js,
  newExtraExp.js):
  - the trimmed payload with its defaults;
  - validation in the source's order;
  - POST to the collection or PUT to the record, and DELETE after
    confirmation;
  - edit-mode prefilling;
  - the "convert to fixed income" box of the supplementary-income form,
    which only stores the payload in `localStorage` under
    `convertToFixedIncome` and sends no request (no page reads that key
    back);
  - the payment POST of the log pages.
- **The account pages** (signup.js, verify-signup.js, recover-password.js,
  verify-code.js, new-password.js): the email test, field checks, the
  verification requests, and how e-mail and reset token are carried in
  `sessionStorage` between pages.
- **profile.js and the avatars**:
  - the per-user image cache in `localStorage` (`profileImage:<id>`);
  - how the avatar falls back from the direct URL to a blob and then to the
    cache;
  - the edit/cancel cycle, which snapshots and restores the form inputs;
  - the admin flag and logout of home.js.
- **The `parseError` helpers** that each form page carries. They differ in
  field order, length cap, tag stripping and the `HTTP <status>` fallback.

Modules, one file each:

- `Wrappers` (wrappers.dfy): `Option`.
- `JsStrings` (jsstrings.dfy): the JavaScript string operations the pages rely
  on:
  - truthiness and `||`;
  - `trim` over the ECMAScript white-space set;
  - `startsWith`, `endsWith` and `includes`;
  - the `https?://` test and trailing-slash strip;
  - `slice`, the `<[^>]+>` strip and decimal rendering.
- `WebStorage` (webstorage.dfy): a class for `localStorage` and
  `sessionStorage`.
- `Config` (config.dfy), `Login` (login.dfy), `PageFetch` (pagefetch.dfy),
  `Listings` (listings.dfy), `ErrorText` (errortext.dfy), `Forms` (forms.dfy),
  `AuthPages` (authpages.dfy) and `Profile` (profile.dfy): the pages listed
  above.

Parts of a page that change state in place are classes:

- `Config.ApiConfig`: the mutable `API_BASE` plus the override store.
- `Listings.PaymentLog`: `allPagos` and the date options.
- `Listings.TablePage`: the state of the income and expense table pages.
- `Profile.ProfilePage`.

Steps that run in sequence are methods with loops:

- the login endpoint loop;
- `discoverOnce`;
- the payment-history loop;
- the profile edit and cancel loops.

Pure decisions are functions, and the properties are lemmas or the methods'
own postconditions.

The network, the clock and the browser's parsers enter as parameters:

- each fetch is replaced by the reply it produced (status, content type,
  parsed JSON or nothing, text);
- `Date.now()` is a `nat`;
- `isNaN(Number(x))` is a predicate argument;
- `JSON.stringify` of a payload is a function argument;
- a blob URL is an `Option<string>`.

## Model

| member | source | states |
|---|---|---|
| JsStrings.Or | js/income.js:96 | `a \|\| b` yields `a` when it is a non-empty string and `b` otherwise |
| JsStrings.OrElse | js/profile.js:165 | `a \|\| "default"`: the value when truthy, else the default |
| JsStrings.Trim | js/index.js:94-95 | the result is `s` with white space removed from both ends only: a middle slice whose cut-off ends are all white space, and which neither starts nor ends with white space |
| JsStrings.TrimOfTrimmed | js/config.js:35 | trimming a string that has no white space at either end returns it unchanged |
| JsStrings.TrimAllSpace | js/config.js:35-36 | a string made only of white space trims to the empty string |
| JsStrings.TrimOr | js/newIncome.js:132-137 | `(v \|\| d).trim()`: trims the value when truthy, else trims the default |
| JsStrings.TrimIdempotent | js/config.js:35 | trimming twice equals trimming once |
| JsStrings.EndsWithAppend | js/index.js:53 | whether `a + b` ends with `p` depends only on `b` when `p` fits inside `b` |
| JsStrings.HasHttpSchemeAppend | js/config.js:69-70 | appending to a URL with an `http(s)://` scheme keeps the scheme |
| JsStrings.StripTrailingSlashes | js/config.js:38 | the result is a prefix of `s`, only slashes were cut, and it does not end in `/` |
| JsStrings.Slice | js/profile.js:137 | `slice(0, n)`: the prefix of length `min(n, \|s\|)` |
| JsStrings.IndexOf | js/signup.js:20-22 | the first index of `c`, or the length when absent; no earlier position holds `c` |
| JsStrings.TagLength | js/recover-password.js:80 | a tag start `<x…>` closes at the first `>` after at least one character |
| JsStrings.StripTags | js/recover-password.js:80 | removing `<[^>]+>` never lengthens the text |
| JsStrings.StripTagsChars | js/recover-password.js:80 | stripping tags introduces no character absent from the input |
| JsStrings.IndexOfAppend | js/signup.js:20-22 | a character found in `s` is found at the same place in `s + t` |
| JsStrings.StripTagsLeavesNoTags | js/recover-password.js:80 | after the strip no `<[^>]+>` match is left |
| JsStrings.StripTagsKeepsTagFree | js/recover-password.js:80 | text without tags is left unchanged |
| JsStrings.StripTagsIdempotent | js/recover-password.js:80 | stripping twice equals stripping once |
| JsStrings.NoTagsPrefix | js/recover-password.js:80 | every prefix of tag-free text is tag-free, so `slice` after the strip stays tag-free |
| JsStrings.DigitChar | js/profile.js:43 | a digit below ten renders as a character `0`-`9` |
| JsStrings.Decimal | js/profile.js:43 | the decimal rendering of a number is non-empty, all digits, with no leading zero |
| JsStrings.DecimalRoundTrip | js/profile.js:43 | reading the decimal rendering back gives the number |
| WebStorage.Storage.GetItem | js/config.js:26 | `getItem` returns the stored value, or null when the key is absent |
| WebStorage.Storage.SetItem | js/config.js:51 | `setItem` overwrites one key and keeps all others |
| WebStorage.Storage.RemoveItem | js/config.js:59 | `removeItem` deletes one key and keeps all others |
| WebStorage.Storage.Clear | js/logIncome.js:72 | `clear` empties the store |
| Config.DefaultBase | js/config.js:15-19 | the local dev API exactly on localhost, `127.0.0.1` or a `.local` host, the Render API otherwise |
| Config.WithScheme | js/config.js:37 | keeps a URL that has an `http(s)://` scheme (any case), otherwise prefixes `https://`; the result always has the scheme |
| Config.SameIgnoringCaseColon | js/config.js:37 | the scheme test's `:` matches only `:` itself |
| Config.StripKeepsSchemeName | js/config.js:37-38 | dropping trailing slashes from a URL with a scheme keeps an `http:`/`https:` prefix |
| Config.Normalize | js/config.js:33-39 | null exactly for a missing or blank input; otherwise the trimmed input with a scheme and no trailing slash, starting with `http:` or `https:` |
| Config.StartsWithIgnoringCase | js/config.js:37 | a literal prefix is also a case-insensitive prefix |
| Config.NormalizeFixedPoint | js/config.js:33-39 | a trimmed URL with a scheme and no trailing slash is left unchanged |
| Config.DefaultBaseNormalized | js/config.js:42 | normalising the default base returns it unchanged |
| Config.DefaultBaseIsNormalized | js/config.js:19 | the default base has the normalised form |
| Config.NormalizeBareScheme | js/config.js:33-39 | normalise is not idempotent: `http://` becomes `http:`, which normalises again to `https://http:` |
| Config.InitialBase | js/config.js:41-42 | the normalised query value, else the normalised stored override, else the default base; always normalised |
| Config.ApiUrlFrom | js/config.js:67-71 | no path gives the base; an absolute URL passes through; otherwise base + path with exactly one leading `/` added when missing |
| Config.ApiUrlIdempotent | js/config.js:67-71 | over a base with a scheme the URL has a scheme, and feeding the result back gives the same URL |
| Config.StoredToken | js/config.js:94-105 | the `access` entry when non-empty, else the `token` entry when non-empty, else none |
| Config.RequestHeaders | js/config.js:87-110 | caller headers are kept; Content-Type is added exactly when `json` is set and the caller gave none; Authorization `Bearer <token>` exactly when `auth` is set, a token is stored and the caller gave none; nothing else is added |
| Config.SentBody | js/config.js:123-127 | no body stays absent; an object under `json` is sent as its JSON text; any other body is passed on unchanged |
| Config.MethodAsWritten | js/config.js:114-124 | the method as the code computes it: GET unless the caller named one; an empty method becomes POST only with a body and stays empty without one |
| Config.MethodIntended | js/config.js:123-124 | the method the comment promises: the caller's, else POST when there is a body, else GET |
| Config.BuildFetchInitAsWritten | js/config.js:78-128 | the request as written: URL from `apiUrl`, mode `cors` and credentials `omit` unless overridden, the headers and body above, method from MethodAsWritten, and every other field the caller passed handed on unchanged |
| Config.BodyWithoutMethodStaysGet | js/config.js:114-124 | as written, a request with a body and no method is sent as GET with that body |
| Config.BuildFetchInit | js/config.js:78-128 | the corrected request: a body with no method is sent as POST; every other field equals the as-written request |
| Config.FetchMethodCorrectionOnlyThere | js/config.js:114-124 | the correction changes nothing when a method is given or there is no body |
| Config.ApiConfig.constructor | js/config.js:41-45 | the page starts with the base chosen by InitialBase from the query, the stored override and the hostname |
| Config.ApiConfig.SetApiBase | js/config.js:48-55 | a usable URL is stored normalised and becomes the base; a missing or blank one changes nothing |
| Config.ApiConfig.ClearApiBaseOverride | js/config.js:57-63 | removes only the override key and resets the base to the default |
| Config.ApiConfig.ApiUrl | js/config.js:67-71 | `apiUrl` against the current base: the base for no path, an absolute URL unchanged, otherwise the path joined to the base by exactly one `/` |
| Config.ApiConfig.RequestInitAsWritten | js/config.js:78-132 | the request `apiFetch` hands to `fetch`: `apiUrl` of the current base, the method as written (`GET` when none), mode and credentials with their defaults, headers from the stored token, the serialised body, and the caller's other fields unchanged |
| Config.ApiConfig.RequestInit | js/config.js:78-132 | the request `apiFetch` would send with the method corrected (the corrected half of the config.js:114-128 finding): the same request with only the method changed, to `POST` for a body sent without one |
| Login.LoginEndpoints | js/index.js:15-19 | the three candidates in order: `/api/auth/login/`, `/api/users/login/`, `/api/token/` |
| Login.LoginBodyFor | js/index.js:50-55 | the body carries `username` exactly for URLs ending in `/api/token/`, `email` otherwise, always with the password |
| Login.LoginBodiesOfEndpoints | js/index.js:48-55 | the first two endpoints get an email body and SimpleJWT gets a username body |
| Login.NormalizeTokenResponse | js/index.js:31-44 | `access`, then `token`, then `key` become the access token with `refresh` kept; with none of them, a pair (falsy access, the refresh) comes back exactly for a `/api/token/` reply with a refresh, and nothing otherwise; a null body gives nothing |
| Login.UsableTokenIff | js/index.js:70-71 | a reply carries a usable token exactly when one of `access`, `token` or `key` is non-empty |
| Login.Decide | js/index.js:64-86 | an attempt stops with success exactly on a 2xx reply with a usable token, and stops with the server's `detail` exactly on a non-2xx, non-404 reply that has one; every other case moves on |
| Login.TriedInOrder | js/index.js:47-90 | the requests sent are a prefix of the endpoints, each with its own body; every one but the last was indecisive; the last decisive one gives the result; with none decisive every endpoint was tried and the result is the fixed failure |
| Login.TryLogin | js/index.js:47-90 | the loop tries endpoints in order with their bodies and stops at the first decisive reply; otherwise it fails with the fixed message; a success always has a non-empty access token |
| Login.ResultMessage | js/index.js:116-119 | success shows the redirect message; failure shows `❌ ` plus the error, or the default text when the error is empty |
| Login.SessionAfterLogin | js/index.js:110-114 | stores the access token, username, endpoint and API base; stores refresh only when present; leaves every other key alone |
| Login.Submit | js/index.js:92-124 | blank trimmed credentials stop before any request and keep the session; otherwise the three endpoints of the base are tried in order with the trimmed credentials, as TriedInOrder says; only success changes the session, as SessionAfterLogin says |
| PageFetch.PageApiBase | js/logIncome.js:17-19 | `window.API_BASE` when it is a non-empty string, else the page origin |
| PageFetch.SessionToken | js/logIncome.js:13-14 | the page proceeds exactly when a non-empty `authToken` is in the session |
| PageFetch.ResolveImageUrl | js/logIncome.js:53-60 | none for a missing or blank value; an absolute URL passes through trimmed; a relative one is joined to the base with one `/` |
| PageFetch.ResolveImageUrlIsApiUrl | js/logIncome.js:53-60 | resolving an image URL is `apiUrl` applied to the trimmed value |
| PageFetch.CacheBust | js/income.js:114 | appends `?t=<now>`, or `&t=<now>` when the URL already has a query |
| PageFetch.CacheBustNewQuery | js/logPayment.js:145 | always appends `?t=<now>` |
| PageFetch.CacheBustFormsAgreeIff | js/logPayment.js:145 | the two cache-busting forms agree exactly when the URL has no `?` |
| PageFetch.CacheBustNewQueryDoublesMark | js/logPayment.js:145 | on a URL with a query, the `?t=` form leaves two `?` in the URL |
| PageFetch.AuthHeaders | js/logIncome.js:62-70 | JSON content type and `Bearer <token>` unless the caller overrides them; caller headers win; no other keys |
| PageFetch.AuthFetch | js/logIncome.js:62-77 | a 401 clears the whole session and reports unauthorised; any other status is returned with the session untouched |
| PageFetch.SessionAfterProbes | js/logIncome.js:79-89 | the session is empty after the probes when one of them got a 401, and unchanged otherwise |
| PageFetch.DiscoverOnce | js/logIncome.js:79-89 | a cached URL is returned without probing; otherwise candidates are probed in order up to the first OK, which is cached and returned; with none OK the first candidate is returned; without a 401 no other session key changes |
| PageFetch.DiscoveryKeepsOtherKeys | js/logIncome.js:79-89 | probes without a 401 and caching under one key leave every other session key as it was |
| PageFetch.MeCandidates | js/income.js:79-88 | four `me` candidates, the first `/api/auth/me/` |
| PageFetch.FixedExpenseCandidates | js/expenses.js:95-103 | three fixed-expense candidates, the first `/api/EgresosFijos/` |
| PageFetch.ExtraExpenseCandidates | js/expenses.js:105-113 | three extra-expense candidates, the first `/api/EgresosExtra/` |
| PageFetch.CandidatesDistinct | js/expenses.js:95-113 | the candidates of each list are pairwise different |
| PageFetch.DiscoveryKeysDistinct | js/expenses.js:80-106 | the `me`, fixed-expense and extra-expense discoveries cache under three different session keys |
| PageFetch.MeDiscoveryKeepsListCaches | js/expenses.js:80-112 | the `me` discovery without a 401 leaves the cached fixed-expense and extra-expense URLs as they were |
| PageFetch.DiscoverFallbackIsPrimaryRoute | js/income.js:75-76 | when no probe answers OK, the route the page falls back to is the primary one |
| PageFetch.DisplayName | js/profile.js:165 | `first_name`, else `email`, else `Usuario`; never empty |
| Listings.Filter | js/income.js:218-220 | `Array.filter` keeps, in order, exactly the elements that pass, with their multiplicities |
| Listings.FilterKeepsAll | js/income.js:218-220 | when every element passes, the filter returns the list unchanged |
| Listings.FirstIndex | js/logPayment.js:187 | the first position of a value |
| Listings.FirstIndexInPrefix | js/logPayment.js:187 | the first position of a value seen in a prefix is the same in the whole list |
| Listings.Distinct | js/logPayment.js:187 | `[...new Set(xs)]`: the same values, each once, in order of first appearance |
| Listings.TruthyValues | js/income.js:185 | `.filter(Boolean)` keeps exactly the non-empty values, each as often as it occurs |
| Listings.TruthyValuesInOrder | js/income.js:185 | `.filter(Boolean)` keeps the kept values in their order |
| Listings.TruthyValuesKeepOrder | js/income.js:185 | a value first met before another after filtering was first met before it in the input |
| Listings.TruthyOptions | js/income.js:185-186 | filter options are exactly the distinct non-empty values, ordered by their first occurrence in the input |
| Listings.FalsyNameOnlyInUnfilteredOptions | js/logPayment.js:187 | without `filter(Boolean)` an empty or missing name becomes an option; with it, never |
| Listings.BelowIrreflexive | js/logIncome.js:258 | the string order used by `sort()` is irreflexive |
| Listings.BelowTransitive | js/logIncome.js:258 | the string order is transitive |
| Listings.BelowTotal | js/logIncome.js:258 | any two different strings are ordered one way |
| Listings.Insert | js/logIncome.js:258 | inserting into a strictly sorted list keeps it strictly sorted and adds exactly that value |
| Listings.SortStrings | js/logIncome.js:258 | `Array.from(set).sort()`: strictly ascending and holding exactly the values of the input |
| Listings.SortedUnique | js/logIncome.js:258 | two strictly sorted lists with the same values are equal |
| Listings.HeadIsLeast | js/logIncome.js:258 | the head of a strictly sorted list is below every other element |
| Listings.TailMembership | js/logIncome.js:258 | the tail of a strictly sorted list holds exactly the elements other than the head |
| Listings.SortStringsBySet | js/logIncome.js:258 | the sorted options depend only on the set of values, not their order or repetition |
| Listings.FilterFixed | js/income.js:218-220 | keeps exactly the fixed items matching the name filter and the period filter, where an empty filter matches all |
| Listings.FilterExtra | js/income.js:229-231 | keeps exactly the extra items matching the name filter and the date filter |
| Listings.SearchHistory | js/logIncome.js:283-289 | keeps exactly the history rows matching the name filter and the date filter |
| Listings.SearchWithoutFilters | js/logIncome.js:283-289 | searching with both filters empty shows every row |
| Listings.FixedNames | js/income.js:185 | the names of the fixed items, position by position |
| Listings.FixedPeriods | js/income.js:186 | the periods of the fixed items, position by position |
| Listings.ExtraNames | js/income.js:200 | the names of the extra items, position by position |
| Listings.ExtraDates | js/income.js:201 | the dates of the extra items, position by position |
| Listings.NameOptionFindsItem | js/income.js:214-222 | choosing any offered name option finds at least one fixed item |
| Listings.DateOptionFindsItem | js/income.js:225-233 | choosing any offered date option finds at least one extra item |
| Listings.RowsOf | js/logIncome.js:245-248 | each payment of an item becomes one row carrying the item's name, amount and date |
| Listings.HistoryRows | js/logPayment.js:283-302 | every payment of every item whose request succeeded is in the history under the item's name, and every row comes from such a payment |
| Listings.RowDates | js/logIncome.js:247 | the dates of the rows, position by position |
| Listings.PaymentLog.constructor | js/logIncome.js:232-236 | the log starts empty |
| Listings.PaymentLog.LoadHistory | js/logIncome.js:240-263 | after the loop the history is HistoryRows of the replies and the date options are its sorted distinct dates; a 401 on any item clears the session |
| Listings.PaymentLog.AppendPayments | js/logIncome.js:245-248 | appends one row per payment and adds their dates to the date set |
| Listings.RowDatesAppend | js/logIncome.js:245-248 | the dates of two joined row lists are the joined dates |
| Listings.HistoryRowsStep | js/logIncome.js:240-253 | one more loop iteration appends that item's rows, or nothing when its request failed |
| Listings.AnyUnauthorizedStep | js/logIncome.js:240-253 | one more iteration meets a 401 exactly when an earlier one did or this one does |
| Listings.DateOptionsSortedAndComplete | js/logIncome.js:256-263 | the date options are strictly sorted, contain every row's date and contain nothing else |
| Listings.TablePage.constructor | js/income.js:126 | the page starts on the `fix` tab with empty tables and filters |
| Listings.TablePage.FillFixFilters | js/income.js:180-193 | the fixed filters become the distinct non-empty names and periods; nothing else changes |
| Listings.TablePage.FillExtraFilters | js/income.js:195-208 | the extra filters become the distinct non-empty names and dates; nothing else changes |
| Listings.TablePage.Load | js/income.js:128-148 | an OK fixed reply replaces the fixed table (and its filters when the `fix` tab is shown); the extra list is fetched only if the first fetch did not throw, and its OK reply replaces the extra table; a 401 clears the session |
| Listings.TablePage.SwitchTab | js/expenses.js:255-270 | the tab always changes; the filters of the chosen tab are refilled, except on expenses when a view is missing |
| ErrorText.HttpStatusText | js/profile.js:138 | `HTTP <status>`: non-empty and without `<` |
| ErrorText.FirstField | js/profile.js:133-137 | the first truthy field in the page's order, or none exactly when all are empty |
| ErrorText.ParseError | js/profile.js:128-142 | the helper as written: it fails (the promise rejects) exactly when JSON is declared but the body does not parse; otherwise it agrees with ParseErrorIntended |
| ErrorText.ParseErrorIntended | js/profile.js:128-142 | a JSON reply gives the first truthy field, else the serialisation cut to exactly `min(cap, length)` characters, and when that cut is empty `HTTP <status>` where the page has that fallback and the empty string elsewhere; any other reply gives its text (tags stripped where the page strips them) cut to exactly `min(cap, length)` characters, or `HTTP <status>` exactly when that cut is empty |
| ErrorText.TextMessageFacts | js/recover-password.js:80 | the text branch leaves no tags on pages that strip them |
| ErrorText.NoAngleNoTags | js/recover-password.js:74-80 | text without `<` contains no tag |
| ErrorText.FieldOrderDecides | js/signup.js:80-90 | with both `detail` and `error` present, signup shows `error` while verify-code shows `detail` |
| ErrorText.JsonFallbackOnlyForEmptySerialization | js/profile.js:137-138 | profile's `HTTP <status>` fallback on JSON replies only matters for an empty serialisation |
| ErrorText.ParseErrorNeverEmpty | js/profile.js:128-142 | where the page falls back to `HTTP <status>`, the message is never empty |
| ErrorText.UnparsableJsonRejects | js/newIncome.js:45-55 | a reply labelled JSON whose body is not JSON makes the as-written helper reject, while the intended one yields a message |
| ErrorText.ResetPayload | js/new-password.js:78-84 | a parsed payload exists exactly when the reply is JSON and parses |
| ErrorText.ResetErrorDetail | js/new-password.js:78-100 | as written, reading the text after a failed JSON read rejects; otherwise it agrees with ResetErrorDetailIntended |
| ErrorText.ResetErrorDetailIntended | js/new-password.js:97-100 | `detail`, `error` or `message` of the payload, else the text cut to exactly `min(300, length)` characters, else (empty text) the fixed message; never empty |
| Forms.CollectionOf | js/newIncome.js:144 | each page's collection name is non-empty and has no `/` |
| Forms.DefaultsTrimmed | js/newIncome.js:135 | the default period and the empty default are already trimmed |
| Forms.PayloadOf | js/newIncome.js:132-137 | name, reason and amount are the trimmed inputs; the last field is the trimmed input, else `mensual` on fixed pages, `""` on the supplementary page and today's date on the extra-expense page |
| Forms.Validate | js/newIncome.js:140-142 | name is checked first, then the amount must be numeric, then the period or date, except on the expense page, which does not check it |
| Forms.BlankPeriodOnlyRefusedForIncome | js/newExpense.js:140-141 | a blank period is refused on the fixed-income page but accepted on the fixed-expense page |
| Forms.BlankPeriodValidation | js/newIncome.js:140-142 | on a fixed page with a valid name and amount, a blank period is refused exactly where the page checks it |
| Forms.BlankPeriodPayload | js/newIncome.js:135 | a period of only white space becomes an empty period |
| Forms.BlankTrim | js/newIncome.js:135 | a single space trims to empty |
| Forms.CollectionUrl | js/newIncome.js:144-145 | the collection URL is base + `/api/<collection>/` |
| Forms.SaveRequestFor | js/newIncome.js:144-145 | PUT to `<collection>/<id>/` exactly when an id is present, POST to the collection otherwise |
| Forms.DeleteRequest | js/newIncome.js:100-114 | a DELETE to the record URL is sent exactly when the user confirms |
| Forms.RecordUrlsDistinct | js/newIncome.js:144-145 | different record ids give different record URLs |
| Forms.DifferingIndex | js/newIncome.js:144-145 | two different ids without `/` differ at some position once the `/` is appended |
| Forms.PlanSubmit | js/newSuppIncome.js:174-205 | an invalid payload sends nothing; with the convert box checked the payload is only stored under `convertToFixedIncome` and no request is sent; otherwise the save request of SaveRequestFor is sent |
| Forms.Submit | js/newSuppIncome.js:187-205 | follows PlanSubmit and writes `localStorage` only when the convert box is checked, the payload under `convertToFixedIncome` and nothing else |
| Forms.Prefill | js/newIncome.js:86-94 | edit mode copies the record into the inputs, with missing fields as `""` and a missing period or date as the page default |
| Forms.PrefillRoundTrip | js/newIncome.js:78-137 | saving an unchanged prefilled form sends back the record's own trimmed values |
| Forms.DateOnLoad | js/newSuppIncome.js:42-43 | dated pages start on today's date unless they are editing a record |
| Forms.FixedPageOf | js/logIncome.js:186 | each log page posts payments to a fixed collection |
| Forms.PaymentSave | js/logIncome.js:178-190 | no request without a selected record; otherwise POST amount and date to `<record>/pagos/` |
| AuthPages.IsEmailMatchesPattern | js/signup.js:20-22 | the direct `isEmail` test holds exactly when the value matches `^[^\s@]+@[^\s@]+\.[^\s@]+$` |
| AuthPages.IsEmailGivesPattern | js/signup.js:20-22 | a value passing the test matches the pattern |
| AuthPages.PatternPassesIsEmail | js/signup.js:20-22 | a value matching the pattern passes the test |
| AuthPages.PassesAt | js/signup.js:20-22 | `a@c.d` with plain runs `a`, `c`, `d` passes the test |
| AuthPages.FirstAt | js/signup.js:20-22 | an `@` after plain characters is the first `@` |
| AuthPages.SignupCheck | js/signup.js:25-42 | missing fields first, then the e-mail test, then equal passwords; otherwise the trimmed body is sent |
| AuthPages.SubmitSignup | js/signup.js:25-71 | follows SignupCheck and remembers the e-mail for verification only when the backend accepts |
| AuthPages.RecoverEmail | js/recover-password.js:21-23 | a request only for a non-empty trimmed e-mail |
| AuthPages.SubmitRecover | js/recover-password.js:21-44 | remembers the e-mail for the reset only when the backend accepts |
| AuthPages.VerifyRequestFor | js/verify-code.js:28-33 | a request exactly when the trimmed code and the stored e-mail are both present |
| AuthPages.VerifyCodeOutcome | js/verify-code.js:28-56 | missing data exactly when the code or the stored e-mail is missing; for a complete request, a server error (with parseError's text) exactly when the reply failed, an invalid code exactly for `valid` false, and acceptance exactly for `valid: true` |
| AuthPages.SubmitVerifyCode | js/verify-code.js:51-56 | stores the accepted code as the reset token and changes nothing otherwise |
| AuthPages.VerifySignupOutcome | js/verify-signup.js:28-54 | missing data or acceptance of any OK reply; the page never reports an invalid code |
| AuthPages.ResetValue | js/new-password.js:30-42 | the trimmed query value when truthy, else the trimmed stored value, else empty |
| AuthPages.EmailToken | js/new-password.js:30-42 | e-mail and token each follow ResetValue from query and session |
| AuthPages.BlankQueryHidesStored | js/new-password.js:30-42 | a blank but non-empty query value hides the stored one |
| AuthPages.ResetValueReadsBack | js/new-password.js:30-42 | a value stored on load is read back unchanged on the next load |
| AuthPages.ResetCheck | js/new-password.js:49-66 | a missing (trimmed) password or confirmation first, then passwords that differ, then a missing e-mail or token; otherwise the reset request with the trimmed password |
| AuthPages.SubmitNewPassword | js/new-password.js:49-117 | follows ResetCheck and forgets e-mail and token only after the backend accepts |
| AuthPages.RemoveBoth | js/new-password.js:111-117 | removing two keys one after the other removes both |
| AuthPages.PersistOnLoad | js/new-password.js:30-42 | stores the non-empty e-mail and token, which the next load reads back |
| Profile.LocalKey | js/profile.js:43 | `profileImage:` followed by the user id |
| Profile.LocalKeyInjective | js/profile.js:43 | different users get different cache keys |
| Profile.CachedImage | js/profile.js:61-79 | the cached image exactly when there is a user id and a non-empty entry under its key |
| Profile.CachedImageAfterStore | js/profile.js:209 | a stored preview is found for that user |
| Profile.CachedImageOtherUser | js/profile.js:209 | storing one user's preview leaves every other user's cache unchanged |
| Profile.AvatarAfterLoad | js/profile.js:81-126 | no URL shows the icon; otherwise the direct load, then the blob fetched with the token, then (except on wallet) the cached image, then the icon |
| Profile.WalletIgnoresCache | js/wallet.js:44-56 | the wallet avatar never uses the local cache |
| Profile.AvatarWithoutUrl | js/profile.js:174-184 | a user without an image URL sees the cached image, or the icon when there is none |
| Profile.IsAdmin | js/home.js:175 | admin exactly when `is_staff` or `is_superuser` is set |
| Profile.Logout | js/home.js:199-200 | removes the token and first name only, after which the page guard refuses entry |
| Profile.Restore | js/profile.js:286-307 | the snapshot value, or `undefined` for an input that was never recorded |
| Profile.SnapshotRecords | js/profile.js:217-221 | the snapshot holds every input's value under its id |
| Profile.EditThenCancelRestores | js/profile.js:217-307 | edit then cancel puts every input back to its value from before the edit |
| Profile.ProfilePage.constructor | js/profile.js:36-43 | the page starts with no snapshot, no file, no user id and the icon |
| Profile.ProfilePage.RecordUserId | js/profile.js:160 | a truthy user id is recorded; a missing or zero one keeps the previous one |
| Profile.ProfilePage.RecordLoadedImage | js/profile.js:173-178 | loading records the resolved `profile_image` URL as the original image, or none when it is missing or blank |
| Profile.ProfilePage.RecordSavedImage | js/profile.js:252-259 | a save that returns an image URL records it as the original image; without one, a cached image is shown and the recorded URL stays, and with no cached image the reloaded profile's image URL (or none) is recorded |
| Profile.ProfilePage.TryLoadLocalImage | js/profile.js:61-79 | shows the cached image exactly when there is one |
| Profile.ProfilePage.PreviewSelected | js/profile.js:197-214 | shows the preview and caches it under the user's key when a user id is known |
| Profile.ProfilePage.Edit | js/profile.js:217-221 | snapshots every input and enables them all |
| Profile.ProfilePage.Cancel | js/profile.js:286-307 | restores every input from the snapshot, disables it, forgets the file and shows the original image or the icon |

## Left out

- DOM rendering, element lookup, modals, `alert`, redirects and timers are not modelled. Table rendering is the identity on the filtered lists. A missing element is modelled only where the code branches on it (the expenses tab switch, the log-page selects).
- The network is replaced by the reply each request produced. Asynchrony, interleaving of event handlers and network exceptions are not modelled, except where the code catches them as a distinct path (the login loop, `discoverOnce`, the table loads).
- Header names are case-sensitive map keys. The browser `Headers` object compares them case-insensitively, so a caller header spelled `content-type` is a distinct key in the model.
- Strings are sequences of code points. JavaScript `sort`, `slice` and `length` work on UTF-16 code units, so the order and the caps differ for text outside the Basic Multilingual Plane.
- JSON values are strings or absent. Numbers, booleans, arrays and `null` in reply fields are not modelled, and neither is `JSON.stringify`, which enters as a function or as a precomputed serialisation.
- `Number`, `isNaN` and `Date` enter as parameters (a numeric predicate, today's date string, the current time).
- `localStorage` throwing (private mode, quota) is not modelled. The `try` blocks around it in config.js are taken to succeed.
- The nested `DOMContentLoaded` listener in newSuppIncome.js:207-219 is registered after the event has already fired, so it never runs. It is not modelled.
- The `change` listener of the supplementary-income page that only rewrites labels is not modelled.
- Config.BuildFetchInitAsWritten and Config.ApiConfig.RequestInitAsWritten: an option passed explicitly as `undefined` is modelled as not passed. In particular `method: undefined` with a body overrides the `"GET"` default, so `|| "POST"` then does pick POST; the model sends GET there. The caller's other request fields (`cache`, `signal`, `redirect`, `referrer`, `keepalive`, `integrity`, ...) are carried as text values, not as the objects `fetch` receives.
- Listings.TablePage.Load: on the expenses page the URLs come from `discoverOnce` (expenses.js:146-156). The model takes the two list replies directly and does not chain the discovery probes into the load.
- The `fetchMe` / `getProfile` requests themselves are not modelled. Their candidate lists, discovery and the display name and avatar built from the reply are.
- Creating an image blob, `URL.createObjectURL` and `FileReader` are not modelled. The blob URL and the preview data URL are parameters.
- The profile save request (profile.js:232-271: multipart `PUT` with `FormData`) is not modelled. Only the image URL it records is.
- Profile.ProfilePage.RecordSavedImage: the image shown once `setProfileImageFromUrl` settles (after the save and after the reload) is not stated; AvatarAfterLoad gives it. Of the `loadProfile()` reload only the recorded image URL is modelled, not its refill of the inputs and the user id.
- User ids are natural numbers. A string id such as a UUID is not modelled, and neither is its use in the cache key.
- AuthPages.VerifyCodeOutcome: a verify-code reply whose `json()` itself fails goes to the page's generic catch. The model folds that case into the server-error path.
- Profile.Restore: an input id missing from the snapshot yields the text `undefined`, as assigning `undefined` to `input.value` does. Inputs added after the edit began are not modelled.

## Findings

| source | as written | input that shows it | evidently intended | confidence | as-written member | corrected member |
|---|---|---|---|---|---|---|
| js/config.js:114-128 | `finalInit.method` starts as `"GET"`, so `finalInit.method \|\| "POST"` never picks POST, and a call with a body and no method is sent as GET with a body, which `fetch` refuses | `apiFetch("/api/x", { body: { a: 1 } })` | a request with a body and no method is sent as POST | not executed | Config.BuildFetchInitAsWritten | Config.BuildFetchInit |
| js/profile.js:128-142 | when the reply says JSON but its body does not parse, the `catch` falls through to `resp.text()` on a body that `json()` has already consumed, so the helper rejects instead of returning a message (the same in every page's copy) | a 500 reply with content type `application/json` and body `Internal error` | the reply text, capped, or `HTTP 500` | not executed | ErrorText.ParseError | ErrorText.ParseErrorIntended |
| js/new-password.js:78-100 | the error branch reads `res.text()` after `res.json()` has consumed the body, so for a JSON reply without `detail`, `error` or `message` the read rejects and the page shows a connection error instead of the server's reply | a 400 reply with content type `application/json` and body `{}` | the reply text, capped, or the fixed error message | not executed | ErrorText.ResetErrorDetail | ErrorText.ResetErrorDetailIntended |
