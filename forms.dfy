/**
 * The four create/edit forms (newIncome.js, newSuppIncome.js, newExpense.js,
 * newExtraExp.js) and the payment save of the two log pages (logIncome.js,
 * logPayment.js).
 *
 * A form reads its inputs into a payload, validates it, and then either
 * creates the record (POST to the collection) or updates it (PUT to the
 * record), depending on the `id` query parameter.  With its convert box
 * checked, the supplementary-income form instead stores the payload in
 * `localStorage` under `convertToFixedIncome` and sends no request at all;
 * no page reads that key back, so no fixed income is created from it and,
 * in edit mode, the supplementary income is kept.
 */
module Forms {
  import opened Wrappers
  import opened JsStrings
  import opened WebStorage

  // ---------------------------------------------------------------------------
  // Pages and collections
  // ---------------------------------------------------------------------------

  datatype FormPage = NewIncome | NewSuppIncome | NewExpense | NewExtraExp

  /** The REST collection each form edits. */
  function CollectionOf(page: FormPage): (c: string)
    ensures c != "" && '/' !in c
  {
    match page
    case NewIncome => "IngresosFijos"
    case NewSuppIncome => "IngresosExtra"
    case NewExpense => "EgresosFijos"
    case NewExtraExp => "EgresosExtra"
  }

  /** The fixed-record forms carry a period; the other two carry a date. */
  predicate IsFixedPage(page: FormPage) {
    page == NewIncome || page == NewExpense
  }

  // ---------------------------------------------------------------------------
  // Payload
  // ---------------------------------------------------------------------------

  /**
   * The raw values of the four inputs; None when the element is missing.
   * `last` is the period input on fixed pages and the date input otherwise.
   */
  datatype FormInputs = FormInputs(
    name: Option<string>,
    reason: Option<string>,
    amount: Option<string>,
    last: Option<string>)

  datatype Payload =
    | FixedPayload(name: string, reason: string, quantity: string, period: string)
    | DatedPayload(name: string, reason: string, quantity: string, date: string)
  {
    /** The period or the date. */
    function Last(): string {
      if FixedPayload? then period else date
    }
  }

  const DefaultPeriod := "mensual"

  /** The literal defaults are already trimmed. */
  lemma DefaultsTrimmed()
    ensures Trim(DefaultPeriod) == DefaultPeriod && Trim("") == ""
  {
    assert DefaultPeriod[0] == 'm' && DefaultPeriod[|DefaultPeriod| - 1] == 'l';
    TrimOfTrimmed(DefaultPeriod);
    TrimOfTrimmed("");
  }

  /**
   * The payload built when the user confirms: trimmed fields, the period
   * defaulting to `mensual` (fixed pages), the date defaulting to nothing
   * (newSuppIncome.js) or to today (newExtraExp.js).
   */
  function PayloadOf(page: FormPage, inputs: FormInputs, today: string): (p: Payload)
    ensures p.FixedPayload? <==> IsFixedPage(page)
    ensures p.name == TrimOr(inputs.name, "") && p.reason == TrimOr(inputs.reason, "")
    ensures p.quantity == TrimOr(inputs.amount, "")
    ensures Truthy(inputs.last) ==> p.Last() == Trim(inputs.last.value)
    ensures !Truthy(inputs.last) ==>
      p.Last() == (if IsFixedPage(page) then DefaultPeriod
                   else if page == NewExtraExp then Trim(today) else "")
  {
    DefaultsTrimmed();
    var name := TrimOr(inputs.name, "");
    var reason := TrimOr(inputs.reason, "");
    var quantity := TrimOr(inputs.amount, "");
    match page
    case NewIncome => FixedPayload(name, reason, quantity, TrimOr(inputs.last, DefaultPeriod))
    case NewExpense => FixedPayload(name, reason, quantity, TrimOr(inputs.last, DefaultPeriod))
    case NewSuppIncome => DatedPayload(name, reason, quantity, TrimOr(inputs.last, ""))
    case NewExtraExp => DatedPayload(name, reason, quantity, TrimOr(inputs.last, today))
  }

  // ---------------------------------------------------------------------------
  // Validation
  // ---------------------------------------------------------------------------

  datatype FormError = NameRequired | AmountNotNumeric | PeriodRequired | DateRequired

  /** newExpense.js has no period check; the other forms check their last field. */
  predicate ChecksLast(page: FormPage) {
    page != NewExpense
  }

  /**
   * The validation chain: name, then a non-empty numeric amount, then the
   * period or date; the first failure is reported.  `numeric` stands for
   * `!isNaN(Number(q))`.
   */
  function Validate(page: FormPage, p: Payload, numeric: string -> bool): (r: Option<FormError>)
    ensures r == Some(NameRequired) <==> p.name == ""
    ensures r == Some(AmountNotNumeric) <==>
      p.name != "" && (p.quantity == "" || !numeric(p.quantity))
    ensures r.Some? && (r.value == PeriodRequired || r.value == DateRequired) <==>
      p.name != "" && p.quantity != "" && numeric(p.quantity)
      && ChecksLast(page) && p.Last() == ""
    ensures r == Some(PeriodRequired) ==> p.FixedPayload?
    ensures r == Some(DateRequired) ==> p.DatedPayload?
  {
    if p.name == "" then Some(NameRequired)
    else if p.quantity == "" || !numeric(p.quantity) then Some(AmountNotNumeric)
    else if ChecksLast(page) && p.Last() == "" then
      Some(if p.FixedPayload? then PeriodRequired else DateRequired)
    else None
  }

  /**
   * A blank period typed into the form is trimmed to "" instead of taking
   * the default; newIncome.js then refuses it, newExpense.js sends it.
   */
  lemma BlankPeriodOnlyRefusedForIncome(numeric: string -> bool, name: string, amount: string)
    requires Trim(name) != "" && Trim(amount) != "" && numeric(Trim(amount))
    ensures
      var inputs := FormInputs(Some(name), None, Some(amount), Some(" "));
      Validate(NewIncome, PayloadOf(NewIncome, inputs, ""), numeric) == Some(PeriodRequired)
      && Validate(NewExpense, PayloadOf(NewExpense, inputs, ""), numeric).None?
  {
    var inputs := FormInputs(Some(name), None, Some(amount), Some(" "));
    BlankPeriodValidation(NewIncome, numeric, inputs);
    BlankPeriodValidation(NewExpense, numeric, inputs);
  }

  /** On a fixed page, a blank period passes validation exactly where the last field is not checked. */
  lemma BlankPeriodValidation(page: FormPage, numeric: string -> bool, inputs: FormInputs)
    requires IsFixedPage(page) && inputs.last == Some(" ")
    requires inputs.name.Some? && Trim(inputs.name.value) != ""
    requires inputs.amount.Some? && Trim(inputs.amount.value) != "" && numeric(Trim(inputs.amount.value))
    ensures Validate(page, PayloadOf(page, inputs, ""), numeric)
      == if ChecksLast(page) then Some(PeriodRequired) else None
  {
    var p := PayloadOf(page, inputs, "");
    assert Truthy(inputs.name) && Truthy(inputs.amount);
    assert p.name == Trim(inputs.name.value) && p.quantity == Trim(inputs.amount.value);
    BlankPeriodPayload(page, inputs);
  }

  /** A blank period input gives an empty period. */
  lemma BlankPeriodPayload(page: FormPage, inputs: FormInputs)
    requires IsFixedPage(page) && inputs.last == Some(" ")
    ensures PayloadOf(page, inputs, "").Last() == ""
  {
    BlankTrim();
  }

  lemma BlankTrim()
    ensures Trim(" ") == ""
  {
    TrimAllSpace(" ");
  }

  // ---------------------------------------------------------------------------
  // Requests
  // ---------------------------------------------------------------------------

  datatype SaveRequest = SaveRequest(httpMethod: string, url: string)

  /** The collection URL `${API_BASE}/api/<collection>/`. */
  function CollectionUrl(base: string, page: FormPage): (u: string)
    ensures StartsWith(u, base + "/api/") && EndsWith(u, "/")
  {
    base + "/api/" + CollectionOf(page) + "/"
  }

  /** With a (truthy) id: PUT to the record; otherwise POST to the collection. */
  function SaveRequestFor(base: string, page: FormPage, id: Option<string>): (r: SaveRequest)
    ensures r.httpMethod == (if Truthy(id) then "PUT" else "POST")
    ensures !Truthy(id) ==> r.url == CollectionUrl(base, page)
    ensures Truthy(id) ==> r.url == CollectionUrl(base, page) + id.value + "/"
  {
    if Truthy(id) then SaveRequest("PUT", CollectionUrl(base, page) + id.value + "/")
    else SaveRequest("POST", CollectionUrl(base, page))
  }

  /**
   * Deleting (only offered in edit mode) sends DELETE to the record URL
   * when the user confirms, and nothing otherwise.
   */
  function DeleteRequest(base: string, page: FormPage, id: Option<string>, confirmed: bool): (r: Option<SaveRequest>)
    requires Truthy(id)
    ensures r.Some? <==> confirmed
    ensures r.Some? ==> r.value.httpMethod == "DELETE"
    ensures r.Some? ==> r.value.url == SaveRequestFor(base, page, id).url
  {
    if confirmed then Some(SaveRequest("DELETE", SaveRequestFor(base, page, id).url)) else None
  }

  /** Two different record ids are saved to two different URLs. */
  lemma RecordUrlsDistinct(base: string, page: FormPage, a: string, b: string)
    requires a != "" && b != "" && a != b
    requires '/' !in a && '/' !in b
    ensures SaveRequestFor(base, page, Some(a)).url != SaveRequestFor(base, page, Some(b)).url
  {
    var c := CollectionUrl(base, page);
    var x, y := c + a + "/", c + b + "/";
    var k := DifferingIndex(a, b);
    assert x[|c| + k] == (a + "/")[k] && y[|c| + k] == (b + "/")[k];
  }

  /** Two different `/`-free ids followed by `/` differ at some position. */
  lemma DifferingIndex(a: string, b: string) returns (k: nat)
    requires a != b && '/' !in a && '/' !in b
    ensures k < |a + "/"| && k < |b + "/"| && (a + "/")[k] != (b + "/")[k]
  {
    if |a| < |b| {
      k := |a|;
      assert b[k] in b;
    } else if |b| < |a| {
      k := |b|;
      assert a[k] in a;
    } else {
      k :| 0 <= k < |a| && a[k] != b[k];
    }
  }

  // ---------------------------------------------------------------------------
  // Submitting a form
  // ---------------------------------------------------------------------------

  datatype SubmitPlan =
    | Invalid(error: FormError)
    | ConvertToFixed(payload: Payload)
    | Send(request: SaveRequest, payload: Payload)

  const ConvertKey := "convertToFixedIncome"

  /**
   * What confirming a form does: validation first; then, on newSuppIncome.js
   * with the convert box checked, storing the payload under
   * `convertToFixedIncome` and sending no request; otherwise the save
   * request.
   */
  function PlanSubmit(page: FormPage, base: string, id: Option<string>, inputs: FormInputs,
                      today: string, numeric: string -> bool, convert: bool): (r: SubmitPlan)
    ensures var p := PayloadOf(page, inputs, today);
      && (r.Invalid? <==> Validate(page, p, numeric).Some?)
      && (r.Invalid? ==> r.error == Validate(page, p, numeric).value)
      && (r.ConvertToFixed? <==>
            Validate(page, p, numeric).None? && convert && page == NewSuppIncome)
      && (!r.Invalid? ==> r.payload == p)
      && (r.Send? ==> r.request == SaveRequestFor(base, page, id))
  {
    var p := PayloadOf(page, inputs, today);
    var err := Validate(page, p, numeric);
    if err.Some? then Invalid(err.value)
    else if convert && page == NewSuppIncome then ConvertToFixed(p)
    else Send(SaveRequestFor(base, page, id), p)
  }

  /**
   * Carries out the storage part of a submit: only the convert-to-fixed
   * branch writes `localStorage`, under `convertToFixedIncome`, the
   * serialized payload (`encode` stands for `JSON.stringify`).
   */
  method Submit(local: Storage, page: FormPage, base: string, id: Option<string>, inputs: FormInputs,
                today: string, numeric: string -> bool, convert: bool, encode: Payload -> string)
    returns (plan: SubmitPlan)
    modifies local
    ensures plan == PlanSubmit(page, base, id, inputs, today, numeric, convert)
    ensures plan.ConvertToFixed? ==> local.items == old(local.items)[ConvertKey := encode(plan.payload)]
    ensures !plan.ConvertToFixed? ==> local.items == old(local.items)
  {
    plan := PlanSubmit(page, base, id, inputs, today, numeric, convert);
    if plan.ConvertToFixed? {
      local.SetItem(ConvertKey, encode(plan.payload));
    }
  }

  // ---------------------------------------------------------------------------
  // Edit mode: prefill and date default
  // ---------------------------------------------------------------------------

  /** The stored record as fetched for editing; None for a missing field. */
  datatype Record = Record(name: Option<string>, reason: Option<string>, quantity: Option<string>, last: Option<string>)

  /**
   * Edit-mode prefill: `name || ""`, `reason || ""`, `quantity ?? ""`, and
   * `period || "mensual"` or `date || today`.
   */
  function Prefill(page: FormPage, rec: Record, today: string): (inputs: FormInputs)
    ensures inputs.name == Some(OrElse(rec.name, "")) && inputs.reason == Some(OrElse(rec.reason, ""))
    ensures inputs.amount == Some(rec.quantity.GetOr(""))
    ensures Truthy(rec.last) ==> inputs.last == rec.last
    ensures !Truthy(rec.last) ==> inputs.last == Some(if IsFixedPage(page) then DefaultPeriod else today)
  {
    FormInputs(
      Some(OrElse(rec.name, "")),
      Some(OrElse(rec.reason, "")),
      Some(rec.quantity.GetOr("")),
      Some(OrElse(rec.last, if IsFixedPage(page) then DefaultPeriod else today)))
  }

  /** The field is already trimmed (what the forms themselves store). */
  predicate Trimmed(v: Option<string>) {
    Trim(v.GetOr("")) == v.GetOr("")
  }

  /**
   * Opening a stored record for editing and confirming without changes
   * sends the record back unchanged, provided its fields are trimmed and
   * its period or date is set.
   */
  lemma {:induction false} PrefillRoundTrip(page: FormPage, rec: Record, today: string)
    requires Trimmed(rec.name) && Trimmed(rec.reason) && Trimmed(rec.quantity)
    requires Truthy(rec.last) && Trim(rec.last.value) == rec.last.value
    ensures var p := PayloadOf(page, Prefill(page, rec, today), today);
      && p.name == rec.name.GetOr("") && p.reason == rec.reason.GetOr("")
      && p.quantity == rec.quantity.GetOr("") && p.Last() == rec.last.value
  {
    var inputs := Prefill(page, rec, today);
    DefaultsTrimmed();
    assert TrimOr(inputs.name, "") == rec.name.GetOr("");
    assert TrimOr(inputs.reason, "") == rec.reason.GetOr("");
    assert TrimOr(inputs.amount, "") == rec.quantity.GetOr("");
  }

  /**
   * The date input on load: today in create mode (no id) on the two dated
   * forms; the page's own value otherwise.
   */
  function DateOnLoad(page: FormPage, id: Option<string>, today: string, current: string): (v: string)
    ensures !IsFixedPage(page) && !Truthy(id) ==> v == today
    ensures IsFixedPage(page) || Truthy(id) ==> v == current
  {
    if !IsFixedPage(page) && !Truthy(id) then today else current
  }

  // ---------------------------------------------------------------------------
  // Log pages: saving a payment
  // ---------------------------------------------------------------------------

  /** logIncome.js records payments of fixed incomes, logPayment.js of fixed expenses. */
  datatype LogPage = LogIncome | LogPayment

  function FixedPageOf(log: LogPage): (page: FormPage)
    ensures IsFixedPage(page)
  {
    if log == LogIncome then NewIncome else NewExpense
  }

  datatype PaymentRequest = PaymentRequest(url: string, amount: string, date: string)

  /**
   * Saving a payment: no selected record alerts and sends nothing;
   * otherwise the amount and date, untrimmed, are POSTed to the record's
   * `pagos/` sub-collection.
   */
  function PaymentSave(base: string, log: LogPage, selected: string, amount: string, date: string): (r: Option<PaymentRequest>)
    ensures r.None? <==> selected == ""
    ensures r.Some? ==>
      r.value.url == SaveRequestFor(base, FixedPageOf(log), Some(selected)).url + "pagos/"
      && r.value.amount == amount && r.value.date == date
  {
    if selected == "" then None
    else Some(PaymentRequest(CollectionUrl(base, FixedPageOf(log)) + selected + "/pagos/", amount, date))
  }
}
