/**
 * The list pages: the payment history of `logIncome` and `logPayment`, and
 * the fixed/extra tables of `income` and `expenses`. Covered here are the
 * search filters (an empty filter value matches everything), the filter
 * option lists (`[...new Set(...)]`, with or without `.filter(Boolean)`),
 * the sorted list of payment dates (`Array.prototype.sort` on strings), the
 * accumulation of the payment history, and the tab state of the two table
 * pages.
 */
module Listings {
  import opened Wrappers
  import opened JsStrings
  import opened WebStorage
  import PageFetch

  // ---------------------------------------------------------------------------
  // Array.prototype.filter
  // ---------------------------------------------------------------------------

  /** `r` is `s` with some elements left out and the rest in their order. */
  predicate Sublist<T(==)>(r: seq<T>, s: seq<T>)
    decreases |s|
  {
    if r == [] then true
    else if s == [] then false
    else (r[0] == s[0] && Sublist(r[1..], s[1..])) || Sublist(r, s[1..])
  }

  /** Leaving out the first element of `s` keeps a sublist of the rest a sublist. */
  lemma SublistSkip<T>(r: seq<T>, s: seq<T>)
    requires s != [] && Sublist(r, s[1..])
    ensures Sublist(r, s)
  {
  }

  /**
   * `s.filter(p)`: the elements satisfying `p`, in order, each as many times
   * as it occurs in `s`.
   */
  function Filter<T(==,!new)>(s: seq<T>, p: T -> bool): (r: seq<T>)
    ensures Sublist(r, s)
    ensures forall x :: x in r ==> p(x)
    ensures forall x :: multiset(r)[x] == if p(x) then multiset(s)[x] else 0
    decreases |s|
  {
    if s == [] then []
    else
      assert s == [s[0]] + s[1..];
      var rest := Filter(s[1..], p);
      if p(s[0]) then
        assert ([s[0]] + rest)[1..] == rest;
        [s[0]] + rest
      else rest
  }

  /** A filter every element passes keeps the whole list. */
  lemma {:induction false} FilterKeepsAll<T(!new)>(s: seq<T>, p: T -> bool)
    requires forall x :: x in s ==> p(x)
    ensures Filter(s, p) == s
    decreases |s|
  {
    if s != [] {
      FilterKeepsAll(s[1..], p);
    }
  }

  // ---------------------------------------------------------------------------
  // [...new Set(s)]
  // ---------------------------------------------------------------------------

  /** The position of the first occurrence of `x` in `s`. */
  function FirstIndex<T(==)>(s: seq<T>, x: T): (k: nat)
    requires x in s
    ensures k < |s| && s[k] == x
    ensures forall i :: 0 <= i < k ==> s[i] != x
  {
    if s[0] == x then 0 else 1 + FirstIndex(s[1..], x)
  }

  /** Any position holding `x` with no `x` before it is the first index. */
  lemma {:induction false} FirstIndexUnique<T>(s: seq<T>, x: T, k: nat)
    requires k < |s| && s[k] == x
    requires forall i :: 0 <= i < k ==> s[i] != x
    ensures FirstIndex(s, x) == k
  {
    var j := FirstIndex(s, x);
    assert !(j < k) by { assert s[j] == x; }
    assert !(k < j);
  }

  lemma {:induction false} FirstIndexInPrefix<T>(s: seq<T>, n: nat, x: T)
    requires n <= |s| && x in s[..n]
    ensures FirstIndex(s, x) == FirstIndex(s[..n], x)
  {
    var k := FirstIndex(s[..n], x);
    assert s[k] == s[..n][k];
    assert forall i :: 0 <= i < k ==> s[i] == s[..n][i];
    FirstIndexUnique(s, x, k);
  }

  /**
   * `[...new Set(s)]`: every value of `s` once, ordered by where it first
   * occurs in `s`.
   */
  function Distinct<T(==,!new)>(s: seq<T>): (r: seq<T>)
    ensures forall x :: x in r <==> x in s
    ensures forall i, j :: 0 <= i < j < |r| ==> r[i] != r[j]
    ensures forall i, j :: 0 <= i < j < |r| ==> FirstIndex(s, r[i]) < FirstIndex(s, r[j])
    decreases |s|
  {
    if s == [] then []
    else
      var init := s[..|s| - 1];
      var last := s[|s| - 1];
      var r := Distinct(init);
      assert forall x :: x in r ==> FirstIndex(s, x) == FirstIndex(init, x) by {
        forall x | x in r { FirstIndexInPrefix(s, |s| - 1, x); }
      }
      if last in r then r
      else
        assert s == init + [last];
        assert FirstIndex(s, last) == |s| - 1;
        r + [last]
  }

  /** Each string of `r` wrapped as a present value. */
  function Present(r: seq<string>): (w: seq<Option<string>>)
    ensures |w| == |r| && forall i :: 0 <= i < |r| ==> w[i] == Some(r[i])
  {
    seq(|r|, i requires 0 <= i < |r| => Some(r[i]))
  }

  /**
   * The values of `.filter(Boolean)` on strings that may be missing: the
   * non-empty ones, in their order, each as often as it occurs.
   */
  function TruthyValues(s: seq<Option<string>>): (r: seq<string>)
    ensures forall x :: x in r <==> x != "" && Some(x) in s
    ensures forall x :: multiset(r)[x] == if x != "" then multiset(s)[Some(x)] else 0
    decreases |s|
  {
    if s == [] then []
    else
      assert s == [s[0]] + s[1..];
      assert multiset(s) == multiset{s[0]} + multiset(s[1..]);
      var rest := TruthyValues(s[1..]);
      if Truthy(s[0]) then
        [s[0].value] + rest
      else
        rest
  }

  /** `.filter(Boolean)` keeps the non-empty values in the order they come in. */
  lemma {:induction false} TruthyValuesInOrder(s: seq<Option<string>>)
    ensures Sublist(Present(TruthyValues(s)), s)
    decreases |s|
  {
    if s != [] {
      var rest := TruthyValues(s[1..]);
      TruthyValuesInOrder(s[1..]);
      if Truthy(s[0]) {
        var w := Present(TruthyValues(s));
        assert TruthyValues(s) == [s[0].value] + rest;
        assert w[0] == s[0] && w[1..] == Present(rest);
      } else {
        assert TruthyValues(s) == rest;
        SublistSkip(Present(rest), s);
      }
    }
  }

  /** `.filter(Boolean)` keeps the order of first occurrences. */
  lemma {:induction false} TruthyValuesKeepOrder(s: seq<Option<string>>, x: string, y: string)
    requires x in TruthyValues(s) && y in TruthyValues(s)
    requires FirstIndex(TruthyValues(s), x) < FirstIndex(TruthyValues(s), y)
    ensures FirstIndex(s, Some(x)) < FirstIndex(s, Some(y))
    decreases |s|
  {
    var v := TruthyValues(s);
    var t := TruthyValues(s[1..]);
    if Truthy(s[0]) {
      assert v == [s[0].value] + t;
      if x != s[0].value {
        assert y != s[0].value;
        assert v[1..] == t;
        assert x in t && y in t;
        TruthyValuesKeepOrder(s[1..], x, y);
      }
    } else {
      assert v == t;
      assert s[0] != Some(x) && s[0] != Some(y);
      TruthyValuesKeepOrder(s[1..], x, y);
    }
  }

  /**
   * `[...new Set(s.filter(Boolean))]`, the option list of `logIncome`,
   * `income` and `expenses`: each non-empty value once, in the order of
   * first occurrence in `s`.
   */
  function TruthyOptions(s: seq<Option<string>>): (r: seq<string>)
    ensures forall x :: x in r <==> x != "" && Some(x) in s
    ensures forall i, j :: 0 <= i < j < |r| ==> r[i] != r[j]
    ensures forall i, j :: 0 <= i < j < |r| ==> FirstIndex(s, Some(r[i])) < FirstIndex(s, Some(r[j]))
  {
    var v := TruthyValues(s);
    var r := Distinct(v);
    forall i, j | 0 <= i < j < |r|
      ensures FirstIndex(s, Some(r[i])) < FirstIndex(s, Some(r[j]))
    {
      TruthyValuesKeepOrder(s, r[i], r[j]);
    }
    r
  }

  /**
   * `logPayment` builds its name options without `.filter(Boolean)`: a
   * missing or empty name becomes an option of its own, which the other
   * pages never offer.
   */
  lemma FalsyNameOnlyInUnfilteredOptions(names: seq<Option<string>>)
    requires exists i :: 0 <= i < |names| && !Truthy(names[i])
    ensures exists j :: 0 <= j < |Distinct(names)| && !Truthy(Distinct(names)[j])
    ensures forall x :: x in TruthyOptions(names) ==> x != ""
  {
    var i :| 0 <= i < |names| && !Truthy(names[i]);
    assert names[i] in Distinct(names);
  }

  // ---------------------------------------------------------------------------
  // Sorting strings (Array.prototype.sort without a comparator)
  // ---------------------------------------------------------------------------

  /** `a` sorts before `b`: a proper prefix, or smaller at the first difference. */
  predicate Below(a: string, b: string)
    decreases |a|
  {
    if a == [] then b != []
    else b != [] && (a[0] < b[0] || (a[0] == b[0] && Below(a[1..], b[1..])))
  }

  lemma {:induction false} BelowIrreflexive(a: string)
    ensures !Below(a, a)
    decreases |a|
  {
    if a != [] {
      BelowIrreflexive(a[1..]);
    }
  }

  lemma {:induction false} BelowTransitive(a: string, b: string, c: string)
    requires Below(a, b) && Below(b, c)
    ensures Below(a, c)
    decreases |a|
  {
    if a != [] && a[0] == b[0] && b[0] == c[0] {
      BelowTransitive(a[1..], b[1..], c[1..]);
    }
  }

  lemma {:induction false} BelowTotal(a: string, b: string)
    requires a != b
    ensures Below(a, b) || Below(b, a)
    decreases |a|
  {
    if a != [] && b != [] && a[0] == b[0] {
      assert a == [a[0]] + a[1..] && b == [b[0]] + b[1..];
      BelowTotal(a[1..], b[1..]);
    }
  }

  predicate StrictlySorted(s: seq<string>) {
    forall i, j :: 0 <= i < j < |s| ==> Below(s[i], s[j])
  }

  /** Puts `x` into a strictly sorted list, unless it is already there. */
  function Insert(x: string, s: seq<string>): (r: seq<string>)
    requires StrictlySorted(s)
    ensures StrictlySorted(r)
    ensures forall y :: y in r <==> y == x || y in s
    decreases |s|
  {
    if s == [] then [x]
    else if x == s[0] then s
    else if Below(x, s[0]) then
      assert forall j :: 0 < j < |s| ==> Below(x, s[j]) by {
        forall j | 0 < j < |s| { BelowTransitive(x, s[0], s[j]); }
      }
      [x] + s
    else
      BelowTotal(x, s[0]);
      var rest := Insert(x, s[1..]);
      assert forall y :: y in rest ==> Below(s[0], y);
      [s[0]] + rest
  }

  /** `Array.from(set).sort()`: the distinct values of `s` in ascending order. */
  function SortStrings(s: seq<string>): (r: seq<string>)
    ensures StrictlySorted(r)
    ensures forall y :: y in r <==> y in s
    decreases |s|
  {
    if s == [] then [] else Insert(s[|s| - 1], SortStrings(s[..|s| - 1]))
  }

  /**
   * A strictly sorted list is fixed by its elements: the date options do not
   * depend on the order in which the dates were met.
   */
  lemma {:induction false} SortedUnique(a: seq<string>, b: seq<string>)
    requires StrictlySorted(a) && StrictlySorted(b)
    requires forall y :: y in a <==> y in b
    ensures a == b
    decreases |a|
  {
    assert a != [] ==> a[0] in a;
    assert b != [] ==> b[0] in b;
    if a != [] {
      if a[0] != b[0] {
        HeadIsLeast(b, a[0]);
        HeadIsLeast(a, b[0]);
        BelowTransitive(a[0], b[0], a[0]);
        BelowIrreflexive(a[0]);
      }
      forall y
        ensures y in a[1..] <==> y in b[1..]
      {
        TailMembership(a, y);
        TailMembership(b, y);
      }
      SortedUnique(a[1..], b[1..]);
      assert a == [a[0]] + a[1..] && b == [b[0]] + b[1..];
    }
  }

  /** The head of a strictly sorted list sorts before every other element of it. */
  lemma HeadIsLeast(s: seq<string>, y: string)
    requires StrictlySorted(s) && y in s && y != s[0]
    ensures Below(s[0], y)
  {
  }

  /** In a strictly sorted list the tail holds exactly the elements other than the head. */
  lemma TailMembership(s: seq<string>, y: string)
    requires StrictlySorted(s) && s != []
    ensures y in s[1..] <==> y in s && y != s[0]
  {
    if y in s[1..] && y == s[0] {
      var k :| 1 <= k < |s| && s[k] == y;
      assert Below(s[0], s[k]);
      BelowIrreflexive(y);
    }
    assert s == [s[0]] + s[1..];
  }

  /** Sorting only depends on which values occur. */
  lemma SortStringsBySet(s: seq<string>, t: seq<string>)
    requires forall y :: y in s <==> y in t
    ensures SortStrings(s) == SortStrings(t)
  {
    SortedUnique(SortStrings(s), SortStrings(t));
  }

  // ---------------------------------------------------------------------------
  // Search filters
  // ---------------------------------------------------------------------------

  /** `f === "" || v === f`: an empty filter value matches everything. */
  predicate FieldMatches(f: string, v: Option<string>) {
    f == "" || v == Some(f)
  }

  /** A fixed income or expense as the list pages use it. */
  datatype FixedItem = FixedItem(id: string, name: Option<string>, period: Option<string>)

  /** An extra (one-off) income or expense. */
  datatype ExtraItem = ExtraItem(id: string, name: Option<string>, date: Option<string>)

  /** One line of the payment history: the name of the fixed item and a payment of it. */
  datatype HistoryRow = HistoryRow(name: Option<string>, amount: string, date: string)

  predicate FixedMatches(fName: string, fPeriod: string, item: FixedItem) {
    FieldMatches(fName, item.name) && FieldMatches(fPeriod, item.period)
  }

  predicate ExtraMatches(fName: string, fDate: string, item: ExtraItem) {
    FieldMatches(fName, item.name) && FieldMatches(fDate, item.date)
  }

  predicate RowMatches(fName: string, fDate: string, row: HistoryRow) {
    FieldMatches(fName, row.name) && FieldMatches(fDate, Some(row.date))
  }

  /** The fixed-table search of `income` and `expenses`: by name and period. */
  function FilterFixed(items: seq<FixedItem>, fName: string, fPeriod: string): (r: seq<FixedItem>)
    ensures Sublist(r, items)
    ensures forall x :: multiset(r)[x] == if FixedMatches(fName, fPeriod, x) then multiset(items)[x] else 0
  {
    Filter(items, x => FixedMatches(fName, fPeriod, x))
  }

  /** The extra-table search of `income` and `expenses`: by name and date. */
  function FilterExtra(items: seq<ExtraItem>, fName: string, fDate: string): (r: seq<ExtraItem>)
    ensures Sublist(r, items)
    ensures forall x :: multiset(r)[x] == if ExtraMatches(fName, fDate, x) then multiset(items)[x] else 0
  {
    Filter(items, x => ExtraMatches(fName, fDate, x))
  }

  /** The history search of `logIncome` and `logPayment`: by name and date. */
  function SearchHistory(rows: seq<HistoryRow>, fName: string, fDate: string): (r: seq<HistoryRow>)
    ensures Sublist(r, rows)
    ensures forall x :: multiset(r)[x] == if RowMatches(fName, fDate, x) then multiset(rows)[x] else 0
  {
    Filter(rows, x => RowMatches(fName, fDate, x))
  }

  /** With both filters empty, every row is shown. */
  lemma SearchWithoutFilters(rows: seq<HistoryRow>)
    ensures SearchHistory(rows, "", "") == rows
  {
    FilterKeepsAll(rows, x => RowMatches("", "", x));
  }

  function FixedNames(items: seq<FixedItem>): (r: seq<Option<string>>)
    ensures |r| == |items| && forall i :: 0 <= i < |items| ==> r[i] == items[i].name
  {
    seq(|items|, i requires 0 <= i < |items| => items[i].name)
  }

  function FixedPeriods(items: seq<FixedItem>): (r: seq<Option<string>>)
    ensures |r| == |items| && forall i :: 0 <= i < |items| ==> r[i] == items[i].period
  {
    seq(|items|, i requires 0 <= i < |items| => items[i].period)
  }

  function ExtraNames(items: seq<ExtraItem>): (r: seq<Option<string>>)
    ensures |r| == |items| && forall i :: 0 <= i < |items| ==> r[i] == items[i].name
  {
    seq(|items|, i requires 0 <= i < |items| => items[i].name)
  }

  function ExtraDates(items: seq<ExtraItem>): (r: seq<Option<string>>)
    ensures |r| == |items| && forall i :: 0 <= i < |items| ==> r[i] == items[i].date
  {
    seq(|items|, i requires 0 <= i < |items| => items[i].date)
  }

  /** Choosing any offered name (and no period) in the fixed table leaves at least one item. */
  lemma NameOptionFindsItem(items: seq<FixedItem>, n: string)
    requires n in TruthyOptions(FixedNames(items))
    ensures FilterFixed(items, n, "") != []
  {
    var i :| 0 <= i < |items| && FixedNames(items)[i] == Some(n);
    assert FixedMatches(n, "", items[i]);
    assert multiset(items)[items[i]] > 0;
  }

  /** Choosing any offered date (and no name) in the extra table leaves at least one item. */
  lemma DateOptionFindsItem(items: seq<ExtraItem>, d: string)
    requires d in TruthyOptions(ExtraDates(items))
    ensures FilterExtra(items, "", d) != []
  {
    var i :| 0 <= i < |items| && ExtraDates(items)[i] == Some(d);
    assert ExtraMatches("", d, items[i]);
    assert multiset(items)[items[i]] > 0;
  }

  // ---------------------------------------------------------------------------
  // Payment history
  // ---------------------------------------------------------------------------

  datatype Payment = Payment(amount: string, date: string)

  /** How the request for one item's payments ended. */
  datatype PaymentsResponse = PaymentsNetworkError | PaymentsStatus(status: int, payments: seq<Payment>)

  predicate PaymentsOk(r: PaymentsResponse) {
    r.PaymentsStatus? && 200 <= r.status <= 299
  }

  predicate PaymentsUnauthorized(r: PaymentsResponse) {
    r.PaymentsStatus? && r.status == 401
  }

  function RowsOf(name: Option<string>, payments: seq<Payment>): (r: seq<HistoryRow>)
    ensures |r| == |payments|
    ensures forall k :: 0 <= k < |r| ==> r[k] == HistoryRow(name, payments[k].amount, payments[k].date)
  {
    seq(|payments|, k requires 0 <= k < |payments| => HistoryRow(name, payments[k].amount, payments[k].date))
  }

  /**
   * The history: for each fixed item in order, the payments of its OK
   * response in response order; a failed request adds nothing.
   */
  function HistoryRows(items: seq<FixedItem>, responses: seq<PaymentsResponse>): (r: seq<HistoryRow>)
    requires |responses| == |items|
    ensures forall i, p :: 0 <= i < |items| && PaymentsOk(responses[i]) && p in responses[i].payments ==>
      HistoryRow(items[i].name, p.amount, p.date) in r
    ensures forall row :: row in r ==>
      exists i :: 0 <= i < |items| && PaymentsOk(responses[i]) &&
        row.name == items[i].name && Payment(row.amount, row.date) in responses[i].payments
    decreases |items|
  {
    if items == [] then []
    else
      var n := |items| - 1;
      var before := HistoryRows(items[..n], responses[..n]);
      var added := if PaymentsOk(responses[n]) then RowsOf(items[n].name, responses[n].payments) else [];
      assert forall row :: row in added ==> Payment(row.amount, row.date) in responses[n].payments by {
        forall row | row in added
          ensures Payment(row.amount, row.date) in responses[n].payments
        {
          var k :| 0 <= k < |added| && added[k] == row;
          assert responses[n].payments[k] == Payment(row.amount, row.date);
        }
      }
      assert forall p :: PaymentsOk(responses[n]) && p in responses[n].payments ==>
        HistoryRow(items[n].name, p.amount, p.date) in added by {
        forall p | PaymentsOk(responses[n]) && p in responses[n].payments
          ensures HistoryRow(items[n].name, p.amount, p.date) in added
        {
          var k :| 0 <= k < |responses[n].payments| && responses[n].payments[k] == p;
          assert added[k] == HistoryRow(items[n].name, p.amount, p.date);
        }
      }
      before + added
  }

  /** Some request came back 401 (each 401 empties the session). */
  predicate AnyUnauthorized(responses: seq<PaymentsResponse>) {
    exists i :: 0 <= i < |responses| && PaymentsUnauthorized(responses[i])
  }

  function RowDates(rows: seq<HistoryRow>): (r: seq<string>)
    ensures |r| == |rows| && forall k :: 0 <= k < |rows| ==> r[k] == rows[k].date
  {
    seq(|rows|, k requires 0 <= k < |rows| => rows[k].date)
  }

  /** The history state of `logIncome` and `logPayment`. */
  class PaymentLog {
    var allPagos: seq<HistoryRow>
    var dateOptions: seq<string>

    constructor ()
      ensures allPagos == [] && dateOptions == []
    {
      allPagos := [];
      dateOptions := [];
    }

    /**
     * `loadHistory()`: the history is rebuilt from scratch, one payments
     * request per fixed item, and the date filter offers each payment date
     * once, in ascending order. A 401 on any request empties the session;
     * the remaining items are still requested.
     */
    method LoadHistory(session: Storage, items: seq<FixedItem>, responses: seq<PaymentsResponse>)
      requires |responses| == |items|
      modifies this, session
      ensures allPagos == HistoryRows(items, responses)
      ensures dateOptions == SortStrings(RowDates(allPagos))
      ensures AnyUnauthorized(responses) ==> session.items == map[]
      ensures !AnyUnauthorized(responses) ==> session.items == old(session.items)
    {
      allPagos := [];
      var dates: seq<string> := [];
      var i := 0;
      while i < |items|
        invariant 0 <= i <= |items|
        invariant allPagos == HistoryRows(items[..i], responses[..i])
        invariant forall d :: d in dates <==> d in RowDates(allPagos)
        invariant AnyUnauthorized(responses[..i]) ==> session.items == map[]
        invariant !AnyUnauthorized(responses[..i]) ==> session.items == old(session.items)
      {
        var resp := responses[i];
        HistoryRowsStep(items, responses, i);
        AnyUnauthorizedStep(responses, i);
        if resp.PaymentsStatus? {
          var outcome := PageFetch.AuthFetch(session, resp.status);
          if PaymentsOk(resp) {
            RowDatesAppend(allPagos, RowsOf(items[i].name, resp.payments));
            dates := AppendPayments(items[i].name, resp.payments, dates);
          }
        }
        i := i + 1;
      }
      assert items[..i] == items && responses[..i] == responses;
      SortStringsBySet(dates, RowDates(allPagos));
      dateOptions := SortStrings(dates);
    }

    /**
     * `pagos.forEach(...)`: a row per payment is pushed onto the history and
     * each payment date is added to the set of dates.
     */
    method AppendPayments(name: Option<string>, payments: seq<Payment>, dates: seq<string>)
      returns (newDates: seq<string>)
      modifies this
      ensures allPagos == old(allPagos) + RowsOf(name, payments)
      ensures dateOptions == old(dateOptions)
      ensures forall d :: d in newDates <==> d in dates || d in RowDates(RowsOf(name, payments))
    {
      newDates := dates;
      var j := 0;
      while j < |payments|
        invariant 0 <= j <= |payments|
        invariant allPagos == old(allPagos) + RowsOf(name, payments[..j])
        invariant dateOptions == old(dateOptions)
        invariant forall d :: d in newDates <==> d in dates || d in RowDates(RowsOf(name, payments[..j]))
      {
        var p := payments[j];
        assert RowsOf(name, payments[..j + 1]) == RowsOf(name, payments[..j]) + [HistoryRow(name, p.amount, p.date)];
        assert RowDates(RowsOf(name, payments[..j + 1])) == RowDates(RowsOf(name, payments[..j])) + [p.date];
        allPagos := allPagos + [HistoryRow(name, p.amount, p.date)];
        if p.date !in newDates {
          newDates := newDates + [p.date];
        }
        j := j + 1;
      }
      assert payments[..j] == payments;
    }
  }

  lemma RowDatesAppend(a: seq<HistoryRow>, b: seq<HistoryRow>)
    ensures RowDates(a + b) == RowDates(a) + RowDates(b)
  {
  }

  lemma HistoryRowsStep(items: seq<FixedItem>, responses: seq<PaymentsResponse>, i: nat)
    requires |responses| == |items| && i < |items|
    ensures HistoryRows(items[..i + 1], responses[..i + 1]) ==
      HistoryRows(items[..i], responses[..i]) +
      (if PaymentsOk(responses[i]) then RowsOf(items[i].name, responses[i].payments) else [])
  {
    assert items[..i + 1][..i] == items[..i] && responses[..i + 1][..i] == responses[..i];
  }

  lemma AnyUnauthorizedStep(responses: seq<PaymentsResponse>, i: nat)
    requires i < |responses|
    ensures AnyUnauthorized(responses[..i + 1]) <==>
      AnyUnauthorized(responses[..i]) || PaymentsUnauthorized(responses[i])
  {
    if PaymentsUnauthorized(responses[i]) {
      assert responses[..i + 1][i] == responses[i];
    }
    if AnyUnauthorized(responses[..i + 1]) && !PaymentsUnauthorized(responses[i]) {
      var k :| 0 <= k < i + 1 && PaymentsUnauthorized(responses[..i + 1][k]);
      assert k < i && responses[..i][k] == responses[..i + 1][k];
    }
  }

  /** The date options hold each history date once, ascending. */
  lemma DateOptionsSortedAndComplete(rows: seq<HistoryRow>)
    ensures StrictlySorted(SortStrings(RowDates(rows)))
    ensures forall k :: 0 <= k < |rows| ==> rows[k].date in SortStrings(RowDates(rows))
    ensures forall d :: d in SortStrings(RowDates(rows)) ==> exists k :: 0 <= k < |rows| && rows[k].date == d
  {
    forall k | 0 <= k < |rows| ensures rows[k].date in SortStrings(RowDates(rows)) {
      assert RowDates(rows)[k] == rows[k].date;
    }
  }

  // ---------------------------------------------------------------------------
  // income / expenses tables
  // ---------------------------------------------------------------------------

  /** How the request for a whole list ended. */
  datatype ListResponse<T> = ListNetworkError | ListStatus(status: int, items: seq<T>)

  predicate ListOk<T>(r: ListResponse<T>) {
    r.ListStatus? && 200 <= r.status <= 299
  }

  /** The request throws (network error, or a 401 from `authFetch`), which ends the whole load. */
  predicate ListThrows<T>(r: ListResponse<T>) {
    r.ListNetworkError? || r.status == 401
  }

  /**
   * The state of `income` (extra tab named `supp`) and `expenses` (extra tab
   * named `var`): both lists, the current tab, and the four filter option
   * lists.
   */
  class TablePage {
    /** `"supp"` on the income page, `"var"` on the expenses page. */
    const extraTab: string
    /** The expenses page gives up switching tabs when a view element is missing; the income page does not. */
    const switchNeedsViews: bool
    var allFixed: seq<FixedItem>
    var allExtra: seq<ExtraItem>
    var currentTab: string
    var fixNameOptions: seq<string>
    var fixPeriodOptions: seq<string>
    var extraNameOptions: seq<string>
    var extraDateOptions: seq<string>

    /** A fresh page: empty lists, the fixed tab, no options yet. */
    constructor (extraTab: string, switchNeedsViews: bool)
      ensures this.extraTab == extraTab && this.switchNeedsViews == switchNeedsViews
      ensures allFixed == [] && allExtra == [] && currentTab == "fix"
      ensures fixNameOptions == [] && fixPeriodOptions == [] && extraNameOptions == [] && extraDateOptions == []
    {
      this.extraTab := extraTab;
      this.switchNeedsViews := switchNeedsViews;
      allFixed := [];
      allExtra := [];
      currentTab := "fix";
      fixNameOptions := [];
      fixPeriodOptions := [];
      extraNameOptions := [];
      extraDateOptions := [];
    }

    /** `fillFiltersFix(allFijos)`: distinct non-empty names and periods. */
    method FillFixFilters()
      modifies this
      ensures fixNameOptions == TruthyOptions(FixedNames(allFixed))
      ensures fixPeriodOptions == TruthyOptions(FixedPeriods(allFixed))
      ensures allFixed == old(allFixed) && allExtra == old(allExtra) && currentTab == old(currentTab)
      ensures extraNameOptions == old(extraNameOptions) && extraDateOptions == old(extraDateOptions)
    {
      fixNameOptions := TruthyOptions(FixedNames(allFixed));
      fixPeriodOptions := TruthyOptions(FixedPeriods(allFixed));
    }

    /** `fillFiltersSupp` / `fillFiltersVar`: distinct non-empty names and dates. */
    method FillExtraFilters()
      modifies this
      ensures extraNameOptions == TruthyOptions(ExtraNames(allExtra))
      ensures extraDateOptions == TruthyOptions(ExtraDates(allExtra))
      ensures allFixed == old(allFixed) && allExtra == old(allExtra) && currentTab == old(currentTab)
      ensures fixNameOptions == old(fixNameOptions) && fixPeriodOptions == old(fixPeriodOptions)
    {
      extraNameOptions := TruthyOptions(ExtraNames(allExtra));
      extraDateOptions := TruthyOptions(ExtraDates(allExtra));
    }

    /**
     * `loadIngresos()` / `loadExpenses()`: the fixed list, then the extra
     * list. An OK response replaces the list (and refills its filters when
     * its tab is showing); another status leaves it; a request that throws
     * ends the load, a 401 emptying the session first.
     */
    method Load(session: Storage, fixed: ListResponse<FixedItem>, extra: ListResponse<ExtraItem>)
      modifies this, session
      ensures currentTab == old(currentTab)
      ensures allFixed == if ListOk(fixed) then fixed.items else old(allFixed)
      ensures allExtra == if !ListThrows(fixed) && ListOk(extra) then extra.items else old(allExtra)
      ensures ListOk(fixed) && currentTab == "fix" ==>
        fixNameOptions == TruthyOptions(FixedNames(allFixed)) &&
        fixPeriodOptions == TruthyOptions(FixedPeriods(allFixed))
      ensures !(ListOk(fixed) && currentTab == "fix") ==>
        fixNameOptions == old(fixNameOptions) && fixPeriodOptions == old(fixPeriodOptions)
      ensures !ListThrows(fixed) && ListOk(extra) && currentTab == extraTab ==>
        extraNameOptions == TruthyOptions(ExtraNames(allExtra)) &&
        extraDateOptions == TruthyOptions(ExtraDates(allExtra))
      ensures !(!ListThrows(fixed) && ListOk(extra) && currentTab == extraTab) ==>
        extraNameOptions == old(extraNameOptions) && extraDateOptions == old(extraDateOptions)
      ensures (fixed.ListStatus? && fixed.status == 401) || (!ListThrows(fixed) && extra.ListStatus? && extra.status == 401)
        ==> session.items == map[]
      ensures !((fixed.ListStatus? && fixed.status == 401) || (!ListThrows(fixed) && extra.ListStatus? && extra.status == 401))
        ==> session.items == old(session.items)
    {
      if fixed.ListNetworkError? {
        return;
      }
      var outcome := PageFetch.AuthFetch(session, fixed.status);
      if outcome.Unauthorized? {
        return;
      }
      if ListOk(fixed) {
        allFixed := fixed.items;
        if currentTab == "fix" {
          FillFixFilters();
        }
      }
      if extra.ListNetworkError? {
        return;
      }
      outcome := PageFetch.AuthFetch(session, extra.status);
      if outcome.Unauthorized? {
        return;
      }
      if ListOk(extra) {
        allExtra := extra.items;
        if currentTab == extraTab {
          FillExtraFilters();
        }
      }
    }

    /**
     * `switchTab(tab)`: the tab is recorded; then `"fix"` refills the fixed
     * filters and any other value the extra ones. On the expenses page a
     * missing view element stops it after recording the tab.
     */
    method SwitchTab(tab: string, viewsPresent: bool)
      modifies this
      ensures currentTab == tab
      ensures allFixed == old(allFixed) && allExtra == old(allExtra)
      ensures (!switchNeedsViews || viewsPresent) && tab == "fix" ==>
        fixNameOptions == TruthyOptions(FixedNames(allFixed)) &&
        fixPeriodOptions == TruthyOptions(FixedPeriods(allFixed))
      ensures !((!switchNeedsViews || viewsPresent) && tab == "fix") ==>
        fixNameOptions == old(fixNameOptions) && fixPeriodOptions == old(fixPeriodOptions)
      ensures (!switchNeedsViews || viewsPresent) && tab != "fix" ==>
        extraNameOptions == TruthyOptions(ExtraNames(allExtra)) &&
        extraDateOptions == TruthyOptions(ExtraDates(allExtra))
      ensures !((!switchNeedsViews || viewsPresent) && tab != "fix") ==>
        extraNameOptions == old(extraNameOptions) && extraDateOptions == old(extraDateOptions)
    {
      currentTab := tab;
      if switchNeedsViews && !viewsPresent {
        return;
      }
      if tab == "fix" {
        FillFixFilters();
      } else {
        FillExtraFilters();
      }
    }
  }
}
