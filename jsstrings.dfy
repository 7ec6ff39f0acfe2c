/**
 * The JavaScript string operations the front end relies on, stated over
 * `string` (a sequence of characters): `trim`, the `\s` class, the
 * case-insensitive `/^https?:\/\//i` test, `startsWith`/`endsWith`/`includes`,
 * `slice(0, n)`, the tag-stripping `replace(/<[^>]+>/g, "")`, and the
 * `||` operator on values that may be missing or empty.
 */
module JsStrings {
  import opened Wrappers

  // ---------------------------------------------------------------------------
  // Truthiness of optional strings
  // ---------------------------------------------------------------------------

  /** A string-valued JavaScript value is truthy when present and non-empty. */
  predicate Truthy(v: Option<string>) {
    v.Some? && v.value != ""
  }

  /** JavaScript `a || b` on optional strings. */
  function Or(a: Option<string>, b: Option<string>): (r: Option<string>)
    ensures Truthy(a) ==> r == a
    ensures !Truthy(a) ==> r == b
  {
    if Truthy(a) then a else b
  }

  /** JavaScript `a || d` where the fallback `d` is a literal string. */
  function OrElse(a: Option<string>, d: string): (r: string)
    ensures Truthy(a) ==> r == a.value
    ensures !Truthy(a) ==> r == d
  {
    if Truthy(a) then a.value else d
  }

  // ---------------------------------------------------------------------------
  // Whitespace and trim
  // ---------------------------------------------------------------------------

  /**
   * The characters of ECMAScript's WhiteSpace and LineTerminator productions:
   * what `String.prototype.trim` removes and what the regular-expression
   * class `\s` matches.
   */
  predicate IsSpace(c: char) {
    || c == '\t' || c == '\n' || c == '\U{000B}' || c == '\U{000C}' || c == '\r'
    || c == ' ' || c == '\U{00A0}' || c == '\U{1680}'
    || ('\U{2000}' <= c <= '\U{200A}')
    || c == '\U{2028}' || c == '\U{2029}' || c == '\U{202F}' || c == '\U{205F}'
    || c == '\U{3000}' || c == '\U{FEFF}'
  }

  predicate AllSpace(s: string) {
    forall i :: 0 <= i < |s| ==> IsSpace(s[i])
  }

  /** The first position at or after `i` that does not hold white space. */
  function SkipSpaces(s: string, i: nat): (k: nat)
    requires i <= |s|
    ensures i <= k <= |s|
    ensures forall m :: i <= m < k ==> IsSpace(s[m])
    ensures k < |s| ==> !IsSpace(s[k])
    decreases |s| - i
  {
    if i < |s| && IsSpace(s[i]) then SkipSpaces(s, i + 1) else i
  }

  /** The position after the last non-space character of `s[lo..j]`, or `lo`. */
  function SkipSpacesBack(s: string, lo: nat, j: nat): (k: nat)
    requires lo <= j <= |s|
    ensures lo <= k <= j
    ensures forall m :: k <= m < j ==> IsSpace(s[m])
    ensures k > lo ==> !IsSpace(s[k - 1])
    decreases j
  {
    if j > lo && IsSpace(s[j - 1]) then SkipSpacesBack(s, lo, j - 1) else j
  }

  /**
   * `s.trim()`: the result is a contiguous piece of `s`, everything cut off on
   * either side is white space, and the result neither starts nor ends with it.
   */
  function Trim(s: string): (r: string)
    ensures exists i, j :: 0 <= i <= j <= |s| && r == s[i..j] && AllSpace(s[..i]) && AllSpace(s[j..])
    ensures r != [] ==> !IsSpace(r[0]) && !IsSpace(r[|r| - 1])
    ensures |r| <= |s|
  {
    var i := SkipSpaces(s, 0);
    var j := SkipSpacesBack(s, i, |s|);
    assert AllSpace(s[..i]) && AllSpace(s[j..]);
    s[i..j]
  }

  /** A string with no white space at either end is its own trim. */
  lemma {:induction false} TrimOfTrimmed(s: string)
    requires s != [] ==> !IsSpace(s[0]) && !IsSpace(s[|s| - 1])
    ensures Trim(s) == s
  {
  }

  /** A string made only of white space trims to nothing. */
  lemma TrimAllSpace(s: string)
    requires AllSpace(s)
    ensures Trim(s) == ""
  {
  }

  /** `(value || d).trim()`: an input's value, or a default, trimmed. */
  function TrimOr(v: Option<string>, d: string): (r: string)
    ensures Truthy(v) ==> r == Trim(v.value)
    ensures !Truthy(v) ==> r == Trim(d)
  {
    Trim(OrElse(v, d))
  }

  /** Trimming twice is the same as trimming once. */
  lemma TrimIdempotent(s: string)
    ensures Trim(Trim(s)) == Trim(s)
  {
    TrimOfTrimmed(Trim(s));
  }

  // ---------------------------------------------------------------------------
  // Prefixes, suffixes, substrings
  // ---------------------------------------------------------------------------

  predicate StartsWith(s: string, p: string) {
    |p| <= |s| && s[..|p|] == p
  }

  predicate EndsWith(s: string, p: string) {
    |p| <= |s| && s[|s| - |p|..] == p
  }

  /** `s.includes(sub)`. */
  predicate Contains(s: string, sub: string)
    decreases |s|
  {
    StartsWith(s, sub) || (s != [] && Contains(s[1..], sub))
  }

  /** A suffix that fits in the appended part is decided by that part alone. */
  lemma EndsWithAppend(a: string, b: string, p: string)
    requires |p| <= |b|
    ensures EndsWith(a + b, p) <==> EndsWith(b, p)
  {
    assert (a + b)[|a + b| - |p|..] == b[|b| - |p|..];
  }

  // ---------------------------------------------------------------------------
  // Case-insensitive scheme test
  // ---------------------------------------------------------------------------

  /** The upper-case form of an ASCII lower-case letter; other characters are kept. */
  function UpperAscii(c: char): char {
    if 'a' <= c <= 'z' then (c as int - 32) as char else c
  }

  /** Character `c` matches pattern character `p` under the regular-expression flag `i`. */
  predicate SameIgnoringCase(c: char, p: char) {
    c == p || c == UpperAscii(p) || UpperAscii(c) == p
  }

  predicate PrefixIgnoringCase(s: string, p: string) {
    |p| <= |s| && forall i :: 0 <= i < |p| ==> SameIgnoringCase(s[i], p[i])
  }

  /** `/^https?:\/\//i.test(s)`. */
  predicate HasHttpScheme(s: string) {
    PrefixIgnoringCase(s, "http://") || PrefixIgnoringCase(s, "https://")
  }

  /** Appending never removes a scheme prefix. */
  lemma HasHttpSchemeAppend(s: string, t: string)
    requires HasHttpScheme(s)
    ensures HasHttpScheme(s + t)
  {
    if PrefixIgnoringCase(s, "http://") {
      assert forall i :: 0 <= i < 7 ==> (s + t)[i] == s[i];
    } else {
      assert forall i :: 0 <= i < 8 ==> (s + t)[i] == s[i];
    }
  }

  // ---------------------------------------------------------------------------
  // Slashes
  // ---------------------------------------------------------------------------

  predicate AllSlashes(s: string) {
    forall i :: 0 <= i < |s| ==> s[i] == '/'
  }

  /**
   * `s.replace(/\/+$/, "")`: the result is a prefix of `s`, what was removed
   * is slashes only, and the result does not end in a slash.
   */
  function StripTrailingSlashes(s: string): (r: string)
    ensures |r| <= |s| && r == s[..|r|]
    ensures AllSlashes(s[|r|..])
    ensures !EndsWith(r, "/")
  {
    if s != [] && s[|s| - 1] == '/' then StripTrailingSlashes(s[..|s| - 1]) else s
  }

  // ---------------------------------------------------------------------------
  // slice(0, n)
  // ---------------------------------------------------------------------------

  /** `s.slice(0, n)`: the longest prefix of `s` that has at most `n` characters. */
  function Slice(s: string, n: nat): (r: string)
    ensures |r| <= n && |r| <= |s| && r == s[..|r|]
    ensures |s| <= n ==> r == s
    ensures |s| > n ==> |r| == n
  {
    if |s| <= n then s else s[..n]
  }

  // ---------------------------------------------------------------------------
  // Tag stripping: s.replace(/<[^>]+>/g, "")
  // ---------------------------------------------------------------------------

  /** Position of the first `c` in `s`, or `|s|` when there is none. */
  function IndexOf(s: string, c: char): (k: nat)
    ensures k <= |s|
    ensures k < |s| ==> s[k] == c
    ensures forall i :: 0 <= i < k ==> s[i] != c
  {
    if s == [] then 0 else if s[0] == c then 0 else 1 + IndexOf(s[1..], c)
  }

  /**
   * The pattern `<[^>]+>` matches at the start of `s`: `s` starts with `<`,
   * and its first `>` comes after at least one other character.  Then the
   * match ends at that `>`, which is `TagLength(s) - 1`.
   */
  predicate IsTagStart(s: string) {
    s != [] && s[0] == '<' && 1 <= IndexOf(s[1..], '>') < |s| - 1
  }

  function TagLength(s: string): (n: nat)
    requires IsTagStart(s)
    ensures 3 <= n <= |s| && s[n - 1] == '>'
  {
    IndexOf(s[1..], '>') + 2
  }

  /** No position of `s` starts a match of `<[^>]+>`. */
  predicate NoTags(s: string) {
    forall i :: 0 <= i < |s| ==> !IsTagStart(s[i..])
  }

  /**
   * `s.replace(/<[^>]+>/g, "")`: scanning from the left, every match of
   * `<[^>]+>` is removed and every other character is kept.
   */
  function StripTags(s: string): (r: string)
    ensures |r| <= |s|
    decreases |s|
  {
    if s == [] then []
    else if IsTagStart(s) then StripTags(s[TagLength(s)..])
    else [s[0]] + StripTags(s[1..])
  }

  /** Every character of the stripped text comes from the input. */
  lemma {:induction false} StripTagsChars(s: string, c: char)
    requires c !in s
    ensures c !in StripTags(s)
    decreases |s|
  {
    if s == [] {
    } else if IsTagStart(s) {
      StripTagsChars(s[TagLength(s)..], c);
    } else {
      StripTagsChars(s[1..], c);
    }
  }

  /** A string that starts a match keeps that property however it continues. */
  lemma IndexOfAppend(s: string, t: string, c: char)
    requires IndexOf(s, c) < |s|
    ensures IndexOf(s + t, c) == IndexOf(s, c)
    decreases |s|
  {
    if s[0] != c {
      assert (s + t)[1..] == s[1..] + t;
      IndexOfAppend(s[1..], t, c);
    }
  }

  /** Removing the matched tags leaves no match in the result. */
  lemma {:induction false} StripTagsLeavesNoTags(s: string)
    ensures NoTags(StripTags(s))
    decreases |s|
  {
    if s == [] {
    } else if IsTagStart(s) {
      StripTagsLeavesNoTags(s[TagLength(s)..]);
    } else {
      var rest := StripTags(s[1..]);
      StripTagsLeavesNoTags(s[1..]);
      var r := [s[0]] + rest;
      assert r == StripTags(s);
      forall i | 0 <= i < |r|
        ensures !IsTagStart(r[i..])
      {
        if i == 0 {
          if s[0] == '<' {
            var k := IndexOf(s[1..], '>');
            if |s| == 1 {
              assert r == ['<'];
            } else if k == 0 {
              // s[1] is '>' and is copied, so the first '>' of r[1..] is at once
              assert s[1] == '>' && !IsTagStart(s[1..]);
              assert StripTags(s[1..]) == [s[1]] + StripTags(s[1..][1..]);
              assert r[1..][0] == '>';
            } else {
              // no '>' at all after s[0], so none is left after r[0]
              assert k == |s| - 1;
              assert '>' !in s[1..];
              StripTagsChars(s[1..], '>');
              assert r[1..] == rest;
              assert IndexOf(r[1..], '>') == |r| - 1;
            }
          }
        } else {
          assert r[i..] == rest[i - 1..];
        }
      }
    }
  }

  /** A string without matches is left unchanged. */
  lemma {:induction false} StripTagsKeepsTagFree(s: string)
    requires NoTags(s)
    ensures StripTags(s) == s
    decreases |s|
  {
    if s != [] {
      assert !IsTagStart(s[0..]);
      assert s[0..] == s;
      forall i | 0 <= i < |s[1..]| ensures !IsTagStart(s[1..][i..]) {
        assert s[1..][i..] == s[i + 1..];
      }
      StripTagsKeepsTagFree(s[1..]);
    }
  }

  /** Stripping tags twice is the same as stripping once. */
  lemma StripTagsIdempotent(s: string)
    ensures StripTags(StripTags(s)) == StripTags(s)
  {
    StripTagsLeavesNoTags(s);
    StripTagsKeepsTagFree(StripTags(s));
  }

  /** A prefix of a tag-free string is tag-free (so is a capped one). */
  lemma NoTagsPrefix(s: string, n: nat)
    requires NoTags(s) && n <= |s|
    ensures NoTags(s[..n])
  {
    forall i | 0 <= i < n
      ensures !IsTagStart(s[..n][i..])
    {
      var p := s[..n][i..];
      assert s[i..] == p + s[n..];
      TagStartExtends(p, s[n..]);
    }
  }

  /** Text appended after a complete tag does not change that the tag matches. */
  lemma TagStartExtends(p: string, t: string)
    ensures IsTagStart(p) ==> IsTagStart(p + t)
  {
    if IsTagStart(p) {
      assert (p + t)[1..] == p[1..] + t;
      IndexOfAppend(p[1..], t, '>');
    }
  }

  // ---------------------------------------------------------------------------
  // Decimal rendering of a number (template literals such as `HTTP ${status}`)
  // ---------------------------------------------------------------------------

  function DigitChar(d: nat): (c: char)
    requires d < 10
    ensures '0' <= c <= '9'
  {
    ('0' as int + d) as char
  }

  function DigitValue(c: char): nat
    requires '0' <= c <= '9'
  {
    c as int - '0' as int
  }

  /** The decimal digits of `n`, without leading zeros. */
  function Decimal(n: nat): (s: string)
    ensures s != []
    ensures forall i :: 0 <= i < |s| ==> '0' <= s[i] <= '9'
    ensures |s| > 1 ==> s[0] != '0'
  {
    if n < 10 then [DigitChar(n)] else Decimal(n / 10) + [DigitChar(n % 10)]
  }

  function DecimalValue(s: string): nat
    requires forall i :: 0 <= i < |s| ==> '0' <= s[i] <= '9'
  {
    if s == [] then 0 else DecimalValue(s[..|s| - 1]) * 10 + DigitValue(s[|s| - 1])
  }

  /** Reading back the digits gives the number: the rendering loses nothing. */
  lemma {:induction false} DecimalRoundTrip(n: nat)
    ensures DecimalValue(Decimal(n)) == n
  {
    if n >= 10 {
      DecimalRoundTrip(n / 10);
      var s := Decimal(n);
      assert s[..|s| - 1] == Decimal(n / 10);
    }
  }
}
