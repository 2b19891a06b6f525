/**
 JavaScript-level building blocks shared by every component of the client:
 an Option for `undefined`/`null`-able values, string truthiness, the
 `String.prototype.trim` whitespace set, the `err.response?.data?.detail || fallback`
 idiom that every error handler uses, and the text JavaScript produces when a
 number or `s[0]` is spliced into a template literal.
 */
module JsBase {

  /** A value that may be absent (`undefined` or `null` in the source). */
  datatype Option<+T> = None | Some(value: T)

  /** A non-empty string is truthy in JavaScript; the empty string is falsy. */
  predicate TruthyString(s: string) {
    |s| > 0
  }

  /** An optional string is truthy when it is present and non-empty. */
  predicate TruthyOptString(o: Option<string>) {
    o.Some? && TruthyString(o.value)
  }

  /**
   `err.response?.data?.detail || fallback`: the backend's detail text when there
   is a non-empty one, otherwise the fallback.
   */
  function DetailOr(detail: Option<string>, fallback: string): (r: string)
    ensures TruthyOptString(detail) ==> r == detail.value
    ensures !TruthyOptString(detail) ==> r == fallback
  {
    if detail.Some? && detail.value != "" then detail.value else fallback
  }

  /**
   The code points ECMAScript counts as WhiteSpace or LineTerminator, which
   `String.prototype.trim` removes from both ends.
   */
  predicate IsJsSpace(c: char) {
    || c == '\t' || c == '\n' || c == '\U{B}' || c == '\U{C}' || c == '\r'
    || c == ' ' || c == '\U{A0}' || c == '\U{1680}'
    || ('\U{2000}' <= c <= '\U{200A}')
    || c == '\U{2028}' || c == '\U{2029}' || c == '\U{202F}' || c == '\U{205F}'
    || c == '\U{3000}' || c == '\U{FEFF}'
  }

  /** Every character of `s` is JavaScript whitespace (vacuously so for ""). */
  predicate AllSpace(s: string) {
    forall i :: 0 <= i < |s| ==> IsJsSpace(s[i])
  }

  /** The index of the first non-space character at or after `i`, or `|s|`. */
  function SkipSpace(s: string, i: nat): (j: nat)
    requires i <= |s|
    ensures i <= j <= |s|
    ensures forall k :: i <= k < j ==> IsJsSpace(s[k])
    ensures j == |s| || !IsJsSpace(s[j])
    decreases |s| - i
  {
    if i < |s| && IsJsSpace(s[i]) then SkipSpace(s, i + 1) else i
  }

  /** The index just past the last non-space character before `j` and at or after `lo`, or `lo`. */
  function SkipSpaceBack(s: string, lo: nat, j: nat): (i: nat)
    requires lo <= j <= |s|
    ensures lo <= i <= j
    ensures forall k :: i <= k < j ==> IsJsSpace(s[k])
    ensures i == lo || !IsJsSpace(s[i - 1])
    decreases j
  {
    if lo < j && IsJsSpace(s[j - 1]) then SkipSpaceBack(s, lo, j - 1) else j
  }

  /**
   `s.trim()`: the slice of `s` left after dropping its leading and trailing
   whitespace, which starts and ends with a non-space character.
   */
  function Trim(s: string): (r: string)
    ensures exists lo, hi ::
              && 0 <= lo <= hi <= |s| && r == s[lo..hi]
              && (forall k :: 0 <= k < lo ==> IsJsSpace(s[k]))
              && (forall k :: hi <= k < |s| ==> IsJsSpace(s[k]))
    ensures |r| == 0 || (!IsJsSpace(r[0]) && !IsJsSpace(r[|r| - 1]))
  {
    var lo := SkipSpace(s, 0);
    var hi := SkipSpaceBack(s, lo, |s|);
    assert hi > lo ==> s[lo..hi][0] == s[lo] && s[lo..hi][hi - lo - 1] == s[hi - 1];
    s[lo..hi]
  }

  /** `s.trim()` is falsy exactly when `s` consists of whitespace only. */
  lemma TrimEmptyIffAllSpace(s: string)
    ensures Trim(s) == "" <==> AllSpace(s)
  {
    var lo := SkipSpace(s, 0);
    var hi := SkipSpaceBack(s, lo, |s|);
    assert Trim(s) == s[lo..hi];
    if lo < hi {
      assert Trim(s)[0] == s[lo];
    }
  }

  /** The decimal digit for `d`. */
  function Digit(d: nat): (c: char)
    requires d < 10
    ensures '0' <= c <= '9' && c as int - '0' as int == d
  {
    ('0' as int + d) as char
  }

  /** The number a string of decimal digits denotes, most significant digit first. */
  function DigitsValue(s: string): nat
    requires forall i :: 0 <= i < |s| ==> '0' <= s[i] <= '9'
  {
    if |s| == 0 then 0 else 10 * DigitsValue(s[..|s| - 1]) + (s[|s| - 1] as int - '0' as int)
  }

  /**
   The text of a non-negative integer as JavaScript prints it (`String(n)`):
   its decimal digits, with no leading zero.
   */
  function DecimalString(n: nat): (r: string)
    ensures |r| > 0
    ensures forall i :: 0 <= i < |r| ==> '0' <= r[i] <= '9'
    ensures DigitsValue(r) == n && (|r| == 1 || r[0] != '0')
    ensures (n < 10 <==> |r| == 1) && r[|r| - 1] == Digit(n % 10)
  {
    if n < 10 then [Digit(n)] else DecimalString(n / 10) + [Digit(n % 10)]
  }

  /** Different numbers print differently, so the index keys of an array are distinct. */
  lemma {:induction false} DecimalStringInjective(n: nat, m: nat)
    ensures n != m ==> DecimalString(n) != DecimalString(m)
    decreases n
  {
    var a, b := DecimalString(n), DecimalString(m);
    if a == b {
      assert n % 10 == m % 10;
      if n >= 10 && m >= 10 {
        assert a[..|a| - 1] == DecimalString(n / 10);
        assert b[..|b| - 1] == DecimalString(m / 10);
        DecimalStringInjective(n / 10, m / 10);
      }
    }
  }

  /**
   `${s[0]}` inside a template literal: the first character, or the text
   "undefined" when the string is empty (indexing past the end yields undefined).
   */
  function FirstCharText(s: string): (r: string)
    ensures |s| > 0 ==> r == [s[0]]
    ensures |s| == 0 ==> r == "undefined"
  {
    if |s| > 0 then [s[0]] else "undefined"
  }
}
