/** The JavaScript string operations the core relies on: `String.prototype.trim`,
    the decimal text of a non-negative integer (as a template literal renders it),
    and splitting a string at its last `-`. */
module Strings {
  import opened Wrappers

  /** ECMAScript WhiteSpace and LineTerminator code points, the set `trim` strips. */
  predicate IsWhite(c: char) {
    c == '\t' || c == '\n' || c == '\U{B}' || c == '\U{C}' || c == '\r' || c == ' ' ||
    c == '\U{A0}' || c == '\U{1680}' || ('\U{2000}' <= c <= '\U{200A}') ||
    c == '\U{2028}' || c == '\U{2029}' || c == '\U{202F}' || c == '\U{205F}' ||
    c == '\U{3000}' || c == '\U{FEFF}'
  }

  /** True when every character of `s` is white space (also for ""). */
  predicate AllWhite(s: string) {
    forall i :: 0 <= i < |s| ==> IsWhite(s[i])
  }

  /** Number of white characters at the front of `s`. */
  function LeadingWhite(s: string): (k: nat)
    ensures k <= |s|
    ensures AllWhite(s[..k])
    ensures k < |s| ==> !IsWhite(s[k])
  {
    if |s| > 0 && IsWhite(s[0]) then
      var k' := LeadingWhite(s[1..]);
      assert s[..k' + 1] == [s[0]] + s[1..][..k'];
      k' + 1
    else 0
  }

  /** Number of white characters at the end of `s`. */
  function TrailingWhite(s: string): (k: nat)
    ensures k <= |s|
    ensures AllWhite(s[|s| - k..])
    ensures k < |s| ==> !IsWhite(s[|s| - k - 1])
  {
    if |s| > 0 && IsWhite(s[|s| - 1]) then
      var init := s[..|s| - 1];
      var k' := TrailingWhite(init);
      assert s[|s| - (k' + 1)..] == init[|init| - k'..] + [s[|s| - 1]];
      k' + 1
    else 0
  }

  /** `s.trim()`: `s` without its leading and trailing white space. */
  function Trim(s: string): string {
    var t := s[LeadingWhite(s)..];
    t[..|t| - TrailingWhite(t)]
  }

  /** What `trim` returns: a contiguous piece of `s`, everything around it white,
      and neither end of it white. */
  lemma TrimSpec(s: string)
    ensures exists a, b :: 0 <= a <= b <= |s| && Trim(s) == s[a..b] && AllWhite(s[..a]) && AllWhite(s[b..])
    ensures Trim(s) == [] || (!IsWhite(Trim(s)[0]) && !IsWhite(Trim(s)[|Trim(s)| - 1]))
  {
    var a := LeadingWhite(s);
    var t := s[a..];
    var b := a + |t| - TrailingWhite(t);
    assert Trim(s) == s[a..b];
    assert s[b..] == t[|t| - TrailingWhite(t)..];
    if Trim(s) != [] {
      assert Trim(s)[0] == t[0];
    }
  }

  /** `s.trim()` is empty exactly when `s` is all white space, so `!s.trim()`
      is the source's test for a blank string. */
  lemma TrimEmptyIffBlank(s: string)
    ensures Trim(s) == [] <==> AllWhite(s)
  {
    var a := LeadingWhite(s);
    var t := s[a..];
    var k := TrailingWhite(t);
    assert Trim(s) == t[..|t| - k];
    if Trim(s) == [] {
      assert k == |t| && t[|t| - k..] == t;
      assert a == |s|;
      assert s[..a] == s;
    } else {
      assert a < |s| && !IsWhite(s[a]);
    }
  }

  // ---- decimal text of a non-negative integer

  predicate IsDigit(c: char) {
    '0' <= c <= '9'
  }

  predicate AllDigits(s: string) {
    forall i :: 0 <= i < |s| ==> IsDigit(s[i])
  }

  function DigitChar(d: nat): (c: char)
    requires d < 10
    ensures IsDigit(c) && c as int - '0' as int == d
  {
    (d + '0' as int) as char
  }

  /** The decimal text of `n`, as `${n}` renders a JavaScript array index. */
  function NatToString(n: nat): (s: string)
    ensures |s| >= 1 && AllDigits(s)
  {
    if n < 10 then [DigitChar(n)] else NatToString(n / 10) + [DigitChar(n % 10)]
  }

  /** Reads a string of decimal digits back as a number. */
  function ParseDigits(s: string): nat
    requires AllDigits(s)
  {
    if s == [] then 0
    else ParseDigits(s[..|s| - 1]) * 10 + (s[|s| - 1] as int - '0' as int)
  }

  /** Reading the decimal text of `n` gives back `n`. */
  lemma {:induction false} ParseNatToString(n: nat)
    ensures ParseDigits(NatToString(n)) == n
  {
    var s := NatToString(n);
    if n >= 10 {
      ParseNatToString(n / 10);
      assert s[..|s| - 1] == NatToString(n / 10);
    }
  }

  // ---- splitting at the last '-'

  /** Position of the last `-` in `s`, if there is one. */
  function LastDash(s: string): (r: Option<nat>)
    ensures r.Some? ==> r.value < |s| && s[r.value] == '-'
    ensures r.Some? ==> forall j :: r.value < j < |s| ==> s[j] != '-'
    ensures r.None? ==> forall j :: 0 <= j < |s| ==> s[j] != '-'
  {
    if s == [] then None
    else if s[|s| - 1] == '-' then Some(|s| - 1)
    else LastDash(s[..|s| - 1])
  }

  /** The last `-` of `prefix + "-" + suffix` is the one between them when the
      suffix holds no `-`. */
  lemma LastDashOfJoin(prefix: string, suffix: string)
    requires forall j :: 0 <= j < |suffix| ==> suffix[j] != '-'
    ensures LastDash(prefix + "-" + suffix) == Some(|prefix|)
  {
    var s := prefix + "-" + suffix;
    var r := LastDash(s);
    assert s[|prefix|] == '-';
    assert r.Some?;
  }
}
