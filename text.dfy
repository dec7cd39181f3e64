/**
 * The few JavaScript string operations the view-models rely on, over
 * `string` = `seq<char>`: `startsWith`/`endsWith`, `trim`, `split(sep)[0]`,
 * `charAt(0).toUpperCase()` on ASCII, and the decimal rendering of integers
 * that template literals and `toString()` produce.
 */
module Text {

  /** `s.startsWith(prefix)`. */
  predicate StartsWith(s: string, prefix: string) {
    prefix <= s
  }

  /** `s.endsWith(suffix)`. */
  predicate EndsWith(s: string, suffix: string) {
    |suffix| <= |s| && s[|s| - |suffix|..] == suffix
  }

  lemma EndsWithAppend(a: string, b: string)
    ensures EndsWith(a + b, b)
  {
    assert (a + b)[|a + b| - |b|..] == b;
  }

  /**
   * The characters `String.prototype.trim` removes: ECMAScript's WhiteSpace
   * (tab, vertical tab, form feed, ZERO WIDTH NO-BREAK SPACE and the Unicode
   * space separators) and LineTerminator (LF, CR, LS, PS).
   */
  predicate IsJsWhitespace(c: char) {
    c == '\t' || c == '\n' || c == '\U{000B}' || c == '\U{000C}' || c == '\r' ||
    c == ' ' || c == '\U{00A0}' || c == '\U{1680}' ||
    ('\U{2000}' <= c <= '\U{200A}') ||
    c == '\U{2028}' || c == '\U{2029}' || c == '\U{202F}' || c == '\U{205F}' ||
    c == '\U{3000}' || c == '\U{FEFF}'
  }

  function TrimStart(s: string): (r: string)
    ensures |r| <= |s| && r == s[|s| - |r|..]
    ensures |r| > 0 ==> !IsJsWhitespace(r[0])
  {
    if s == [] || !IsJsWhitespace(s[0]) then s else TrimStart(s[1..])
  }

  function TrimEnd(s: string): (r: string)
    ensures |r| <= |s| && r == s[..|r|]
    ensures |r| > 0 ==> !IsJsWhitespace(r[|r| - 1])
  {
    if s == [] || !IsJsWhitespace(s[|s| - 1]) then s else TrimEnd(s[..|s| - 1])
  }

  /** `s.trim()`. */
  function Trim(s: string): string {
    TrimEnd(TrimStart(s))
  }

  /** A string trims to `''` exactly when every character of it is whitespace. */
  lemma {:induction false} TrimEmptyIff(s: string)
    ensures Trim(s) == [] <==> forall i :: 0 <= i < |s| ==> IsJsWhitespace(s[i])
  {
    TrimStartEmptyIff(s);
    TrimEndEmptyIff(TrimStart(s));
  }

  lemma {:induction false} TrimStartEmptyIff(s: string)
    ensures TrimStart(s) == [] <==> forall i :: 0 <= i < |s| ==> IsJsWhitespace(s[i])
  {
    if s != [] && IsJsWhitespace(s[0]) {
      TrimStartEmptyIff(s[1..]);
      assert forall i :: 1 <= i < |s| ==> s[i] == s[1..][i - 1];
    }
  }

  lemma {:induction false} TrimEndEmptyIff(s: string)
    ensures TrimEnd(s) == [] <==> forall i :: 0 <= i < |s| ==> IsJsWhitespace(s[i])
  {
    if s != [] && IsJsWhitespace(s[|s| - 1]) {
      TrimEndEmptyIff(s[..|s| - 1]);
    }
  }

  /**
   * `s.split(sep)[0]`: the part of `s` before the first occurrence of the
   * (non-empty) separator, or all of `s` when it does not occur.
   */
  function BeforeFirst(s: string, sep: string): (r: string)
    requires |sep| > 0
    ensures r <= s
    ensures forall i :: 0 <= i < |r| ==> !(sep <= s[i..])
    ensures |r| == |s| || sep <= s[|r|..]
  {
    if sep <= s || s == [] then []
    else
      var rest := BeforeFirst(s[1..], sep);
      assert forall i :: 1 <= i <= |s| ==> s[i..] == s[1..][i - 1..];
      [s[0]] + rest
  }

  /** `c.toUpperCase()` for the ASCII letters the page names use. */
  function AsciiUpper(c: char): char {
    if 'a' <= c <= 'z' then (c as int - 'a' as int + 'A' as int) as char else c
  }

  /** `s.charAt(0).toUpperCase() + s.slice(1)`. */
  function Capitalize(s: string): (r: string)
    ensures |r| == |s|
    ensures |s| > 0 ==> r[0] == AsciiUpper(s[0]) && r[1..] == s[1..]
  {
    if s == [] then [] else [AsciiUpper(s[0])] + s[1..]
  }

  function DigitChar(d: int): char
    requires 0 <= d < 10
  {
    ('0' as int + d) as char
  }

  predicate IsDigit(c: char) {
    '0' <= c <= '9'
  }

  /** The decimal rendering of a natural number, as `String(n)` gives it. */
  function NatToDecimal(n: nat): (r: string)
    ensures |r| > 0
    ensures forall i :: 0 <= i < |r| ==> IsDigit(r[i])
    ensures r[0] == '0' ==> n == 0
  {
    if n < 10 then [DigitChar(n)] else NatToDecimal(n / 10) + [DigitChar(n % 10)]
  }

  /** The decimal rendering of an integer: a minus sign before a negative magnitude. */
  function IntToDecimal(n: int): (r: string)
    ensures |r| > 0
    ensures r[0] == '-' <==> n < 0
  {
    if n < 0 then "-" + NatToDecimal(-n) else NatToDecimal(n)
  }

  /** Reading a rendering back digit by digit recovers the number. */
  function DecimalValue(s: string): (v: nat)
    requires forall i :: 0 <= i < |s| ==> IsDigit(s[i])
  {
    if s == [] then 0
    else
      assert IsDigit(s[|s| - 1]);
      10 * DecimalValue(s[..|s| - 1]) + (s[|s| - 1] as int - '0' as int)
  }

  lemma {:induction false} NatToDecimalRoundTrip(n: nat)
    ensures DecimalValue(NatToDecimal(n)) == n
  {
    var r := NatToDecimal(n);
    if n >= 10 {
      NatToDecimalRoundTrip(n / 10);
      assert r[..|r| - 1] == NatToDecimal(n / 10);
    }
  }

  /** Distinct numbers render differently. */
  lemma NatToDecimalInjective(m: nat, n: nat)
    requires m != n
    ensures NatToDecimal(m) != NatToDecimal(n)
  {
    NatToDecimalRoundTrip(m);
    NatToDecimalRoundTrip(n);
  }

  /** Distinct integers render differently, the sign included. */
  lemma IntToDecimalInjective(m: int, n: int)
    requires m != n
    ensures IntToDecimal(m) != IntToDecimal(n)
  {
    if m < 0 && n < 0 {
      NatToDecimalInjective(-m, -n);
      assert IntToDecimal(m)[1..] == NatToDecimal(-m);
      assert IntToDecimal(n)[1..] == NatToDecimal(-n);
    } else if m >= 0 && n >= 0 {
      NatToDecimalInjective(m, n);
    }
  }

  /** `${a}-${b}` for two naturals. */
  function DashJoin(a: nat, b: nat): string {
    NatToDecimal(a) + "-" + NatToDecimal(b)
  }

  /** A dash-joined pair of numbers determines both numbers: digits never contain the dash. */
  lemma DashJoinInjective(a1: nat, b1: nat, a2: nat, b2: nat)
    requires DashJoin(a1, b1) == DashJoin(a2, b2)
    ensures a1 == a2 && b1 == b2
  {
    var x, y := NatToDecimal(a1), NatToDecimal(a2);
    var s := DashJoin(a1, b1);
    assert s[|x|] == '-';
    assert s[|y|] == '-';
    if |x| != |y| {
      assert false;
    }
    assert x == s[..|x|] == y;
    assert NatToDecimal(b1) == s[|x| + 1..] == NatToDecimal(b2);
    if a1 != a2 {
      NatToDecimalInjective(a1, a2);
    }
    if b1 != b2 {
      NatToDecimalInjective(b1, b2);
    }
  }

  /** `split(sep)[0]` is the prefix up to the first position where `sep` occurs. */
  lemma BeforeFirstAt(s: string, sep: string, k: int)
    requires |sep| > 0 && 0 <= k <= |s| && sep <= s[k..]
    requires forall i :: 0 <= i < k ==> !(sep <= s[i..])
    ensures BeforeFirst(s, sep) == s[..k]
  {
  }

  /** A two-character separator cannot start where its first or its second character is missing. */
  lemma NoPairBefore(s: string, sep: string, k: int)
    requires |sep| == 2 && 0 <= k < |s|
    requires forall i :: 0 <= i < k ==> s[i] != sep[0] || s[i + 1] != sep[1]
    ensures forall i :: 0 <= i < k ==> !(sep <= s[i..])
  {
    forall i | 0 <= i < k
      ensures !(sep <= s[i..])
    {
      assert s[i..][0] == s[i] && s[i..][1] == s[i + 1];
    }
  }
}
