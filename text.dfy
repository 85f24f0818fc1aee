/** The few java.lang.String behaviours the service depends on, written out:
    decimal rendering of a non-negative int (`%d`, `%02d`), `trim()` and
    `equalsIgnoreCase`. */
module Text {

  predicate IsDigit(c: char) {
    '0' <= c <= '9'
  }

  predicate AllDigits(s: string) {
    forall i :: 0 <= i < |s| ==> IsDigit(s[i])
  }

  function DigitValue(c: char): nat
    requires IsDigit(c)
  {
    c as int - '0' as int
  }

  function DigitChar(d: nat): (c: char)
    requires d < 10
    ensures IsDigit(c) && DigitValue(c) == d
  {
    ('0' as int + d) as char
  }

  /** The decimal digits of `n`, most significant first, without leading
      zeros: what `Integer.toString` and `%d` print for a non-negative int. */
  function NatToDecimal(n: nat): (s: string)
    ensures |s| >= 1 && AllDigits(s)
    ensures |s| > 1 ==> s[0] != '0'
    ensures n < 10 <==> |s| == 1
  {
    if n < 10 then [DigitChar(n)] else NatToDecimal(n / 10) + [DigitChar(n % 10)]
  }

  /** The number a string of decimal digits denotes (leading zeros allowed). */
  function DecimalValue(s: string): nat
    requires AllDigits(s)
  {
    if s == [] then 0 else DecimalValue(s[..|s| - 1]) * 10 + DigitValue(s[|s| - 1])
  }

  lemma {:induction false} DecimalRoundTrip(n: nat)
    ensures DecimalValue(NatToDecimal(n)) == n
  {
    if n >= 10 {
      var s := NatToDecimal(n);
      assert s[..|s| - 1] == NatToDecimal(n / 10);
      DecimalRoundTrip(n / 10);
    }
  }

  /** `String.format("%02d", n)` for a non-negative `n`: the decimal digits,
      left-padded with '0' to a width of at least two. */
  function Ordinal(n: nat): (r: string)
    ensures |r| >= 2 && AllDigits(r)
  {
    var digits := NatToDecimal(n);
    if |digits| < 2 then "0" + digits else digits
  }

  /** The padded ordinal is all digits, at least two wide, denotes `n`, and
      ends with the unpadded digits of `n`: it widens and is never cut. */
  lemma OrdinalFormat(n: nat)
    ensures AllDigits(Ordinal(n))
    ensures |Ordinal(n)| == if n < 10 then 2 else |NatToDecimal(n)|
    ensures Ordinal(n)[|Ordinal(n)| - |NatToDecimal(n)|..] == NatToDecimal(n)
    ensures n < 10 ==> Ordinal(n)[0] == '0'
    ensures DecimalValue(Ordinal(n)) == n
  {
    DecimalRoundTrip(n);
    var o := Ordinal(n);
    if n < 10 {
      assert o[..1] == "0";
    }
  }

  lemma OrdinalInjective(m: nat, n: nat)
    requires Ordinal(m) == Ordinal(n)
    ensures m == n
  {
    OrdinalFormat(m);
    OrdinalFormat(n);
  }

  /** The longest prefix of `s` made of decimal digits. */
  function LeadingDigits(s: string): (r: string)
    ensures |r| <= |s| && r == s[..|r|] && AllDigits(r)
    ensures |r| < |s| ==> !IsDigit(s[|r|])
  {
    if s != [] && IsDigit(s[0]) then [s[0]] + LeadingDigits(s[1..]) else []
  }

  lemma {:induction false} LeadingDigitsOf(d: string, rest: string)
    requires AllDigits(d)
    requires rest != [] ==> !IsDigit(rest[0])
    ensures LeadingDigits(d + rest) == d
  {
    if d != [] {
      assert (d + rest)[1..] == d[1..] + rest;
      LeadingDigitsOf(d[1..], rest);
    }
  }

  /** Characters `String.trim()` removes: every code unit up to U+0020. */
  predicate IsTrimmable(c: char) {
    c <= ' '
  }

  predicate IsBlank(s: string) {
    forall i :: 0 <= i < |s| ==> IsTrimmable(s[i])
  }

  /** `s` without its leading trimmable characters. */
  function TrimStart(s: string): (r: string)
    ensures |r| <= |s| && r == s[|s| - |r|..]
    ensures forall k :: 0 <= k < |s| - |r| ==> IsTrimmable(s[k])
    ensures r != [] ==> !IsTrimmable(r[0])
  {
    if s != [] && IsTrimmable(s[0]) then TrimStart(s[1..]) else s
  }

  /** `s` without its trailing trimmable characters. */
  function TrimEnd(s: string): (r: string)
    ensures |r| <= |s| && r == s[..|r|]
    ensures forall k :: |r| <= k < |s| ==> IsTrimmable(s[k])
    ensures r != [] ==> !IsTrimmable(r[|r| - 1])
  {
    if s != [] && IsTrimmable(s[|s| - 1]) then TrimEnd(s[..|s| - 1]) else s
  }

  /** `String.trim()`. */
  function Trim(s: string): string {
    TrimEnd(TrimStart(s))
  }

  /** `s.trim().isEmpty()` holds exactly for the strings made only of
      trimmable characters (the empty string included). */
  lemma TrimEmptyIffBlank(s: string)
    ensures Trim(s) == [] <==> IsBlank(s)
  {
  }

  /** A string with nothing trimmable at either end is its own trim. */
  lemma TrimFixed(u: string)
    requires u != [] ==> !IsTrimmable(u[0]) && !IsTrimmable(u[|u| - 1])
    ensures Trim(u) == u
  {
    assert TrimStart(u) == u;
    assert TrimEnd(u) == u;
  }

  /** A trimmed string is a piece of the original with nothing trimmable at
      either end, and trimming it again changes nothing. */
  lemma TrimShape(s: string)
    ensures Trim(s) != [] ==> !IsTrimmable(Trim(s)[0]) && !IsTrimmable(Trim(s)[|Trim(s)| - 1])
    ensures Trim(Trim(s)) == Trim(s)
    ensures exists i, j :: 0 <= i <= j <= |s| && Trim(s) == s[i..j]
  {
    var t := TrimStart(s);
    var u := TrimEnd(t);
    var i := |s| - |t|;
    assert u == s[i..][..|u|] == s[i..i + |u|];
    if u != [] {
      assert u[0] == t[0];
    }
    TrimFixed(u);
  }

  function ToUpperAscii(c: char): char {
    if 'a' <= c <= 'z' then (c as int - 32) as char else c
  }

  function ToLowerAscii(c: char): char {
    if 'A' <= c <= 'Z' then (c as int + 32) as char else c
  }

  /** The per-character test of `String.equalsIgnoreCase`, with case mapping
      restricted to ASCII letters. */
  predicate CharEqualsIgnoreCase(a: char, b: char) {
    || a == b
    || ToUpperAscii(a) == ToUpperAscii(b)
    || ToLowerAscii(ToUpperAscii(a)) == ToLowerAscii(ToUpperAscii(b))
  }

  /** `s.equalsIgnoreCase(t)` for non-null `s` and `t`. */
  predicate EqualsIgnoreCase(s: string, t: string) {
    |s| == |t| && forall i :: 0 <= i < |s| ==> CharEqualsIgnoreCase(s[i], t[i])
  }
}
