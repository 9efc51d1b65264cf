/**
 * The behaviour of the java.lang.String and java.lang.Long operations that the
 * license code relies on: trim, replaceAll of a one-character pattern,
 * equalsIgnoreCase and Long.parseLong / Long.toString.
 */
module JavaStrings {
  import opened Wrappers

  // ---------------------------------------------------------------- trim

  /** String.trim treats every character up to U+0020 as blank. */
  predicate IsBlankChar(c: char) {
    c <= ' '
  }

  predicate AllBlank(s: string) {
    forall i :: 0 <= i < |s| ==> IsBlankChar(s[i])
  }

  /** The number of blank characters at the start of s. */
  function LeadingBlanks(s: string): (n: nat)
    ensures n <= |s|
    ensures forall i :: 0 <= i < n ==> IsBlankChar(s[i])
    ensures n < |s| ==> !IsBlankChar(s[n])
  {
    if s == [] || !IsBlankChar(s[0]) then 0 else 1 + LeadingBlanks(s[1..])
  }

  /** The number of blank characters at the end of s. */
  function TrailingBlanks(s: string): (n: nat)
    ensures n <= |s|
    ensures forall i :: |s| - n <= i < |s| ==> IsBlankChar(s[i])
    ensures n < |s| ==> !IsBlankChar(s[|s| - 1 - n])
  {
    if s == [] || !IsBlankChar(s[|s| - 1]) then 0 else 1 + TrailingBlanks(s[..|s| - 1])
  }

  /**
   * String.trim: the slice of s left after dropping its leading and trailing
   * blanks. It is empty exactly when s is all blank.
   */
  function Trim(s: string): (r: string)
    ensures r == [] || (!IsBlankChar(r[0]) && !IsBlankChar(r[|r| - 1]))
    ensures r == [] <==> AllBlank(s)
    ensures exists k :: 0 <= k <= |s| - |r| && s[k..k + |r|] == r && AllBlank(s[..k]) && AllBlank(s[k + |r|..])
  {
    var lead := LeadingBlanks(s);
    var rest := s[lead..];
    var trail := TrailingBlanks(rest);
    var r := rest[..|rest| - trail];
    assert s[lead..lead + |r|] == r;
    assert AllBlank(s[..lead]);
    var tail := s[lead + |r|..];
    assert tail == rest[|rest| - trail..];
    assert AllBlank(tail) by {
      forall j | 0 <= j < |tail| ensures IsBlankChar(tail[j]) {
        assert tail[j] == rest[|rest| - trail + j];
      }
    }
    r
  }

  /** Trimming a trimmed string changes nothing. */
  lemma TrimIdempotent(s: string)
    ensures Trim(Trim(s)) == Trim(s)
  {
  }

  // ---------------------------------------------------------------- replaceAll

  /** s.replaceAll(p, "") where the pattern p matches exactly the character c. */
  function RemoveAll(s: string, c: char): (r: string)
    ensures c !in r
    ensures forall d :: d in r ==> d in s
    ensures forall d :: d != c ==> multiset(r)[d] == multiset(s)[d]
  {
    if s == [] then []
    else
      assert s == [s[0]] + s[1..];
      (if s[0] == c then [] else [s[0]]) + RemoveAll(s[1..], c)
  }

  /** Removal works piece by piece, so the characters kept stay in their order. */
  lemma {:induction false} RemoveAllConcat(a: string, b: string, c: char)
    ensures RemoveAll(a + b, c) == RemoveAll(a, c) + RemoveAll(b, c)
  {
    if a == [] {
      assert a + b == b;
    } else {
      assert (a + b)[1..] == a[1..] + b;
      RemoveAllConcat(a[1..], b, c);
    }
  }

  /** A string without c is left as it is. */
  lemma {:induction false} RemoveAllAbsent(s: string, c: char)
    requires c !in s
    ensures RemoveAll(s, c) == s
  {
    if s != [] {
      assert c !in s[1..];
      RemoveAllAbsent(s[1..], c);
    }
  }

  /**
   * The license text read from a file in the plugin location:
   * replaceAll("\n", "").replaceAll("\r", "").replaceAll(" ", "").
   */
  function StripLicenseText(s: string): (r: string)
    ensures '\n' !in r && '\r' !in r && ' ' !in r
    ensures forall d :: d !in "\n\r " ==> multiset(r)[d] == multiset(s)[d]
  {
    RemoveAll(RemoveAll(RemoveAll(s, '\n'), '\r'), ' ')
  }

  /** Stripping an already stripped license text changes nothing. */
  lemma StripLicenseTextIdempotent(s: string)
    ensures StripLicenseText(StripLicenseText(s)) == StripLicenseText(s)
  {
    var r := StripLicenseText(s);
    RemoveAllAbsent(r, '\n');
    RemoveAllAbsent(r, '\r');
    RemoveAllAbsent(r, ' ');
  }

  // ---------------------------------------------------------------- equalsIgnoreCase

  /** Character.toUpperCase, for the Latin letters a to z. */
  function ToUpperAscii(c: char): char {
    if 'a' <= c <= 'z' then (c as int - 32) as char else c
  }

  /** Character.toLowerCase, for the Latin letters A to Z. */
  function ToLowerAscii(c: char): char {
    if 'A' <= c <= 'Z' then (c as int + 32) as char else c
  }

  /**
   * The test String.regionMatches(true, ...) applies to one pair of characters:
   * equal, or equal once upper-cased, or equal once upper- then lower-cased.
   */
  predicate CharEqualsIgnoreCase(a: char, b: char) {
    || a == b
    || ToUpperAscii(a) == ToUpperAscii(b)
    || ToLowerAscii(ToUpperAscii(a)) == ToLowerAscii(ToUpperAscii(b))
  }

  predicate RegionMatchesIgnoreCase(a: string, b: string)
    requires |a| == |b|
  {
    a == [] || (CharEqualsIgnoreCase(a[0], b[0]) && RegionMatchesIgnoreCase(a[1..], b[1..]))
  }

  /** String.equalsIgnoreCase between two non-null strings. */
  predicate EqualsIgnoreCase(a: string, b: string) {
    |a| == |b| && RegionMatchesIgnoreCase(a, b)
  }

  /** The string with every letter A to Z lower-cased: the reference for comparing without case. */
  function LowerCase(s: string): (r: string)
    ensures |r| == |s|
  {
    if s == [] then [] else [ToLowerAscii(s[0])] + LowerCase(s[1..])
  }

  lemma CharEqualsIgnoreCaseIffSameLower(a: char, b: char)
    ensures CharEqualsIgnoreCase(a, b) <==> ToLowerAscii(a) == ToLowerAscii(b)
  {
  }

  /** equalsIgnoreCase holds exactly when both strings lower-case to the same string. */
  lemma {:induction false} EqualsIgnoreCaseIffSameLowerCase(a: string, b: string)
    ensures EqualsIgnoreCase(a, b) <==> LowerCase(a) == LowerCase(b)
  {
    if |a| == |b| && a != [] {
      EqualsIgnoreCaseIffSameLowerCase(a[1..], b[1..]);
      CharEqualsIgnoreCaseIffSameLower(a[0], b[0]);
      var la, lb := LowerCase(a), LowerCase(b);
      assert la == [ToLowerAscii(a[0])] + LowerCase(a[1..]);
      assert lb == [ToLowerAscii(b[0])] + LowerCase(b[1..]);
      if la == lb {
        assert la[0] == lb[0];
        assert la[1..] == lb[1..];
      }
    } else if |a| != |b| {
      assert |LowerCase(a)| != |LowerCase(b)|;
    }
  }

  // ---------------------------------------------------------------- Long.parseLong

  const LONG_MIN: int := -0x8000_0000_0000_0000
  const LONG_MAX: int := 0x7FFF_FFFF_FFFF_FFFF

  predicate IsDigit(c: char) {
    '0' <= c <= '9'
  }

  predicate AllDigits(s: string) {
    forall i :: 0 <= i < |s| ==> IsDigit(s[i])
  }

  /** The value of a run of decimal digits, accumulated left to right. */
  function DigitsValue(s: string): nat
    requires AllDigits(s)
  {
    if s == [] then 0 else 10 * DigitsValue(s[..|s| - 1]) + (s[|s| - 1] as int - '0' as int)
  }

  /** The message of NumberFormatException.forInputString. */
  function NumberFormatMessage(s: string): string {
    "For input string: \"" + s + "\""
  }

  /** An optional '+' or '-' followed by at least one decimal digit. */
  predicate IsDecimalLiteral(s: string) {
    |s| > 0 &&
    if s[0] == '-' || s[0] == '+' then |s| > 1 && AllDigits(s[1..]) else AllDigits(s)
  }

  /** The value an optional sign and a run of digits denote. */
  function SignedDigitsValue(s: string): int
    requires IsDecimalLiteral(s)
  {
    if s[0] == '-' then -(DigitsValue(s[1..]) as int)
    else if s[0] == '+' then DigitsValue(s[1..])
    else DigitsValue(s)
  }

  /**
   * Long.parseLong(s, 10): a decimal literal whose value fits in 64 bits, or
   * a NumberFormatException naming the input.
   */
  function ParseLong(s: string): (r: Result<int, string>)
    ensures r.Ok? <==> IsDecimalLiteral(s) && LONG_MIN <= SignedDigitsValue(s) <= LONG_MAX
    ensures r.Ok? ==> r.value == SignedDigitsValue(s) && LONG_MIN <= r.value <= LONG_MAX
    ensures r.Ok? && s[0] == '-' ==> r.value <= 0
    ensures r.Ok? && s[0] != '-' ==> r.value >= 0
    ensures r.Err? ==> r.error == NumberFormatMessage(s)
  {
    if |s| == 0 then Err(NumberFormatMessage(s))
    else
      var signed := s[0] == '-' || s[0] == '+';
      if signed && |s| == 1 then Err(NumberFormatMessage(s))
      else
        var digits := if signed then s[1..] else s;
        if !AllDigits(digits) then Err(NumberFormatMessage(s))
        else
          var v: int := if s[0] == '-' then -(DigitsValue(digits) as int) else DigitsValue(digits);
          if LONG_MIN <= v <= LONG_MAX then Ok(v) else Err(NumberFormatMessage(s))
  }

  function DigitChar(d: nat): (c: char)
    requires d < 10
    ensures IsDigit(c) && c as int - '0' as int == d
  {
    ('0' as int + d) as char
  }

  /** The decimal digits of n, without leading zeros. */
  function NatToString(n: nat): (r: string)
    ensures |r| > 0 && AllDigits(r)
  {
    if n < 10 then [DigitChar(n)] else NatToString(n / 10) + [DigitChar(n % 10)]
  }

  /** Long.toString(n). */
  function LongToString(n: int): string {
    if n < 0 then "-" + NatToString(-n) else NatToString(n)
  }

  lemma {:induction false} DigitsValueOfNatToString(n: nat)
    ensures DigitsValue(NatToString(n)) == n
  {
    if n >= 10 {
      var s := NatToString(n);
      DigitsValueOfNatToString(n / 10);
      assert s[..|s| - 1] == NatToString(n / 10);
    }
  }

  /** Appending a zero digit multiplies by ten. */
  lemma NatToStringTimesTen(n: nat)
    requires n > 0
    ensures NatToString(10 * n) == NatToString(n) + "0"
  {
  }

  function Pow10(k: nat): nat {
    if k == 0 then 1 else 10 * Pow10(k - 1)
  }

  function Zeros(k: nat): string {
    seq(k, _ => '0')
  }

  /** A power of ten is written as "1" and then its zeros. */
  lemma {:induction false} NatToStringOfPow10(k: nat)
    ensures Pow10(k) > 0
    ensures NatToString(Pow10(k)) == "1" + Zeros(k)
  {
    if k > 0 {
      NatToStringOfPow10(k - 1);
      NatToStringTimesTen(Pow10(k - 1));
      assert Zeros(k) == Zeros(k - 1) + "0";
      assert "1" + Zeros(k) == ("1" + Zeros(k - 1)) + "0";
    }
  }

  /** Every 64-bit value written out by Long.toString is read back by Long.parseLong. */
  lemma ParseLongOfLongToString(n: int)
    requires LONG_MIN <= n <= LONG_MAX
    ensures ParseLong(LongToString(n)) == Ok(n)
  {
    var s := LongToString(n);
    if n < 0 {
      var t := NatToString(-n);
      assert s[0] == '-' && s[1..] == t;
      DigitsValueOfNatToString(-n);
      assert IsDecimalLiteral(s) && SignedDigitsValue(s) == n;
    } else {
      assert IsDigit(s[0]);
      DigitsValueOfNatToString(n);
      assert IsDecimalLiteral(s) && SignedDigitsValue(s) == n;
    }
  }

}
