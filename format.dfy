/** Python's "%d" formatting of naturals, its inverse, and ASCII str.upper(). */
module Format {

  predicate IsDigit(c: char) {
    '0' <= c <= '9'
  }

  function DigitChar(d: nat): (c: char)
    requires d < 10
    ensures IsDigit(c) && c as int - '0' as int == d
  {
    ('0' as int + d) as char
  }

  /** "%d" % n: decimal digits, most significant first, no leading zero. */
  function NatToString(n: nat): (s: string)
    ensures |s| > 0 && forall i :: 0 <= i < |s| ==> IsDigit(s[i])
    ensures |s| > 1 ==> s[0] != '0'
    decreases n
  {
    if n < 10 then [DigitChar(n)]
    else NatToString(n / 10) + [DigitChar(n % 10)]
  }

  /** The value of a string of decimal digits. */
  function DigitsValue(ds: string): nat
    requires forall i :: 0 <= i < |ds| ==> IsDigit(ds[i])
  {
    if |ds| == 0 then 0
    else assert IsDigit(ds[|ds| - 1]); DigitsValue(ds[..|ds| - 1]) * 10 + (ds[|ds| - 1] as int - '0' as int)
  }

  /** The number of decimal digits at the front of s. */
  function LeadingDigits(s: string): (k: nat)
    ensures k <= |s|
    ensures forall i :: 0 <= i < k ==> IsDigit(s[i])
    ensures k < |s| ==> !IsDigit(s[k])
  {
    if |s| > 0 && IsDigit(s[0]) then 1 + LeadingDigits(s[1..]) else 0
  }

  /** The number written at the front of s (0 when s does not start with a digit). */
  function ParseLeadingNat(s: string): nat {
    DigitsValue(s[..LeadingDigits(s)])
  }

  lemma {:induction false} DigitsRoundTrip(n: nat)
    ensures DigitsValue(NatToString(n)) == n
    decreases n
  {
    if n >= 10 {
      var s := NatToString(n);
      assert s[..|s| - 1] == NatToString(n / 10);
      DigitsRoundTrip(n / 10);
    }
  }

  lemma {:induction false} LeadingDigitsOfConcat(ds: string, s: string)
    requires forall i :: 0 <= i < |ds| ==> IsDigit(ds[i])
    requires s == [] || !IsDigit(s[0])
    ensures LeadingDigits(ds + s) == |ds|
  {
    if |ds| > 0 {
      assert (ds + s)[1..] == ds[1..] + s;
      LeadingDigitsOfConcat(ds[1..], s);
    } else {
      assert ds + s == s;
    }
  }

  /** Parsing back a formatted number that is followed by a non-digit gives the number. */
  lemma ParseFormatted(n: nat, s: string)
    requires s == [] || !IsDigit(s[0])
    ensures LeadingDigits(NatToString(n) + s) == |NatToString(n)|
    ensures ParseLeadingNat(NatToString(n) + s) == n
  {
    var ds := NatToString(n);
    LeadingDigitsOfConcat(ds, s);
    assert (ds + s)[..|ds|] == ds;
    DigitsRoundTrip(n);
  }

  function UpperChar(c: char): char {
    if 'a' <= c <= 'z' then (c as int - 32) as char else c
  }

  /** str.upper() on ASCII letters; every other character is kept. */
  function Upper(s: string): (u: string)
    ensures |u| == |s|
    ensures forall i :: 0 <= i < |s| ==> u[i] == UpperChar(s[i])
  {
    seq(|s|, i requires 0 <= i < |s| => UpperChar(s[i]))
  }

  /** The characters that upper() maps to t: t itself, and its lower-case form when t is a capital. */
  predicate UpperOf(c: char, t: char) {
    c == t || ('A' <= t <= 'Z' && c as int == t as int + 32)
  }
}
