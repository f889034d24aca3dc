/** Decimal digits: Python's str(n) for n >= 0, and the digit runs that the regular expression \d+ matches. */
module Decimal {

  predicate IsDigit(c: char) { '0' <= c <= '9' }

  predicate AllDigits(s: string) { forall i :: 0 <= i < |s| ==> IsDigit(s[i]) }

  function DigitChar(d: nat): (c: char)
    requires d < 10
    ensures IsDigit(c) && c as int - '0' as int == d
  {
    ('0' as int + d) as char
  }

  function DigitValue(c: char): (d: nat)
    requires IsDigit(c)
    ensures d < 10
  {
    c as int - '0' as int
  }

  /** str(n): the shortest decimal rendering of n, without sign or leading zero. */
  function NatToString(n: nat): (s: string)
    ensures |s| > 0 && AllDigits(s)
    ensures s[0] == '0' ==> n == 0
    decreases n
  {
    if n < 10 then [DigitChar(n)] else NatToString(n / 10) + [DigitChar(n % 10)]
  }

  /** The number a string of decimal digits denotes. */
  function Value(s: string): nat
    requires AllDigits(s)
  {
    if s == [] then 0 else Value(s[..|s| - 1]) * 10 + DigitValue(s[|s| - 1])
  }

  /** Reading back str(n) gives n. */
  lemma {:induction false} ValueOfNatToString(n: nat)
    ensures Value(NatToString(n)) == n
    decreases n
  {
    if n >= 10 {
      var s := NatToString(n);
      assert s[..|s| - 1] == NatToString(n / 10);
      ValueOfNatToString(n / 10);
    }
  }

  /** Distinct numbers have distinct renderings. */
  lemma NatToStringInjective(m: nat, n: nat)
    ensures NatToString(m) == NatToString(n) ==> m == n
  {
    ValueOfNatToString(m);
    ValueOfNatToString(n);
  }

  /** The longest prefix of s made of decimal digits: what a greedy \d+ (or \d*) consumes. */
  function LeadingDigits(s: string): (d: string)
    ensures |d| <= |s| && d == s[..|d|] && AllDigits(d)
    ensures |d| < |s| ==> !IsDigit(s[|d|])
  {
    if s != [] && IsDigit(s[0]) then [s[0]] + LeadingDigits(s[1..]) else []
  }

  /** A digit string followed by text that does not start with a digit is exactly the leading run. */
  lemma LeadingDigitsOfDigitsThen(d: string, t: string)
    requires AllDigits(d)
    requires t != [] ==> !IsDigit(t[0])
    ensures LeadingDigits(d + t) == d
  {
    var r := LeadingDigits(d + t);
    assert forall i :: 0 <= i < |d| ==> (d + t)[i] == d[i];
    assert |d| < |d + t| ==> (d + t)[|d|] == t[0];
    assert |r| == |d|;
    assert (d + t)[..|d|] == d;
  }

  /** Numbered names differ when their numbers differ: prefix + str(m) + suffix determines m. */
  lemma NumberedNameInjective(prefix: string, m: nat, n: nat, suffix: string)
    requires prefix + NatToString(m) + suffix == prefix + NatToString(n) + suffix
    ensures m == n
  {
    var a, b := NatToString(m), NatToString(n);
    var x, y := prefix + a + suffix, prefix + b + suffix;
    assert |a| == |b|;
    assert a == x[|prefix|..|prefix| + |a|];
    assert b == y[|prefix|..|prefix| + |b|];
    NatToStringInjective(m, n);
  }
}
