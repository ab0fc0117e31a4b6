/**
 * Character-level helpers shared by the snapshot names, the date columns and
 * the query filters: ASCII digits, zero padding, ASCII case folding,
 * substring and suffix tests, and the code-point order on strings.
 */
module Strings {
  import opened Wrappers

  predicate IsDigit(c: char) { '0' <= c <= '9' }

  /** Python's str.isdigit, restricted to ASCII: non-empty and every character a digit. */
  predicate IsDigits(s: string) {
    |s| > 0 && forall i :: 0 <= i < |s| ==> IsDigit(s[i])
  }

  predicate AllDigits(s: string) {
    forall i :: 0 <= i < |s| ==> IsDigit(s[i])
  }

  function DigitChar(d: nat): (c: char)
    requires d < 10
    ensures IsDigit(c) && c as int - '0' as int == d
  {
    ('0' as int + d) as char
  }

  function DigitValue(c: char): nat
    requires IsDigit(c)
  {
    c as int - '0' as int
  }

  /** The decimal value of a string of digits, as Python's int() gives it. */
  function ParseNat(s: string): nat
    requires AllDigits(s)
  {
    if s == [] then 0 else 10 * ParseNat(s[..|s| - 1]) + DigitValue(s[|s| - 1])
  }

  /** Two-digit zero padding, as strftime's %d, %m, %H and %M give it. */
  function Pad2(n: nat): (s: string)
    requires n < 100
    ensures |s| == 2 && AllDigits(s)
  {
    [DigitChar(n / 10), DigitChar(n % 10)]
  }

  /** Four-digit zero padding, as strftime's %Y gives it for years 1000 to 9999. */
  function Pad4(n: nat): (s: string)
    requires n < 10000
    ensures |s| == 4 && AllDigits(s)
  {
    [DigitChar(n / 1000), DigitChar(n / 100 % 10), DigitChar(n / 10 % 10), DigitChar(n % 10)]
  }

  lemma ParsePad2(n: nat)
    requires n < 100
    ensures ParseNat(Pad2(n)) == n
  {
    var s := Pad2(n);
    assert s[..1][..0] == [];
    assert ParseNat(s[..1]) == n / 10;
  }

  lemma ParsePad4(n: nat)
    requires n < 10000
    ensures ParseNat(Pad4(n)) == n
  {
    var s := Pad4(n);
    var a, b, c, d := n / 1000, n / 100 % 10, n / 10 % 10, n % 10;
    assert n / 100 == 10 * a + b;
    assert n / 10 == 10 * (n / 100) + c;
    assert n == 10 * (n / 10) + d;
    assert s[..1][..0] == [];
    assert s[..2][..1] == s[..1];
    assert s[..3][..2] == s[..2];
    assert s[..4] == s;
    assert ParseNat(s[..1]) == a;
    assert ParseNat(s[..2]) == 10 * a + b;
    assert ParseNat(s[..3]) == n / 10;
  }

  /** The position of the first c in s, or |s| when there is none. */
  function Find(s: string, c: char): (i: nat)
    ensures i <= |s|
    ensures i < |s| ==> s[i] == c
    ensures forall j :: 0 <= j < i ==> s[j] != c
  {
    if s == [] || s[0] == c then 0 else 1 + Find(s[1..], c)
  }

  function Pow10(n: nat): (p: nat)
    ensures p > 0
  {
    if n == 0 then 1 else 10 * Pow10(n - 1)
  }

  /** PostgreSQL's reading of a text as an `integer`: an optional '-' and one or more digits. */
  function ParseInteger(s: string): Option<int> {
    if IsDigits(s) then Some(ParseNat(s))
    else if |s| > 1 && s[0] == '-' && IsDigits(s[1..]) then Some(-(ParseNat(s[1..]) as int))
    else None
  }

  /** Digits with an optional fractional part ("12", "12.5", "12.", ".5"), at least one digit in all. */
  function ParseUnsignedDecimal(s: string): Option<real> {
    var i := Find(s, '.');
    var whole, fraction := s[..i], if i < |s| then s[i + 1..] else [];
    if AllDigits(whole) && AllDigits(fraction) && |whole| + |fraction| > 0 then
      Some(ParseNat(whole) as real + ParseNat(fraction) as real / Pow10(|fraction|) as real)
    else None
  }

  /** PostgreSQL's reading of a text as a `double precision`: an optional '-' and a decimal. */
  function ParseDecimal(s: string): Option<real> {
    if |s| > 0 && s[0] == '-' then
      match ParseUnsignedDecimal(s[1..])
      case Some(x) => Some(-x)
      case None => None
    else ParseUnsignedDecimal(s)
  }

  /** ASCII lower-casing, the folding PostgreSQL's ILIKE applies under the C locale. */
  function LowerChar(c: char): char {
    if 'A' <= c <= 'Z' then (c as int + 32) as char else c
  }

  function Lower(s: string): (r: string)
    ensures |r| == |s|
    ensures forall i :: 0 <= i < |s| ==> r[i] == LowerChar(s[i])
  {
    if s == [] then [] else [LowerChar(s[0])] + Lower(s[1..])
  }

  /** True when sub occurs in s at some position. */
  predicate Contains(s: string, sub: string) {
    exists i :: 0 <= i <= |s| - |sub| && sub <= s[i..]
  }

  predicate EndsWith(s: string, suffix: string) {
    |suffix| <= |s| && s[|s| - |suffix|..] == suffix
  }

  /** Code-point lexicographic order (the C collation). */
  predicate StrLeq(a: string, b: string) {
    if a == [] then true
    else if b == [] then false
    else if a[0] != b[0] then a[0] < b[0]
    else StrLeq(a[1..], b[1..])
  }

  lemma {:induction false} StrLeqTotal(a: string, b: string)
    ensures StrLeq(a, b) || StrLeq(b, a)
  {
    if a != [] && b != [] && a[0] == b[0] {
      StrLeqTotal(a[1..], b[1..]);
    }
  }

  lemma {:induction false} StrLeqTransitive(a: string, b: string, c: string)
    requires StrLeq(a, b) && StrLeq(b, c)
    ensures StrLeq(a, c)
  {
    if a != [] && b != [] && c != [] && a[0] == b[0] && b[0] == c[0] {
      StrLeqTransitive(a[1..], b[1..], c[1..]);
    }
  }

  lemma {:induction false} StrLeqAntisymmetric(a: string, b: string)
    requires StrLeq(a, b) && StrLeq(b, a)
    ensures a == b
  {
    if a != [] && b != [] {
      StrLeqAntisymmetric(a[1..], b[1..]);
    }
  }
}
