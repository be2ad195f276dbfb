/** std::to_string for unsigned numbers and strconv.ParseUint in base 10.  Texts are strings
    whose characters stand for single bytes. */
module Decimal {
  import opened Common

  predicate IsDigit(c: char) { '0' <= c <= '9' }

  function Digit(d: nat): (c: char)
    requires d < 10
    ensures IsDigit(c) && (c as int) == '0' as int + d
  {
    ('0' as int + d) as char
  }

  function DigitValue(c: char): (d: nat)
    requires IsDigit(c)
  {
    (c as int) - ('0' as int)
  }

  function ToString(n: nat): (s: string)
    ensures s != [] && forall i :: 0 <= i < |s| ==> IsDigit(s[i])
  {
    if n < 10 then [Digit(n)] else ToString(n / 10) + [Digit(n % 10)]
  }

  /** The value of a digit string read from the left. */
  function Value(s: string): (n: nat)
    requires forall i :: 0 <= i < |s| ==> IsDigit(s[i])
  {
    if s == [] then 0 else 10 * Value(s[..|s| - 1]) + DigitValue(s[|s| - 1])
  }

  /** ParseUint(s, 10, bits): digits only, at least one, and the value must fit. */
  function ParseUint(s: string, max: nat): (r: Option<nat>)
  {
    if s != [] && (forall i :: 0 <= i < |s| ==> IsDigit(s[i])) && Value(s) <= max then Some(Value(s)) else None
  }

  lemma {:induction false} ValueOfToString(n: nat)
    ensures Value(ToString(n)) == n
  {
    var s := ToString(n);
    if n >= 10 {
      ValueOfToString(n / 10);
      assert s[..|s| - 1] == ToString(n / 10);
    } else {
      assert s[..|s| - 1] == [];
    }
  }

  /** Printing and parsing agree up to the width of the parsed type. */
  lemma ParseOfToString(n: nat, max: nat)
    ensures ParseUint(ToString(n), max) == if n <= max then Some(n) else None
  {
    ValueOfToString(n);
  }

  function Pow10(k: nat): nat { if k == 0 then 1 else 10 * Pow10(k - 1) }

  lemma {:induction false} DigitsNeeded(n: nat, k: nat)
    requires k >= 1 && n < Pow10(k)
    ensures |ToString(n)| <= k
  {
    if n >= 10 {
      DigitsNeeded(n / 10, k - 1);
    }
  }

  /** Numerals are read with the most significant digit first. */
  lemma {:induction false} LeadingDigit(c: char, rest: string)
    requires IsDigit(c) && forall i :: 0 <= i < |rest| ==> IsDigit(rest[i])
    ensures Value([c] + rest) == DigitValue(c) * Pow10(|rest|) + Value(rest)
  {
    var s := [c] + rest;
    if rest == [] {
      assert s[..0] == [];
    } else {
      var init := rest[..|rest| - 1];
      assert s[..|s| - 1] == [c] + init;
      LeadingDigit(c, init);
    }
  }

  /** No number is printed with a leading zero. */
  lemma {:induction false} NoLeadingZero(n: nat)
    ensures n > 0 ==> ToString(n)[0] != '0'
  {
    if n >= 10 {
      NoLeadingZero(n / 10);
    }
  }

  const UINT64_MAX: nat := 0xFFFF_FFFF_FFFF_FFFF

  /** Twenty digits are enough for 2^64 and everything below. */
  lemma Uint64Digits(n: nat)
    requires n <= UINT64_MAX + 1
    ensures |ToString(n)| <= 20
  {
    assert Pow10(5) == 100000;
    assert Pow10(10) == 100000 * Pow10(5);
    assert Pow10(15) == 100000 * Pow10(10);
    assert Pow10(20) == 100000 * Pow10(15);
    DigitsNeeded(n, 20);
  }
}
