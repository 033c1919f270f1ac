/**
 * Decimal notation of a non-negative integer, as Python's `str(n)` and an
 * f-string `{n}` write it, and the reading that inverts it.
 */
module Decimal {

  predicate IsDigit(c: char)
  {
    '0' <= c <= '9'
  }

  predicate AllDigits(s: string)
  {
    forall i | 0 <= i < |s| :: IsDigit(s[i])
  }

  /** The digit character for d. */
  function DigitChar(d: nat): char
    requires d < 10
  {
    match d
    case 0 => '0' case 1 => '1' case 2 => '2' case 3 => '3' case 4 => '4'
    case 5 => '5' case 6 => '6' case 7 => '7' case 8 => '8' case _ => '9'
  }

  /** The digit character for d is a digit, and its value is d. */
  lemma DigitCharValue(d: nat)
    requires d < 10
    ensures IsDigit(DigitChar(d))
    ensures (DigitChar(d) as int) - ('0' as int) == d
  {
  }

  /** The shortest decimal numeral of n, most significant digit first. */
  function FromNat(n: nat): (s: string)
    ensures |s| >= 1
    decreases n
  {
    if n < 10 then [DigitChar(n)] else FromNat(n / 10) + [DigitChar(n % 10)]
  }

  /** The value of a numeral, most significant digit first. */
  function ToNat(s: string): int
    decreases |s|
  {
    if s == [] then 0
    else 10 * ToNat(s[..|s| - 1]) + ((s[|s| - 1] as int) - ('0' as int))
  }

  /** A numeral is made of digits only and has no leading zero. */
  lemma {:induction false} FromNatIsNumeral(n: nat)
    ensures AllDigits(FromNat(n))
    ensures FromNat(n)[0] == '0' <==> n == 0
    ensures n == 0 ==> FromNat(n) == "0"
    decreases n
  {
    DigitCharValue(n % 10);
    if n >= 10 {
      FromNatIsNumeral(n / 10);
      var s := FromNat(n);
      assert s == FromNat(n / 10) + [DigitChar(n % 10)];
      assert s[0] == FromNat(n / 10)[0];
      DigitCharValue(n % 10);
      forall i | 0 <= i < |s|
        ensures IsDigit(s[i])
      {
        if i < |s| - 1 {
          assert s[i] == FromNat(n / 10)[i];
        }
      }
    }
  }

  /** Reading back a numeral gives the number it was written from. */
  lemma {:induction false} ToNatOfFromNat(n: nat)
    ensures ToNat(FromNat(n)) == n
    decreases n
  {
    var s := FromNat(n);
    DigitCharValue(n % 10);
    if n < 10 {
      assert s[..|s| - 1] == [];
    } else {
      assert s[..|s| - 1] == FromNat(n / 10);
      ToNatOfFromNat(n / 10);
    }
  }

  /** Distinct numbers have distinct numerals. */
  lemma FromNatInjective(m: nat, n: nat)
    requires FromNat(m) == FromNat(n)
    ensures m == n
  {
    ToNatOfFromNat(m);
    ToNatOfFromNat(n);
  }
}
