/** Decimal numerals as strings: how integers are spelled in identifiers and length prefixes. */
module DecimalText {
  function DigitChar(d: nat): char
    requires d < 10
  {
    '0' + d as char
  }

  predicate IsDigitChar(c: char) {
    '0' <= c <= '9'
  }

  predicate AllDigitChars(s: string) {
    forall i :: 0 <= i < |s| ==> IsDigitChar(s[i])
  }

  function DigitValue(c: char): nat
    requires IsDigitChar(c)
  {
    c as int - '0' as int
  }

  /** The numeral of a natural number, without leading zeros. */
  function Numeral(n: nat): (s: string)
    ensures |s| > 0 && AllDigitChars(s)
  {
    if n < 10 then [DigitChar(n)] else Numeral(n / 10) + [DigitChar(n % 10)]
  }

  /** The value of a run of digits. */
  function ValueOf(s: string): nat
    requires AllDigitChars(s)
  {
    if s == [] then 0 else
      assert IsDigitChar(s[|s| - 1]);
      10 * ValueOf(s[..|s| - 1]) + DigitValue(s[|s| - 1])
  }

  lemma {:induction false} NumeralValue(n: nat)
    ensures ValueOf(Numeral(n)) == n
  {
    if n < 10 {
      assert Numeral(n)[..0] == [];
    } else {
      NumeralValue(n / 10);
      var s := Numeral(n / 10);
      assert (s + [DigitChar(n % 10)])[..|s|] == s;
    }
  }

  /** The decimal spelling of an integer. */
  function Itoa(n: int): string {
    if n < 0 then "-" + Numeral(-n) else Numeral(n)
  }

  lemma ItoaSign(n: int)
    ensures |Itoa(n)| > 0 && (Itoa(n)[0] == '-' <==> n < 0)
    ensures n < 0 ==> Itoa(n) == "-" + Itoa(-n)
  {
  }

  lemma ItoaInjective(a: int, b: int)
    requires Itoa(a) == Itoa(b)
    ensures a == b
  {
    ItoaSign(a);
    ItoaSign(b);
    if a < 0 {
      assert Itoa(a)[1..] == Numeral(-a) && Itoa(b)[1..] == Numeral(-b);
      NumeralValue(-a);
      NumeralValue(-b);
    } else {
      NumeralValue(a);
      NumeralValue(b);
    }
  }
}
