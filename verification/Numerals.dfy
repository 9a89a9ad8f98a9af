/** str() of an integer. */
module Numerals {

  function Digit(d: nat): char
    requires d < 10
  {
    "0123456789"[d]
  }

  /** str(n) */
  function Decimal(n: nat): (text: string)
    ensures |text| > 0 && text[0] in "0123456789"
  {
    if n < 10 then [Digit(n)] else Decimal(n / 10) + [Digit(n % 10)]
  }

  function IntText(n: int): string {
    if n < 0 then "-" + Decimal(-n) else Decimal(n)
  }

  /** Decimal digits, the most significant first, after a minus sign if there is one. */
  lemma DecimalDigits(n: nat)
    ensures n < 10 ==> Decimal(n) == ["0123456789"[n]]
    ensures n >= 10 ==> Decimal(n) == Decimal(n / 10) + ["0123456789"[n % 10]]
    ensures IntText(n) == Decimal(n) && (n > 0 ==> IntText(-(n as int)) == "-" + Decimal(n))
  {
  }

  lemma {:induction false} DecimalInjective(a: nat, b: nat)
    requires Decimal(a) == Decimal(b)
    ensures a == b
  {
    var s, t := Decimal(a), Decimal(b);
    assert s[|s| - 1] == Digit(a % 10) && t[|t| - 1] == Digit(b % 10);
    assert a % 10 == b % 10;
    if a >= 10 && b >= 10 {
      assert s[..|s| - 1] == Decimal(a / 10) && t[..|t| - 1] == Decimal(b / 10);
      DecimalInjective(a / 10, b / 10);
    } else if a >= 10 {
      assert |s| > 1;
    } else if b >= 10 {
      assert |t| > 1;
    }
  }
}
