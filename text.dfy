/**
  The library renderings Product.toString concatenates: Integer.toString for
  the id and BigDecimal.toString for the price, with the parsers that undo
  them.
 */
module Text {
  import opened Decimals

  predicate IsDigit(c: char)
  {
    '0' <= c <= '9'
  }

  function DigitChar(d: nat): (c: char)
    requires d < 10
    ensures IsDigit(c)
  {
    "0123456789"[d]
  }

  function DigitValue(c: char): (d: nat)
    requires IsDigit(c)
    ensures d < 10
  {
    (c as int - '0' as int) as nat
  }

  lemma DigitRoundTrip(d: nat)
    requires d < 10
    ensures DigitValue(DigitChar(d)) == d
  {
  }

  predicate AllDigits(s: string)
  {
    forall i :: 0 <= i < |s| ==> IsDigit(s[i])
  }

  /** The decimal digits of n, most significant first, without leading zeros. */
  function Digits(n: nat): (s: string)
    ensures |s| >= 1 && AllDigits(s)
    ensures s[0] == '0' ==> n == 0
  {
    if n < 10 then [DigitChar(n)] else Digits(n / 10) + [DigitChar(n % 10)]
  }

  /** The number a string of decimal digits denotes (leading zeros allowed). */
  function ParseDigits(s: string): nat
    requires AllDigits(s)
  {
    if s == [] then 0 else ParseDigits(s[..|s| - 1]) * 10 + DigitValue(s[|s| - 1])
  }

  /** Reading back the digits of n gives n. */
  lemma {:induction false} ParseDigitsOfDigits(n: nat)
    ensures ParseDigits(Digits(n)) == n
  {
    var s := Digits(n);
    if n < 10 {
      DigitRoundTrip(n);
      assert s[..|s| - 1] == [];
    } else {
      ParseDigitsOfDigits(n / 10);
      DigitRoundTrip(n % 10);
      assert s[..|s| - 1] == Digits(n / 10);
    }
  }

  /** Integer.toString(n): a minus sign for negatives, then the digits of |n|. */
  function IntText(n: int): (s: string)
    ensures |s| >= 1
  {
    if n < 0 then "-" + Digits(-n) else Digits(n)
  }

  /** Integer.parseInt on the strings IntText produces: an optional minus sign, then digits. */
  function ParseInt(s: string): int
    requires |s| >= 1
    requires if s[0] == '-' then AllDigits(s[1..]) else AllDigits(s)
  {
    if s[0] == '-' then -(ParseDigits(s[1..]) as int) else ParseDigits(s)
  }

  /** Integer.parseInt undoes Integer.toString. */
  lemma IntTextRoundTrip(n: int)
    ensures var s := IntText(n); (if s[0] == '-' then AllDigits(s[1..]) else AllDigits(s)) && ParseInt(s) == n
  {
    if n < 0 {
      NegativeRoundTrip(-n, IntText(n));
    } else {
      NaturalRoundTrip(n, IntText(n));
    }
  }

  lemma NegativeRoundTrip(m: nat, s: string)
    requires s == "-" + Digits(m)
    ensures s[0] == '-' && AllDigits(s[1..]) && ParseInt(s) == -(m as int)
  {
    assert s[1..] == Digits(m);
    ParseDigitsOfDigits(m);
  }

  lemma NaturalRoundTrip(n: nat, s: string)
    requires s == Digits(n)
    ensures s[0] != '-' && AllDigits(s) && ParseInt(s) == n
  {
    assert IsDigit(s[0]);
    ParseDigitsOfDigits(n);
  }

  /** A rendered integer holds no comma, so it stays one field of a comma-separated line. */
  lemma IntTextHasNoComma(n: int)
    ensures ',' !in IntText(n)
  {
    var s := IntText(n);
    if n < 0 {
      assert s == ['-'] + Digits(-n);
    }
  }

  function Zeros(n: nat): (s: string)
    ensures |s| == n && forall i :: 0 <= i < n ==> s[i] == '0'
  {
    if n == 0 then [] else "0" + Zeros(n - 1)
  }

  /**
    BigDecimal.toString: the plain digits when the scale is 0; a decimal point
    inserted scale digits from the right when 0 < scale and the adjusted
    exponent is at least -6; otherwise scientific notation with one digit
    before the point and an exponent "E" marked '+' when positive.
   */
  function DecimalText(d: Decimal): string
  {
    if d.scale == 0 then IntText(d.unscaled)
    else
      var coeff := Digits(Abs(d.unscaled));
      var adjusted := -d.scale + (|coeff| - 1);
      var body :=
        if d.scale > 0 && adjusted >= -6 then
          if d.scale >= |coeff| then "0." + Zeros(d.scale - |coeff|) + coeff
          else coeff[..|coeff| - d.scale] + "." + coeff[|coeff| - d.scale..]
        else
          coeff[..1] + (if |coeff| > 1 then "." + coeff[1..] else "")
          + (if adjusted == 0 then "" else "E" + (if adjusted > 0 then "+" else "") + IntText(adjusted));
      if d.unscaled < 0 then "-" + body else body
  }
}
