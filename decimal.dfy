/** Python's conversions between integers and their decimal text: `str(n)`
    (what an f-string prints for an `int`) and `int(s)` (restricted here to an
    optional sign followed by ASCII digits). */
module Decimal {
  import opened Outcomes
  import opened Text

  predicate IsDigit(c: char)
  {
    '0' <= c <= '9'
  }

  predicate AllDigits(s: string)
  {
    forall i :: 0 <= i < |s| ==> IsDigit(s[i])
  }

  function DigitChar(d: nat): (c: char)
    requires d < 10
    ensures IsDigit(c)
  {
    ('0' as int + d) as char
  }

  function DigitValue(c: char): (d: nat)
    requires IsDigit(c)
    ensures d < 10 && DigitChar(d) == c
  {
    c as int - '0' as int
  }

  /** Decimal text of a natural number, most significant digit first, no
      leading zero. */
  function NatToDecimal(n: nat): (s: string)
    ensures |s| > 0 && AllDigits(s)
    ensures |s| > 1 ==> s[0] != '0'
    decreases n
  {
    if n < 10 then [DigitChar(n)] else NatToDecimal(n / 10) + [DigitChar(n % 10)]
  }

  /** `str(n)` */
  function IntToDecimal(n: int): (s: string)
    ensures |s| > 0
    ensures n < 0 <==> s[0] == '-'
  {
    if n < 0 then "-" + NatToDecimal(-n) else NatToDecimal(n)
  }

  /** The value of a string of decimal digits. */
  function DigitsValue(s: string): nat
    requires AllDigits(s)
    decreases |s|
  {
    if |s| == 0 then 0 else DigitsValue(s[..|s| - 1]) * 10 + DigitValue(s[|s| - 1])
  }

  /** Python's default limit on the number of digits `int(s)` converts
      (`sys.get_int_max_str_digits()`); a longer string raises `ValueError`. */
  const MaxStrDigits := 4300

  /** The strings `int(s)` accepts in this model: an optional sign and at
      least one and at most `MaxStrDigits` ASCII digits. */
  predicate IsIntLiteral(s: string)
  {
    || (0 < |s| <= MaxStrDigits && AllDigits(s))
    || (1 < |s| <= MaxStrDigits + 1 && (s[0] == '-' || s[0] == '+') && AllDigits(s[1..]))
  }

  /** `int(s)`: `None` where Python raises `ValueError`. */
  function ParseInt(s: string): (r: Option<int>)
    ensures r.Some? <==> IsIntLiteral(s)
  {
    if 0 < |s| <= MaxStrDigits && AllDigits(s) then Some(DigitsValue(s))
    else if 1 < |s| <= MaxStrDigits + 1 && s[0] == '-' && AllDigits(s[1..]) then Some(-(DigitsValue(s[1..]) as int))
    else if 1 < |s| <= MaxStrDigits + 1 && s[0] == '+' && AllDigits(s[1..]) then Some(DigitsValue(s[1..]))
    else None
  }

  lemma {:induction false} NatToDecimalValue(n: nat)
    ensures DigitsValue(NatToDecimal(n)) == n
    decreases n
  {
    var s := NatToDecimal(n);
    if n < 10 {
      assert s[..0] == [];
    } else {
      assert s[..|s| - 1] == NatToDecimal(n / 10);
      NatToDecimalValue(n / 10);
    }
  }

  /** Reading back what `str(n)` prints gives `n`, for every `n` whose
      digits are within the conversion limit. */
  lemma IntToDecimalRoundTrip(n: int)
    requires |NatToDecimal(if n < 0 then -n else n)| <= MaxStrDigits
    ensures ParseInt(IntToDecimal(n)) == Some(n)
  {
    if n < 0 {
      var s := IntToDecimal(n);
      assert s[1..] == NatToDecimal(-n);
      NatToDecimalValue(-n);
    } else {
      NatToDecimalValue(n);
    }
  }

  /** A decimal text holds no line break. */
  lemma IntToDecimalNoNewline(n: int)
    ensures SingleLine(IntToDecimal(n))
  {
  }
}
