/** Decimal text for money amounts: Python's `float(text)` on plain decimal
    literals and the `:,.0f` format (round half to even, then comma grouping
    of thousands), both over exact reals. */
module Numbers {
  import opened Wrappers
  import opened Text

  function DigitChar(d: nat): (c: char)
    requires d < 10
    ensures IsAsciiDigit(c)
  {
    ('0' as int + d) as char
  }

  function DigitValue(c: char): (d: nat)
    requires IsAsciiDigit(c)
    ensures d < 10 && DigitChar(d) == c
  {
    c as int - '0' as int
  }

  /** The decimal digits of `n` without leading zeros (Python's `str(n)`). */
  function NatToString(n: nat): (r: string)
    ensures |r| >= 1
    ensures AllDigits(r)
    ensures r[0] == '0' ==> n == 0 && r == "0"
    decreases n
  {
    if n < 10 then [DigitChar(n)] else NatToString(n / 10) + [DigitChar(n % 10)]
  }

  /** The number a string of decimal digits denotes. */
  function DigitsValue(s: string): nat
    requires AllDigits(s)
  {
    if |s| == 0 then 0 else DigitsValue(s[..|s| - 1]) * 10 + DigitValue(s[|s| - 1])
  }

  lemma {:induction false} DigitsValueOfNatToString(n: nat)
    ensures DigitsValue(NatToString(n)) == n
    decreases n
  {
    var s := NatToString(n);
    if n >= 10 {
      assert s[..|s| - 1] == NatToString(n / 10);
      DigitsValueOfNatToString(n / 10);
    }
  }

  function Pow10(k: nat): (p: nat)
    ensures p >= 1
  {
    if k == 0 then 1 else 10 * Pow10(k - 1)
  }

  /** The unsigned part of a decimal literal: digits with at most one point
      and at least one digit. */
  function UnsignedDecimal(s: string): (r: Option<real>)
    ensures r.Some? ==> r.value >= 0.0
  {
    match SplitFirst(s, '.')
    case None =>
      if IsDigits(s) then Some(DigitsValue(s) as real) else None
    case Some(parts) =>
      var whole := parts.0;
      var frac := parts.1;
      if |whole| + |frac| > 0 && AllDigits(whole) && AllDigits(frac)
      then Some(DigitsValue(whole) as real + DigitsValue(frac) as real / Pow10(|frac|) as real)
      else None
  }

  /** `float(s)` on strings: surrounding whitespace is ignored, an optional
      sign is followed by a decimal literal; anything else is refused. */
  function ParseNumber(s: string): (r: Option<real>)
    ensures Strip(s) == [] ==> r.None?
  {
    var t := Strip(s);
    if |t| > 0 && (t[0] == '-' || t[0] == '+') then
      match UnsignedDecimal(t[1..])
      case None => None
      case Some(x) => Some(if t[0] == '-' then -x else x)
    else UnsignedDecimal(t)
  }

  /** Reading back `str(n)` gives `n`. */
  lemma ParseNatToString(n: nat)
    ensures ParseNumber(NatToString(n)) == Some(n as real)
  {
    var s := NatToString(n);
    assert !IsSpace(s[0]) && !IsSpace(s[|s| - 1]);
    assert Strip(s) == s;
    assert '.' !in s;
    DigitsValueOfNatToString(n);
  }

  /** Round to the nearest integer, ties to the even neighbour, as Python's
      float formatting does. */
  function RoundHalfEven(x: real): (r: int)
    ensures x - 0.5 <= r as real <= x + 0.5
    ensures (r as real == x - 0.5 || r as real == x + 0.5) ==> r % 2 == 0
  {
    var f := x.Floor;
    var frac := x - f as real;
    if frac < 0.5 then f
    else if frac > 0.5 then f + 1
    else if f % 2 == 0 then f
    else f + 1
  }

  /** The rounding is the unique nearest integer when there is no tie. */
  lemma RoundNearest(x: real, n: int)
    requires x - 0.5 < n as real < x + 0.5
    ensures RoundHalfEven(x) == n
  {
  }

  /** Exactly three digits, zero padded. */
  function Pad3(m: nat): (r: string)
    requires m < 1000
    ensures |r| == 3 && AllDigits(r)
  {
    [DigitChar(m / 100), DigitChar(m / 10 % 10), DigitChar(m % 10)]
  }

  /** `n` written with a comma between groups of three digits. */
  function GroupThousands(n: nat): (r: string)
    ensures |r| >= 1
    decreases n
  {
    if n < 1000 then NatToString(n) else GroupThousands(n / 1000) + "," + Pad3(n % 1000)
  }

  lemma SplitThousands(n: nat)
    requires n >= 1000
    ensures NatToString(n) == NatToString(n / 1000) + Pad3(n % 1000)
  {
    var q, m := n / 1000, n % 1000;
    var h, t, u := m / 100, m / 10 % 10, m % 10;
    ThreeDigits(m);
    Div10(n, 100 * q + 10 * h + t, u);
    Div10(100 * q + 10 * h + t, 10 * q + h, t);
    Div10(10 * q + h, q, h);
    calc {
      NatToString(n);
      NatToString(n / 10) + [DigitChar(u)];
      NatToString(n / 10 / 10) + [DigitChar(t)] + [DigitChar(u)];
      NatToString(q) + [DigitChar(h)] + [DigitChar(t)] + [DigitChar(u)];
    }
  }

  /** A number below a thousand is its three decimal digits. */
  lemma ThreeDigits(m: nat)
    requires m < 1000
    ensures m == 100 * (m / 100) + 10 * (m / 10 % 10) + m % 10
    ensures m / 100 < 10
  {
  }

  /** Division by ten is determined by quotient and digit. */
  lemma Div10(n: int, q: int, d: int)
    requires n == 10 * q + d && 0 <= d < 10
    ensures n / 10 == q && n % 10 == d
  {
  }

  /** Removing the grouping commas gives back the plain digits. */
  lemma {:induction false} UngroupThousands(n: nat)
    ensures RemoveChar(GroupThousands(n), ',') == NatToString(n)
    decreases n
  {
    if n >= 1000 {
      UngroupThousands(n / 1000);
      SplitThousands(n);
      RemoveCharConcat(GroupThousands(n / 1000) + ",", Pad3(n % 1000), ',');
      RemoveCharConcat(GroupThousands(n / 1000), ",", ',');
      assert ',' !in Pad3(n % 1000);
    } else {
      assert ',' !in NatToString(n);
    }
  }

  function Abs(n: int): nat {
    if n < 0 then -n else n
  }

  /** `f"{x:,.0f}"`: a minus sign for negative amounts, then the rounded
      magnitude with grouped thousands. */
  function FormatMoney(x: real): (r: string)
    ensures |r| >= 1
    ensures x >= 0.0 ==> r == GroupThousands(RoundHalfEven(x))
  {
    (if x < 0.0 then "-" else "") + GroupThousands(Abs(RoundHalfEven(x)))
  }

  /** Round trip: reading a formatted non-negative amount back, with the
      grouping commas removed, gives the rounded amount. */
  lemma FormatMoneyReadsBack(x: real)
    requires x >= 0.0
    ensures ParseNumber(RemoveChar(FormatMoney(x), ',')) == Some(RoundHalfEven(x) as real)
  {
    UngroupThousands(RoundHalfEven(x));
    ParseNatToString(RoundHalfEven(x));
  }

  /** An amount printed after a prefix reads back, without its commas, as
      its rounded value. */
  lemma AmountAfter(prefix: string, x: real)
    requires x >= 0.0
    ensures ParseNumber(RemoveChar((prefix + FormatMoney(x))[|prefix|..], ',')) == Some(RoundHalfEven(x) as real)
  {
    assert (prefix + FormatMoney(x))[|prefix|..] == FormatMoney(x);
    FormatMoneyReadsBack(x);
  }

  /** A formatted non-negative amount holds only digits and commas, so no
      space. */
  lemma {:induction false} GroupedHasNoSpace(n: nat)
    ensures ' ' !in GroupThousands(n)
    decreases n
  {
    if n >= 1000 {
      GroupedHasNoSpace(n / 1000);
      assert ' ' !in Pad3(n % 1000);
    } else {
      assert ' ' !in NatToString(n);
    }
  }

  /** `f"{rate:.0%}"`: the rate times one hundred, rounded, with a percent sign. */
  function PercentLabel(rate: real): (r: string)
    ensures rate >= 0.0 ==> r == NatToString(RoundHalfEven(rate * 100.0)) + "%"
  {
    var p := RoundHalfEven(rate * 100.0);
    (if p < 0 then "-" else "") + NatToString(Abs(p)) + "%"
  }
}
