/** The budget buttons offered after the company-size question: four fixed
    rupee ranges converted into the client's currency. Both services share
    the same rule. */
module Budget {
  import opened Wrappers
  import opened Text
  import opened Numbers
  import opened Countries

  /** The rupee ranges; the last one has no upper bound. */
  const BaseBudgetsInr: seq<(nat, Option<nat>)> := [
    (100000, Some(400000)),
    (500000, Some(800000)),
    (800000, Some(1000000)),
    (1000000, None)
  ]

  /** A rupee amount in the client's currency. */
  function Converted(ci: CountryInfo, inr: nat): real {
    inr as real * ci.rateFromInr
  }

  /** The text of a bounded button: "<sym><low> - <sym><high>". */
  function RangeLabel(sym: string, low: real, high: real): string {
    sym + FormatMoney(low) + " - " + sym + FormatMoney(high)
  }

  /** The text of the open-ended button: "<sym><low>+". */
  function OpenLabel(sym: string, low: real): string {
    sym + FormatMoney(low) + "+"
  }

  /** One button, with both ends converted at the country's rate: a range
      for a bounded pair and the open form for the last one. */
  function BudgetOption(ci: CountryInfo, low: nat, high: Option<nat>): (r: string)
    ensures |r| > |ci.symbol|
    ensures r[..|ci.symbol|] == ci.symbol
    ensures high.None? ==> r[|r| - 1] == '+'
    ensures high.Some? ==> IsSubstring(" - ", r)
  {
    match high
    case None => OpenLabel(ci.symbol, Converted(ci, low))
    case Some(h) =>
      RangeHasSeparator(ci.symbol, Converted(ci, low), Converted(ci, h));
      RangeLabel(ci.symbol, Converted(ci, low), Converted(ci, h))
  }

  lemma RangeHasSeparator(sym: string, low: real, high: real)
    ensures IsSubstring(" - ", RangeLabel(sym, low, high))
  {
    var r := RangeLabel(sym, low, high);
    var lowText := sym + FormatMoney(low);
    assert r[|lowText|..|lowText| + 3] == " - ";
    SubstringAt(" - ", r, |lowText|);
  }

  /** `generate_local_budget_options`: one button per range, in order. */
  function LocalBudgetOptions(ci: CountryInfo): (options: seq<string>)
    ensures |options| == |BaseBudgetsInr|
  {
    [BudgetOption(ci, 100000, Some(400000)), BudgetOption(ci, 500000, Some(800000)),
     BudgetOption(ci, 800000, Some(1000000)), BudgetOption(ci, 1000000, None)]
  }

  /** Four buttons, each starting with the currency symbol; the first three
      are ranges "a - b" and the last one ends with '+'. */
  lemma BudgetOptionsShape(ci: CountryInfo)
    ensures |LocalBudgetOptions(ci)| == 4
    ensures forall i :: 0 <= i < 4 ==> LocalBudgetOptions(ci)[i][..|ci.symbol|] == ci.symbol
    ensures forall i :: 0 <= i < 3 ==> IsSubstring(" - ", LocalBudgetOptions(ci)[i])
    ensures var last := LocalBudgetOptions(ci)[3]; last[|last| - 1] == '+'
  {
    var options := LocalBudgetOptions(ci);
    assert BaseBudgetsInr[3].1.None?;
    assert options[3] == BudgetOption(ci, BaseBudgetsInr[3].0, BaseBudgetsInr[3].1);
  }

  /** Rounding to the nearest whole number never reverses an order. */
  lemma RoundingMonotone(x: real, y: real)
    requires x <= y
    ensures RoundHalfEven(x) <= RoundHalfEven(y)
  {
  }

  /** With a positive rate, every printed amount is at most the next one: the
      buttons are in ascending order, each range's low end below its high
      end and each range starting no lower than the previous one ended
      below. */
  lemma OptionAmountsAscending(ci: CountryInfo)
    requires ci.rateFromInr > 0.0
    ensures forall i :: 0 <= i < 3 ==>
      RoundHalfEven(Converted(ci, BaseBudgetsInr[i].0)) <= RoundHalfEven(Converted(ci, BaseBudgetsInr[i].1.value))
    ensures forall i :: 0 <= i < 3 ==>
      RoundHalfEven(Converted(ci, BaseBudgetsInr[i].0)) <= RoundHalfEven(Converted(ci, BaseBudgetsInr[i + 1].0))
  {
    forall i | 0 <= i < 3
      ensures RoundHalfEven(Converted(ci, BaseBudgetsInr[i].0)) <= RoundHalfEven(Converted(ci, BaseBudgetsInr[i].1.value))
      ensures RoundHalfEven(Converted(ci, BaseBudgetsInr[i].0)) <= RoundHalfEven(Converted(ci, BaseBudgetsInr[i + 1].0))
    {
      RangeAscending(i, ci);
    }
  }

  /** One bounded range: its low end converts below its high end and below
      the next range's low end. */
  lemma RangeAscending(i: nat, ci: CountryInfo)
    requires i < 3 && ci.rateFromInr > 0.0
    ensures RoundHalfEven(Converted(ci, BaseBudgetsInr[i].0)) <= RoundHalfEven(Converted(ci, BaseBudgetsInr[i].1.value))
    ensures RoundHalfEven(Converted(ci, BaseBudgetsInr[i].0)) <= RoundHalfEven(Converted(ci, BaseBudgetsInr[i + 1].0))
  {
    var low, high, next := BaseBudgetsInr[i].0, BaseBudgetsInr[i].1.value, BaseBudgetsInr[i + 1].0;
    assert low <= high && low <= next by {
      if i == 0 {
        assert low == 100000 && high == 400000 && next == 500000;
      } else if i == 1 {
        assert low == 500000 && high == 800000 && next == 800000;
      } else {
        assert low == 800000 && high == 1000000 && next == 1000000;
      }
    }
    ScaledOrder(low, high, ci);
    ScaledOrder(low, next, ci);
  }

  /** Converting and rounding two rupee amounts keeps their order. */
  lemma ScaledOrder(a: nat, b: nat, ci: CountryInfo)
    requires a <= b && ci.rateFromInr > 0.0
    ensures RoundHalfEven(Converted(ci, a)) <= RoundHalfEven(Converted(ci, b))
  {
    ScaleMonotone(a as real, b as real, ci.rateFromInr);
    RoundingMonotone(Converted(ci, a), Converted(ci, b));
  }

  lemma ScaleMonotone(a: real, b: real, r: real)
    requires a <= b && r > 0.0
    ensures a * r <= b * r
  {
  }

  // ---------------------------------------------------------------------
  // Read back: the amounts a client sees are the rupee ranges converted at
  // the country's rate and rounded.

  /** Read back, a bounded button names its range: after the currency
      symbol comes the converted low end up to the first space, then "- ",
      the symbol again and the converted high end, each rounded and shown
      with grouping commas. */
  lemma BoundedOptionReadsBack(ci: CountryInfo, i: nat)
    requires i < 3 && ci.rateFromInr >= 0.0
    ensures var option := LocalBudgetOptions(ci)[i];
      var split := SplitFirst(option[|ci.symbol|..], ' ');
      split.Some? &&
      ParseNumber(RemoveChar(split.value.0, ',')) == Some(RoundHalfEven(Converted(ci, BaseBudgetsInr[i].0)) as real) &&
      |split.value.1| >= 2 + |ci.symbol| &&
      split.value.1[..2 + |ci.symbol|] == "- " + ci.symbol &&
      ParseNumber(RemoveChar(split.value.1[2 + |ci.symbol|..], ','))
        == Some(RoundHalfEven(Converted(ci, BaseBudgetsInr[i].1.value)) as real)
  {
    var low := Converted(ci, BaseBudgetsInr[i].0);
    var high := Converted(ci, BaseBudgetsInr[i].1.value);
    BoundedOptionText(ci, i);
    NonNegativeAmount(ci, BaseBudgetsInr[i].0);
    NonNegativeAmount(ci, BaseBudgetsInr[i].1.value);
    RangeLabelReadsBack(ci.symbol, low, high);
  }

  /** A bounded button is the range label of its converted ends. */
  lemma BoundedOptionText(ci: CountryInfo, i: nat)
    requires i < 3
    ensures LocalBudgetOptions(ci)[i] == RangeLabel(ci.symbol, Converted(ci, BaseBudgetsInr[i].0),
                                                    Converted(ci, BaseBudgetsInr[i].1.value))
  {
    assert LocalBudgetOptions(ci)[i] == BudgetOption(ci, BaseBudgetsInr[i].0, BaseBudgetsInr[i].1);
    RangeOptionText(ci, BaseBudgetsInr[i].0, BaseBudgetsInr[i].1);
  }

  lemma RangeOptionText(ci: CountryInfo, low: nat, high: Option<nat>)
    requires high.Some?
    ensures BudgetOption(ci, low, high) == RangeLabel(ci.symbol, Converted(ci, low), Converted(ci, high.value))
  {
  }

  lemma OpenOptionText(ci: CountryInfo, low: nat)
    ensures BudgetOption(ci, low, None) == OpenLabel(ci.symbol, Converted(ci, low))
  {
  }

  lemma NonNegativeAmount(ci: CountryInfo, n: nat)
    requires ci.rateFromInr >= 0.0
    ensures Converted(ci, n) >= 0.0
  {
  }

  /** A range label, read back. */
  lemma RangeLabelReadsBack(sym: string, x: real, y: real)
    requires x >= 0.0 && y >= 0.0
    ensures var split := SplitFirst(RangeLabel(sym, x, y)[|sym|..], ' ');
      split.Some? &&
      ParseNumber(RemoveChar(split.value.0, ',')) == Some(RoundHalfEven(x) as real) &&
      |split.value.1| >= 2 + |sym| &&
      split.value.1[..2 + |sym|] == "- " + sym &&
      ParseNumber(RemoveChar(split.value.1[2 + |sym|..], ',')) == Some(RoundHalfEven(y) as real)
  {
    var lowText, highText := FormatMoney(x), FormatMoney(y);
    var rest := "- " + sym + highText;
    assert RangeLabel(sym, x, y)[|sym|..] == lowText + [' '] + rest;
    GroupedHasNoSpace(RoundHalfEven(x));
    SplitFirstUnique(RangeLabel(sym, x, y)[|sym|..], ' ', lowText, rest);
    assert rest[..2 + |sym|] == "- " + sym;
    assert rest[2 + |sym|..] == highText;
    FormatMoneyReadsBack(x);
    FormatMoneyReadsBack(y);
  }

  /** Read back, the open-ended button names its low end: between the
      currency symbol and the final '+' is the converted amount, rounded and
      shown with grouping commas. */
  lemma OpenOptionReadsBack(ci: CountryInfo)
    requires ci.rateFromInr >= 0.0
    ensures var option := LocalBudgetOptions(ci)[3];
      option[|option| - 1] == '+' &&
      ParseNumber(RemoveChar(option[|ci.symbol|..|option| - 1], ','))
        == Some(RoundHalfEven(Converted(ci, BaseBudgetsInr[3].0)) as real)
  {
    var x := Converted(ci, BaseBudgetsInr[3].0);
    assert LocalBudgetOptions(ci)[3] == BudgetOption(ci, BaseBudgetsInr[3].0, None);
    OpenOptionText(ci, BaseBudgetsInr[3].0);
    NonNegativeAmount(ci, BaseBudgetsInr[3].0);
    OpenLabelReadsBack(ci.symbol, x);
  }

  /** An open label, read back. */
  lemma OpenLabelReadsBack(sym: string, x: real)
    requires x >= 0.0
    ensures var option := OpenLabel(sym, x);
      ParseNumber(RemoveChar(option[|sym|..|option| - 1], ',')) == Some(RoundHalfEven(x) as real)
  {
    var option := OpenLabel(sym, x);
    assert option[|sym|..|option| - 1] == FormatMoney(x);
    FormatMoneyReadsBack(x);
  }
}
