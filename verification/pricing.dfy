/** Proposal pricing: the company-size discount table, tolerant number
    reading, and the cost sheet in the client's currency. All arithmetic is
    on exact reals; only the final strings are rounded. */
module Pricing {
  import opened Wrappers
  import opened Text
  import opened Numbers
  import opened Catalog
  import opened Countries

  // ---------------------------------------------------------------------
  // Discount table

  /** The labels `company_size in "0-10"` accepts. */
  const SmallTeamLabels: set<string> := {"", "0", "-", "1", "0-", "-1", "10", "0-1", "-10", "0-10"}

  /** The labels `company_size in "10-100"` accepts beyond those. */
  const MidTeamLabels: set<string> := {"00", "10-", "100", "10-1", "-100", "10-10", "0-100", "10-100"}

  /** A prefix of `t` is one of the slices `t[..k]`. */
  lemma PrefixIsSlice(t: string, s: string)
    requires StartsWith(t, s)
    ensures s in seq(|t| + 1, k requires 0 <= k <= |t| => t[..k])
  {
    var p := seq(|t| + 1, k requires 0 <= k <= |t| => t[..k]);
    assert p[|s|] == s;
  }

  lemma SmallTeamPrefix0(s: string)
    requires StartsWith("0-10", s)
    ensures s in SmallTeamLabels
  {
    PrefixIsSlice("0-10", s);
    assert "0-10"[..0] == "" && "0-10"[..1] == "0" && "0-10"[..2] == "0-" && "0-10"[..3] == "0-1" && "0-10"[..4] == "0-10";
  }

  lemma SmallTeamPrefix1(s: string)
    requires StartsWith("-10", s)
    ensures s in SmallTeamLabels
  {
    PrefixIsSlice("-10", s);
    assert "-10"[..0] == "" && "-10"[..1] == "-" && "-10"[..2] == "-1" && "-10"[..3] == "-10";
  }

  lemma SmallTeamPrefix2(s: string)
    requires StartsWith("10", s)
    ensures s in SmallTeamLabels
  {
    PrefixIsSlice("10", s);
    assert "10"[..0] == "" && "10"[..1] == "1" && "10"[..2] == "10";
  }

  lemma SmallTeamPrefix3(s: string)
    requires StartsWith("0", s)
    ensures s in SmallTeamLabels
  {
    PrefixIsSlice("0", s);
    assert "0"[..0] == "" && "0"[..1] == "0";
  }

  lemma SmallTeamOnly(s: string)
    ensures IsSubstring(s, "0-10") ==> s in SmallTeamLabels
  {
    var t := "0-10";
    assert t[1..] == "-10" && t[2..] == "10" && t[3..] == "0" && t[4..] == "";
    if IsSubstring(s, t) {
      assert StartsWith(t, s) || StartsWith("-10", s) || StartsWith("10", s) || StartsWith("0", s) || StartsWith("", s);
      if StartsWith(t, s) { SmallTeamPrefix0(s); }
      else if StartsWith("-10", s) { SmallTeamPrefix1(s); }
      else if StartsWith("10", s) { SmallTeamPrefix2(s); }
      else if StartsWith("0", s) { SmallTeamPrefix3(s); }
    }
  }

  lemma SmallTeamAt0(s: string)
    requires s in ["", "0", "0-", "0-1", "0-10"]
    ensures IsSubstring(s, "0-10")
  {
    var t := "0-10";
    assert t[0..0+|s|] == s;
    SubstringAt(s, t, 0);
  }

  lemma SmallTeamAt1(s: string)
    requires s in ["-", "-1", "-10"]
    ensures IsSubstring(s, "0-10")
  {
    var t := "0-10";
    assert t[1..1+|s|] == s;
    SubstringAt(s, t, 1);
  }

  lemma SmallTeamAt2(s: string)
    requires s in ["1", "10"]
    ensures IsSubstring(s, "0-10")
  {
    var t := "0-10";
    assert t[2..2+|s|] == s;
    SubstringAt(s, t, 2);
  }

  lemma SmallTeamAll(s: string)
    ensures s in SmallTeamLabels ==> IsSubstring(s, "0-10")
  {
    if s in ["", "0", "0-", "0-1", "0-10"] {
      SmallTeamAt0(s);
    } else if s in ["-", "-1", "-10"] {
      SmallTeamAt1(s);
    } else if s in ["1", "10"] {
      SmallTeamAt2(s);
    }
  }

  /** `size in "0-10"` holds exactly for the pieces of "0-10". */
  lemma SmallTeamExact(s: string)
    ensures IsSubstring(s, "0-10") <==> s in SmallTeamLabels
  {
    SmallTeamOnly(s);
    SmallTeamAll(s);
  }

  lemma MidTeamPrefix0(s: string)
    requires StartsWith("10-100", s)
    ensures s in SmallTeamLabels + MidTeamLabels
  {
    PrefixIsSlice("10-100", s);
    assert "10-100"[..0] == "" && "10-100"[..1] == "1" && "10-100"[..2] == "10" && "10-100"[..3] == "10-" && "10-100"[..4] == "10-1" && "10-100"[..5] == "10-10" && "10-100"[..6] == "10-100";
  }

  lemma MidTeamPrefix1(s: string)
    requires StartsWith("0-100", s)
    ensures s in SmallTeamLabels + MidTeamLabels
  {
    PrefixIsSlice("0-100", s);
    assert "0-100"[..0] == "" && "0-100"[..1] == "0" && "0-100"[..2] == "0-" && "0-100"[..3] == "0-1" && "0-100"[..4] == "0-10" && "0-100"[..5] == "0-100";
  }

  lemma MidTeamPrefix2(s: string)
    requires StartsWith("-100", s)
    ensures s in SmallTeamLabels + MidTeamLabels
  {
    PrefixIsSlice("-100", s);
    assert "-100"[..0] == "" && "-100"[..1] == "-" && "-100"[..2] == "-1" && "-100"[..3] == "-10" && "-100"[..4] == "-100";
  }

  lemma MidTeamPrefix3(s: string)
    requires StartsWith("100", s)
    ensures s in SmallTeamLabels + MidTeamLabels
  {
    PrefixIsSlice("100", s);
    assert "100"[..0] == "" && "100"[..1] == "1" && "100"[..2] == "10" && "100"[..3] == "100";
  }

  lemma MidTeamPrefix4(s: string)
    requires StartsWith("00", s)
    ensures s in SmallTeamLabels + MidTeamLabels
  {
    PrefixIsSlice("00", s);
    assert "00"[..0] == "" && "00"[..1] == "0" && "00"[..2] == "00";
  }

  lemma MidTeamPrefix5(s: string)
    requires StartsWith("0", s)
    ensures s in SmallTeamLabels + MidTeamLabels
  {
    PrefixIsSlice("0", s);
    assert "0"[..0] == "" && "0"[..1] == "0";
  }

  lemma MidTeamOnly(s: string)
    ensures IsSubstring(s, "10-100") ==> s in SmallTeamLabels + MidTeamLabels
  {
    var t := "10-100";
    assert t[1..] == "0-100" && t[2..] == "-100" && t[3..] == "100" && t[4..] == "00" && t[5..] == "0" && t[6..] == "";
    if IsSubstring(s, t) {
      assert StartsWith(t, s) || StartsWith("0-100", s) || StartsWith("-100", s) || StartsWith("100", s)
        || StartsWith("00", s) || StartsWith("0", s) || StartsWith("", s);
      if StartsWith(t, s) { MidTeamPrefix0(s); }
      else if StartsWith("0-100", s) { MidTeamPrefix1(s); }
      else if StartsWith("-100", s) { MidTeamPrefix2(s); }
      else if StartsWith("100", s) { MidTeamPrefix3(s); }
      else if StartsWith("00", s) { MidTeamPrefix4(s); }
      else if StartsWith("0", s) { MidTeamPrefix5(s); }
    }
  }

  lemma MidTeamAt0(s: string)
    requires s in ["", "1", "10", "10-", "10-1", "10-10", "10-100"]
    ensures IsSubstring(s, "10-100")
  {
    var t := "10-100";
    assert t[0..0+|s|] == s;
    SubstringAt(s, t, 0);
  }

  lemma MidTeamAt1(s: string)
    requires s in ["0", "0-", "0-1", "0-10", "0-100"]
    ensures IsSubstring(s, "10-100")
  {
    var t := "10-100";
    assert t[1..1+|s|] == s;
    SubstringAt(s, t, 1);
  }

  lemma MidTeamAt2(s: string)
    requires s in ["-", "-1", "-10", "-100"]
    ensures IsSubstring(s, "10-100")
  {
    var t := "10-100";
    assert t[2..2+|s|] == s;
    SubstringAt(s, t, 2);
  }

  lemma MidTeamAt3(s: string)
    requires s in ["100"]
    ensures IsSubstring(s, "10-100")
  {
    var t := "10-100";
    assert t[3..3+|s|] == s;
    SubstringAt(s, t, 3);
  }

  lemma MidTeamAt4(s: string)
    requires s in ["00"]
    ensures IsSubstring(s, "10-100")
  {
    var t := "10-100";
    assert t[4..4+|s|] == s;
    SubstringAt(s, t, 4);
  }

  lemma MidTeamAll(s: string)
    ensures s in SmallTeamLabels + MidTeamLabels ==> IsSubstring(s, "10-100")
  {
    if s in ["", "1", "10", "10-", "10-1", "10-10", "10-100"] {
      MidTeamAt0(s);
    } else if s in ["0", "0-", "0-1", "0-10", "0-100"] {
      MidTeamAt1(s);
    } else if s in ["-", "-1", "-10", "-100"] {
      MidTeamAt2(s);
    } else if s in ["100"] {
      MidTeamAt3(s);
    } else if s in ["00"] {
      MidTeamAt4(s);
    }
  }

  /** `size in "10-100"` holds exactly for the pieces of "10-100", which
      include every piece of "0-10". */
  lemma MidTeamExact(s: string)
    ensures IsSubstring(s, "10-100") <==> s in SmallTeamLabels + MidTeamLabels
  {
    MidTeamOnly(s);
    MidTeamAll(s);
  }

  /** The discount rate for a company size: forty, twenty-five, fifteen or
      ten percent, or none. */
  function DiscountForCompanySize(size: string): (rate: real)
    ensures rate in {0.40, 0.25, 0.15, 0.10, 0.0}
    ensures 0.0 <= rate <= 0.40
  {
    if IsSubstring(size, "0-10") then 0.40
    else if IsSubstring(size, "10-100") then 0.25
    else if size == "100-500" then 0.15
    else if size == "500+" then 0.10
    else 0.0
  }

  /** Which sizes earn which rate. The first two tiers use Python's substring
      test, so they accept every piece of "0-10" and of "10-100" (the empty
      size included); the last two need an exact match. */
  lemma DiscountTiers(size: string)
    ensures DiscountForCompanySize(size) == 0.40 <==> size in SmallTeamLabels
    ensures DiscountForCompanySize(size) == 0.25 <==> size in MidTeamLabels
    ensures DiscountForCompanySize(size) == 0.15 <==> size == "100-500"
    ensures DiscountForCompanySize(size) == 0.10 <==> size == "500+"
    ensures DiscountForCompanySize(size) == 0.0 <==> size !in SmallTeamLabels + MidTeamLabels + {"100-500", "500+"}
  {
    SmallTeamExact(size);
    MidTeamExact(size);
  }

  /** The dropdown of the deployed service offers "1-10", "11-50", "51-200"
      and "200+", none of which the table recognises: every deployed lead is
      priced without discount. */
  lemma DeployedSizeLabelsGetNoDiscount()
    ensures DiscountForCompanySize("1-10") == 0.0
    ensures DiscountForCompanySize("11-50") == 0.0
    ensures DiscountForCompanySize("51-200") == 0.0
    ensures DiscountForCompanySize("200+") == 0.0
  {
    NoTierFor1To10();
    NoTierFor11To50();
    NoTierFor51To200();
    NoTierFor200Plus();
  }

  // One label per lemma keeps each proof's context small.

  lemma NoTierFor1To10()
    ensures DiscountForCompanySize("1-10") == 0.0
  {
    NoTier("1-10");
  }

  lemma NoTierFor11To50()
    ensures DiscountForCompanySize("11-50") == 0.0
  {
    NoTier("11-50");
  }

  lemma NoTierFor51To200()
    ensures DiscountForCompanySize("51-200") == 0.0
  {
    NoTier("51-200");
  }

  lemma NoTierFor200Plus()
    ensures DiscountForCompanySize("200+") == 0.0
  {
    NoTier("200+");
  }

  /** A size outside every tier's labels earns nothing. */
  lemma NoTier(size: string)
    requires size !in SmallTeamLabels && size !in MidTeamLabels && size != "100-500" && size != "500+"
    ensures DiscountForCompanySize(size) == 0.0
  {
    DiscountTiers(size);
  }

  /** The older dropdown's labels map onto the four tiers. */
  lemma LegacySizeLabelsDiscounts()
    ensures DiscountForCompanySize("0-10") == 0.40
    ensures DiscountForCompanySize("10-100") == 0.25
    ensures DiscountForCompanySize("100-500") == 0.15
    ensures DiscountForCompanySize("500+") == 0.10
  {
    SmallTeamTier();
    MidTeamTier();
    DiscountTiers("100-500");
    DiscountTiers("500+");
  }

  lemma SmallTeamTier()
    ensures DiscountForCompanySize("0-10") == 0.40
  {
    DiscountTiers("0-10");
  }

  lemma MidTeamTier()
    ensures DiscountForCompanySize("10-100") == 0.25
  {
    DiscountTiers("10-100");
  }

  // ---------------------------------------------------------------------
  // Tolerant numbers

  /** `safe_float`: a missing value, blank text or text that is not a number
      counts as zero; a number or numeric text counts as itself. */
  function SafeFloat(v: Option<Cell>): (x: real)
    ensures v.None? ==> x == 0.0
    ensures v.Some? && v.value.NumCell? ==> x == v.value.num
    ensures v.Some? && v.value.TextCell? && Strip(v.value.text) == "" ==> x == 0.0
  {
    match v
    case None => 0.0
    case Some(NumCell(y)) => y
    case Some(TextCell(s)) =>
      if Strip(s) == "" then 0.0
      else match ParseNumber(s) case Some(y) => y case None => 0.0
  }

  /** Text that reads as a number counts as that number; any other text
      counts as zero. */
  lemma SafeFloatText(s: string)
    ensures ParseNumber(s).Some? ==> SafeFloat(Some(TextCell(s))) == ParseNumber(s).value
    ensures ParseNumber(s).None? ==> SafeFloat(Some(TextCell(s))) == 0.0
  {
  }

  /** A whole number written out in digits is read back as itself. */
  lemma SafeFloatDigits(n: nat)
    ensures SafeFloat(Some(TextCell(NatToString(n)))) == n as real
  {
    ParseNatToString(n);
    SafeFloatText(NatToString(n));
  }

  /** `row.get(column)` read with `safe_float`. */
  function InrCost(row: Row, column: string): real {
    SafeFloat(if column in row then Some(row[column]) else None)
  }

  // ---------------------------------------------------------------------
  // Cost sheet

  /** The six itemised components: display size and spreadsheet column. */
  const CostComponents: seq<(string, string)> := [
    ("UI/UX Design", "ui_ux_cost_inr"),
    ("Frontend Development", "frontend_cost_inr"),
    ("Backend Development", "backend_cost_inr"),
    ("Testing & QA", "qa_cost_inr"),
    ("Project Management", "pm_cost_inr"),
    ("Optional Add-ons", "optional_addons_cost_inr")
  ]

  const AverageColumn := "avg_cost_inr"
  const AddOnsColumn := "optional_addons_cost_inr"

  /** The amounts behind a cost sheet, in the local currency. */
  datatype Amounts = Amounts(
    components: seq<real>,
    subtotal: real,
    discountRate: real,
    discount: real,
    finalTotal: real)

  /** Each component converted at `rate`; the subtotal is the average cost
      plus the add-ons, converted; the discount is the company size's share
      of the subtotal and the final total what remains. */
  function ComputeAmounts(row: Row, rate: real, sizeLabel: string): (a: Amounts)
    ensures |a.components| == |CostComponents|
    ensures forall i :: 0 <= i < |CostComponents| ==> a.components[i] == InrCost(row, CostComponents[i].1) * rate
    ensures a.subtotal == (InrCost(row, AverageColumn) + InrCost(row, AddOnsColumn)) * rate
    ensures a.discountRate == DiscountForCompanySize(sizeLabel)
    ensures (a.discount, a.finalTotal) == TakeDiscount(a.subtotal, a.discountRate)
    ensures a.discount + a.finalTotal == a.subtotal
    ensures a.subtotal >= 0.0 ==> 0.0 <= a.discount <= a.subtotal && 0.0 <= a.finalTotal <= a.subtotal
  {
    Discounted(Components(row, rate), (InrCost(row, AverageColumn) + InrCost(row, AddOnsColumn)) * rate,
               DiscountForCompanySize(sizeLabel))
  }

  /** The amounts for given converted components and subtotal. */
  function Discounted(components: seq<real>, subtotal: real, discountRate: real): (a: Amounts)
    requires 0.0 <= discountRate <= 0.40
    ensures a.components == components && a.subtotal == subtotal && a.discountRate == discountRate
    ensures a.discount == a.subtotal * a.discountRate
    ensures a.finalTotal == a.subtotal * (1.0 - a.discountRate)
    ensures a.discount + a.finalTotal == a.subtotal
    ensures a.subtotal >= 0.0 ==> 0.0 <= a.discount <= a.subtotal && 0.0 <= a.finalTotal <= a.subtotal
  {
    var split := TakeDiscount(subtotal, discountRate);
    Amounts(components, subtotal, discountRate, split.0, split.1)
  }

  /** The cost columns of `row`, each read with `safe_float` and converted. */
  function Components(row: Row, rate: real): (r: seq<real>)
    ensures |r| == |CostComponents|
    ensures forall i :: 0 <= i < |CostComponents| ==> r[i] == InrCost(row, CostComponents[i].1) * rate
    ensures forall i :: 0 <= i < 6 ==> r[i] == ColumnCosts(row)[i] * rate
  {
    ScaledColumns(row, rate);
    Scaled(ColumnCosts(row), rate)
  }

  /** The scaled columns, one by one, are the converted costs. */
  lemma ScaledColumns(row: Row, rate: real)
    ensures forall i :: 0 <= i < 6 ==> Scaled(ColumnCosts(row), rate)[i] == InrCost(row, CostComponents[i].1) * rate
  {
    var u := ColumnCosts(row);
    forall i | 0 <= i < 6
      ensures Scaled(u, rate)[i] == InrCost(row, CostComponents[i].1) * rate
    {
      assert u[i] == InrCost(row, CostComponents[i].1);
    }
  }

  /** Every amount of `u` multiplied by `rate`. */
  function Scaled(u: seq<real>, rate: real): (r: seq<real>)
    ensures |r| == |u|
    ensures forall i :: 0 <= i < |u| ==> r[i] == u[i] * rate
  {
    seq(|u|, i requires 0 <= i < |u| => u[i] * rate)
  }

  /** The six cost columns of `row` in rupees, before conversion. */
  function ColumnCosts(row: Row): (u: seq<real>)
    ensures |u| == 6
    ensures forall i :: 0 <= i < 6 ==> u[i] == InrCost(row, CostComponents[i].1)
  {
    seq(6, i requires 0 <= i < 6 => InrCost(row, CostComponents[i].1))
  }

  /** The discount and the final total: the discount is the rate's share of
      the subtotal, and the two add back up to the subtotal. A discount of at
      most forty percent of a non-negative subtotal leaves a final total
      between zero and the subtotal. */
  function TakeDiscount(subtotal: real, discountRate: real): (r: (real, real))
    requires 0.0 <= discountRate <= 0.40
    ensures r.0 == subtotal * discountRate
    ensures r.0 + r.1 == subtotal
    ensures r.1 == subtotal * (1.0 - discountRate)
    ensures subtotal >= 0.0 ==> 0.0 <= r.0 <= subtotal && 0.0 <= r.1 <= subtotal
  {
    var discount := subtotal * discountRate;
    if subtotal >= 0.0 then
      assert discount <= subtotal * 0.40;
      (discount, subtotal - discount)
    else
      (discount, subtotal - discount)
  }

  datatype CostItem = CostItem(item: string, cost: string)

  datatype CostSheet = CostSheet(
    breakdown: seq<CostItem>,
    subtotal: string,
    discountRate: string,
    discount: string,
    finalTotal: string)

  /** `prepare_proposal_data`: the six items in fixed order, each the currency
      symbol followed by its formatted converted amount, then the subtotal,
      the rate as a percentage, the discount with a leading minus and the
      final total. */
  function PrepareProposalData(row: Row, country: CountryInfo, sizeLabel: string): (sheet: CostSheet)
    ensures var a := ComputeAmounts(row, country.rateFromInr, sizeLabel);
      && |sheet.breakdown| == |CostComponents|
      && (forall i :: 0 <= i < |CostComponents| ==>
            sheet.breakdown[i] == CostItem(CostComponents[i].0, country.symbol + FormatMoney(a.components[i])))
      && sheet.subtotal == country.symbol + FormatMoney(a.subtotal)
      && sheet.discountRate == PercentLabel(a.discountRate)
      && sheet.discount == "-" + country.symbol + FormatMoney(a.discount)
      && sheet.finalTotal == country.symbol + FormatMoney(a.finalTotal)
  {
    var a := ComputeAmounts(row, country.rateFromInr, sizeLabel);
    var items := seq(|CostComponents|, i requires 0 <= i < |CostComponents| =>
      CostItem(CostComponents[i].0, country.symbol + FormatMoney(a.components[i])));
    CostSheet(items, country.symbol + FormatMoney(a.subtotal), PercentLabel(a.discountRate),
      "-" + country.symbol + FormatMoney(a.discount), country.symbol + FormatMoney(a.finalTotal))
  }

  /** The same after a minus sign and a prefix. */
  lemma NegatedAmountAfter(prefix: string, x: real)
    requires x >= 0.0
    ensures ParseNumber(RemoveChar(("-" + prefix + FormatMoney(x))[1 + |prefix|..], ',')) == Some(RoundHalfEven(x) as real)
  {
    assert "-" + prefix + FormatMoney(x) == ("-" + prefix) + FormatMoney(x);
    AmountAfter("-" + prefix, x);
  }

  /** The three totals of a sheet, read back from their text after the
      currency symbol (and the discount's minus sign): for a non-negative
      subtotal, the rounded subtotal, discount and final total of the
      amounts `ComputeAmounts` gives for the row, the country's rate and
      the company size. */
  lemma PreparedTotalsReadBack(row: Row, country: CountryInfo, sizeLabel: string)
    ensures var sheet := PrepareProposalData(row, country, sizeLabel);
      var a := ComputeAmounts(row, country.rateFromInr, sizeLabel);
      a.subtotal >= 0.0 ==>
        ParseNumber(RemoveChar(sheet.subtotal[|country.symbol|..], ',')) == Some(RoundHalfEven(a.subtotal) as real)
        && ParseNumber(RemoveChar(sheet.discount[1 + |country.symbol|..], ',')) == Some(RoundHalfEven(a.discount) as real)
        && ParseNumber(RemoveChar(sheet.finalTotal[|country.symbol|..], ',')) == Some(RoundHalfEven(a.finalTotal) as real)
  {
    SubtotalReadsBack(row, country, sizeLabel);
    DiscountReadsBack(row, country, sizeLabel);
    FinalTotalReadsBack(row, country, sizeLabel);
  }

  // One total per lemma keeps each proof's context small.

  lemma SubtotalReadsBack(row: Row, country: CountryInfo, sizeLabel: string)
    ensures var a := ComputeAmounts(row, country.rateFromInr, sizeLabel);
      a.subtotal >= 0.0 ==>
        ParseNumber(RemoveChar(PrepareProposalData(row, country, sizeLabel).subtotal[|country.symbol|..], ','))
          == Some(RoundHalfEven(a.subtotal) as real)
  {
    var a := ComputeAmounts(row, country.rateFromInr, sizeLabel);
    if a.subtotal >= 0.0 {
      AmountAfter(country.symbol, a.subtotal);
    }
  }

  lemma DiscountReadsBack(row: Row, country: CountryInfo, sizeLabel: string)
    ensures var a := ComputeAmounts(row, country.rateFromInr, sizeLabel);
      a.subtotal >= 0.0 ==>
        ParseNumber(RemoveChar(PrepareProposalData(row, country, sizeLabel).discount[1 + |country.symbol|..], ','))
          == Some(RoundHalfEven(a.discount) as real)
  {
    var a := ComputeAmounts(row, country.rateFromInr, sizeLabel);
    if a.subtotal >= 0.0 {
      NegatedAmountAfter(country.symbol, a.discount);
    }
  }

  lemma FinalTotalReadsBack(row: Row, country: CountryInfo, sizeLabel: string)
    ensures var a := ComputeAmounts(row, country.rateFromInr, sizeLabel);
      a.subtotal >= 0.0 ==>
        ParseNumber(RemoveChar(PrepareProposalData(row, country, sizeLabel).finalTotal[|country.symbol|..], ','))
          == Some(RoundHalfEven(a.finalTotal) as real)
  {
    var a := ComputeAmounts(row, country.rateFromInr, sizeLabel);
    if a.subtotal >= 0.0 {
      AmountAfter(country.symbol, a.finalTotal);
    }
  }

  /** Each item of a sheet is the component's name and, for a non-negative
      converted cost, reads back after the currency symbol as that cost
      rounded. */
  lemma PreparedItemsReadBack(row: Row, country: CountryInfo, sizeLabel: string, i: nat)
    requires i < 6
    ensures var sheet := PrepareProposalData(row, country, sizeLabel);
      var c := Components(row, country.rateFromInr);
      sheet.breakdown[i].item == CostComponents[i].0 &&
      (c[i] >= 0.0 ==>
        ParseNumber(RemoveChar(sheet.breakdown[i].cost[|country.symbol|..], ',')) == Some(RoundHalfEven(c[i]) as real))
  {
    var c := Components(row, country.rateFromInr);
    if c[i] >= 0.0 {
      AmountAfter(country.symbol, c[i]);
    }
  }

  /** The printed discount rate is one of the five tier labels, and "0%"
      exactly when the company size earns no discount. */
  lemma PreparedRateLabel(row: Row, country: CountryInfo, sizeLabel: string)
    ensures var shown := PrepareProposalData(row, country, sizeLabel).discountRate;
      shown in {"40%", "25%", "15%", "10%", "0%"}
      && (shown == "0%" <==> DiscountForCompanySize(sizeLabel) == 0.0)
  {
    DiscountRateLabels();
  }

  /** The subtotal equals the sum of the six converted components exactly
      when the stored average equals the sum of the first five: the sheet
      trusts the average column rather than adding up its items. */
  lemma SubtotalVersusItems(row: Row, rate: real)
    requires rate > 0.0
    ensures var c := Components(row, rate);
      var u := ColumnCosts(row);
      (InrCost(row, AverageColumn) + u[5]) * rate == c[0] + c[1] + c[2] + c[3] + c[4] + c[5]
      <==> InrCost(row, AverageColumn) == u[0] + u[1] + u[2] + u[3] + u[4]
  {
    ScaledSums(Components(row, rate), ColumnCosts(row), InrCost(row, AverageColumn), rate);
  }

  /** Scaling by a positive rate: when each item is its unscaled cost times
      the rate, the scaled average plus add-ons equals the sum of the six
      items exactly when the average equals the first five unscaled costs. */
  lemma ScaledSums(c: seq<real>, u: seq<real>, avg: real, rate: real)
    requires |c| == 6 && |u| == 6 && rate > 0.0
    requires forall i :: 0 <= i < 6 ==> c[i] == u[i] * rate
    ensures (avg + u[5]) * rate == c[0] + c[1] + c[2] + c[3] + c[4] + c[5]
      <==> avg == u[0] + u[1] + u[2] + u[3] + u[4]
  {
    var five := u[0] + u[1] + u[2] + u[3] + u[4];
    assert c[0] + c[1] + c[2] + c[3] + c[4] + c[5] == (five + u[5]) * rate;
    assert (avg + u[5]) * rate - (five + u[5]) * rate == (avg - five) * rate;
    if (avg - five) * rate == 0.0 {
      assert avg - five == 0.0;
    }
  }

  /** The five rates the table can produce print as whole percentages. */
  lemma DiscountRateLabels()
    ensures PercentLabel(0.40) == "40%"
    ensures PercentLabel(0.25) == "25%"
    ensures PercentLabel(0.15) == "15%"
    ensures PercentLabel(0.10) == "10%"
    ensures PercentLabel(0.0) == "0%"
  {
    RoundNearest(40.0, 40);
    RoundNearest(25.0, 25);
    RoundNearest(15.0, 15);
    RoundNearest(10.0, 10);
    RoundNearest(0.0, 0);
  }
}
