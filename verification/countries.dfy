/** The static country tables: dialling code, ISO code, currency symbol and
    code, and the exchange rate from Indian rupees. The deployed service and
    the older root service each ship their own table. */
module Countries {
  import opened Wrappers
  import opened Assoc

  datatype CountryInfo = CountryInfo(
    dialCode: string,
    isoCode: string,
    symbol: string,
    currencyCode: string,
    rateFromInr: real)

  type CountryTable = Assoc<string, CountryInfo>

  /** The table of the deployed service, in declaration order. */
  const DeployedCountries: CountryTable := [
    ("India", IndiaInfo),
    ("USA", CountryInfo("+1", "US", "$", "USD", 0.012)),
    ("UK", CountryInfo("+44", "GB", "\U{A3}", "GBP", 0.0095)),
    ("Canada", CountryInfo("+1", "CA", "C$", "CAD", 0.016)),
    ("Australia", CountryInfo("+61", "AU", "A$", "AUD", 0.018)),
    ("UAE", CountryInfo("+971", "AE", "AED", "AED", 0.044)),
    ("Singapore", CountryInfo("+65", "SG", "S$", "SGD", 0.016)),
    ("Germany", CountryInfo("+49", "DE", "\U{20AC}", "EUR", 0.011)),
    ("France", CountryInfo("+33", "FR", "\U{20AC}", "EUR", 0.011))
  ]

  /** The table of the older root service. */
  const LegacyCountries: CountryTable := [
    ("India", IndiaInfo),
    ("United States", CountryInfo("+1", "US", "$", "USD", 0.012)),
    ("United Kingdom", CountryInfo("+44", "GB", "\U{A3}", "GBP", 0.0095)),
    ("United Arab Emirates", CountryInfo("+971", "AE", "\U{62F}.\U{625}", "AED", 0.044))
  ]

  /** The country names of each table, in order, as the phone widget lists
      them. */
  const DeployedNames := ["India", "USA", "UK", "Canada", "Australia", "UAE", "Singapore", "Germany", "France"]
  const LegacyNames := ["India", "United States", "United Kingdom", "United Arab Emirates"]

  lemma NamesAreKeys()
    ensures Keys(DeployedCountries) == DeployedNames
    ensures Keys(LegacyCountries) == LegacyNames
  {
  }

  /** Every rate is positive and India is the base currency. */
  predicate WellFormedTable(t: CountryTable) {
    RatesPositive(t) && Get(t, "India") == Some(IndiaInfo)
  }

  const IndiaInfo := CountryInfo("+91", "IN", "\U{20B9}", "INR", 1.0)

  predicate RatesPositive(t: CountryTable) {
    forall i :: 0 <= i < |t| ==> t[i].1.rateFromInr > 0.0
  }

  lemma DeployedRatesPositive()
    ensures RatesPositive(DeployedCountries)
  {
    var t := DeployedCountries;
    forall i | 0 <= i < |t|
      ensures t[i].1.rateFromInr > 0.0
    {
    }
  }

  lemma DeployedTableWellFormed()
    ensures WellFormedTable(DeployedCountries)
  {
    DeployedRatesPositive();
    var t := DeployedCountries;
    assert t[0] == ("India", IndiaInfo);
  }

  lemma LegacyTableWellFormed()
    ensures WellFormedTable(LegacyCountries)
  {
    var t := LegacyCountries;
    assert t[0] == ("India", IndiaInfo);
  }

  /** `countries.get(name, countries['India'])`: the deployed service's
      fallback when the stored country is not in the table. */
  function CountryOrIndia(t: CountryTable, name: string): (ci: CountryInfo)
    requires WellFormedTable(t)
    ensures name in Keys(t) ==> Some(ci) == Get(t, name)
    ensures name !in Keys(t) ==> Some(ci) == Get(t, "India") && ci == IndiaInfo
    ensures name !in Keys(t) ==> ci.rateFromInr == 1.0
    ensures ci.rateFromInr > 0.0
  {
    match Get(t, name)
    case Some(ci) =>
      GetStored(t, name);
      ci
    case None => Get(t, "India").value
  }
}
