/**
 * The per-country configuration table (src/utils/countries.ts): five countries,
 * each with the four yield thresholds the verdict classifier reads.
 */
module Countries {

  /** Yield thresholds in percent: below `bad` is bad, below `average` average, and so on. */
  datatype YieldBenchmarks = YieldBenchmarks(bad: real, average: real, good: real, excellent: real)

  datatype Language = En | Fr | Ar

  /** One country's configuration; the flag emoji is presentation only and is not kept. */
  datatype CountryConfig = CountryConfig(
    code: string,
    name: string,
    currency: string,
    currencySymbol: string,
    defaultLanguage: Language,
    benchmarks: YieldBenchmarks)

  const COUNTRIES: map<string, CountryConfig> := map[
    "MA" := CountryConfig("MA", "Morocco", "MAD", "MAD", Fr, YieldBenchmarks(4.0, 6.0, 7.0, 7.0)),
    "FR" := CountryConfig("FR", "France", "EUR", "\U{20AC}", Fr, YieldBenchmarks(3.0, 5.0, 6.0, 6.0)),
    "US" := CountryConfig("US", "United States", "USD", "$", En, YieldBenchmarks(5.0, 7.0, 10.0, 10.0)),
    "GB" := CountryConfig("GB", "United Kingdom", "GBP", "\U{00A3}", En, YieldBenchmarks(4.0, 6.0, 8.0, 8.0)),
    "AE" := CountryConfig("AE", "United Arab Emirates", "AED", "AED", Ar, YieldBenchmarks(5.0, 7.0, 9.0, 9.0))
  ]

  const DEFAULT_COUNTRY: string := "MA"

  /** Thresholds in the order their names promise: bad < average < good <= excellent. */
  predicate StrictlyOrdered(b: YieldBenchmarks) {
    b.bad < b.average < b.good <= b.excellent
  }

  /** The table holds exactly the five countries, each filed under its own code, with ordered
      thresholds whose `good` and `excellent` coincide; the default code is one of them. */
  lemma TableShape()
    ensures COUNTRIES.Keys == {"MA", "FR", "US", "GB", "AE"}
    ensures DEFAULT_COUNTRY in COUNTRIES
    ensures COUNTRIES[DEFAULT_COUNTRY].benchmarks == YieldBenchmarks(4.0, 6.0, 7.0, 7.0)
    ensures forall code | code in COUNTRIES :: COUNTRIES[code].code == code
    ensures forall code | code in COUNTRIES :: StrictlyOrdered(COUNTRIES[code].benchmarks)
    ensures forall code | code in COUNTRIES ::
      COUNTRIES[code].benchmarks.good == COUNTRIES[code].benchmarks.excellent
  {
  }
}
