/**
 * The benchmark classifier (src/utils/benchmarks.ts): a country lookup that
 * falls back to Morocco, then a five-step first-match chain of threshold
 * comparisons producing a verdict tier and a description key.
 */
module Benchmarks {
  import opened Wrappers
  import opened Countries

  /** The four verdict tiers (src/components/ui/VerdictBadge.tsx), in increasing order. */
  datatype Verdict = Bad | Average | Good | Excellent

  /** The description keys handed to the localisation layer. */
  datatype Description = TooLow | SafeLow | Standard | Profitable | HighProfit {

    /** The translation key the source returns. */
    function Key(): string {
      match this
      case TooLow => "verdictDescription.tooLow"
      case SafeLow => "verdictDescription.safeLow"
      case Standard => "verdictDescription.standard"
      case Profitable => "verdictDescription.profitable"
      case HighProfit => "verdictDescription.highProfit"
    }
  }

  datatype BenchmarkResult = BenchmarkResult(verdict: Verdict, description: Description)

  /** Position of a tier in the order bad < average < good < excellent. */
  function Tier(v: Verdict): nat {
    match v
    case Bad => 0
    case Average => 1
    case Good => 2
    case Excellent => 3
  }

  /** The tier each description key belongs to; `SafeLow` and `Standard` share `Average`. */
  function VerdictOf(d: Description): Verdict {
    match d
    case TooLow => Bad
    case SafeLow | Standard => Average
    case Profitable => Good
    case HighProfit => Excellent
  }

  /** The threshold chain of getVerdict, after the country has been looked up. */
  function Classify(yieldPercent: real, b: YieldBenchmarks): (r: BenchmarkResult)
    ensures r.verdict == VerdictOf(r.description)
  {
    if yieldPercent < b.bad then BenchmarkResult(Bad, TooLow)
    else if yieldPercent < b.average then BenchmarkResult(Average, SafeLow)
    else if yieldPercent < b.good then BenchmarkResult(Average, Standard)
    else if yieldPercent <= b.excellent then BenchmarkResult(Good, Profitable)
    else BenchmarkResult(Excellent, HighProfit)
  }

  /** `COUNTRIES[countryCode] || COUNTRIES['MA']`, taken as a lookup of the table's own keys. */
  function BenchmarksFor(countryCode: string): (b: YieldBenchmarks)
    ensures countryCode in COUNTRIES ==> b == COUNTRIES[countryCode].benchmarks
    ensures countryCode !in COUNTRIES ==> b == COUNTRIES["MA"].benchmarks
    ensures StrictlyOrdered(b) && b.good == b.excellent
  {
    TableShape();
    if countryCode in COUNTRIES then COUNTRIES[countryCode].benchmarks else COUNTRIES["MA"].benchmarks
  }

  /** getVerdict: classify a yield against a country's thresholds; the code defaults to "MA". */
  function GetVerdict(yieldPercent: real, countryCode: string := "MA"): (r: BenchmarkResult)
    ensures countryCode in COUNTRIES ==> r == Classify(yieldPercent, COUNTRIES[countryCode].benchmarks)
    ensures countryCode !in COUNTRIES ==> r == Classify(yieldPercent, COUNTRIES[DEFAULT_COUNTRY].benchmarks)
  {
    Classify(yieldPercent, BenchmarksFor(countryCode))
  }

  /** An unknown country code classifies exactly as the default argument "MA" does. */
  lemma UnknownCodeFallsBack(y: real, countryCode: string)
    requires countryCode !in COUNTRIES
    ensures GetVerdict(y, countryCode) == GetVerdict(y)
  {
  }

  /** The five steps as intervals: with ordered thresholds each result is returned on exactly
      its own interval, a yield equal to `bad` is not bad, and one equal to `excellent` is good. */
  lemma ClassifyIntervals(y: real, b: YieldBenchmarks)
    requires b.bad <= b.average <= b.good <= b.excellent
    ensures Classify(y, b) == BenchmarkResult(Bad, TooLow) <==> y < b.bad
    ensures Classify(y, b) == BenchmarkResult(Average, SafeLow) <==> b.bad <= y < b.average
    ensures Classify(y, b) == BenchmarkResult(Average, Standard) <==> b.average <= y < b.good
    ensures Classify(y, b) == BenchmarkResult(Good, Profitable) <==> b.good <= y <= b.excellent
    ensures Classify(y, b) == BenchmarkResult(Excellent, HighProfit) <==> b.excellent < y
  {
  }

  /** A higher yield never gets a lower tier, whatever the thresholds: every step's test is
      closed downwards, so the index of the first step that matches can only grow with the yield. */
  lemma ClassifyMonotone(y1: real, y2: real, b: YieldBenchmarks)
    requires y1 <= y2
    ensures Tier(Classify(y1, b).verdict) <= Tier(Classify(y2, b).verdict)
  {
  }

  /** For every country of the table, and for any unknown code, the `good` verdict is given at
      exactly one yield: the `good` threshold. */
  lemma GoodIsSinglePoint(y: real, countryCode: string)
    ensures GetVerdict(y, countryCode).verdict == Good <==> y == BenchmarksFor(countryCode).good
  {
    ClassifyIntervals(y, BenchmarksFor(countryCode));
  }

  /** Property names every JavaScript object inherits from Object.prototype.  Indexing
      COUNTRIES with one of them gives a truthy value that is not a country, so the
      `|| COUNTRIES['MA']` fallback is skipped and reading `benchmarks.bad` throws a TypeError. */
  const INHERITED_NAMES: set<string> := {
    "constructor", "__proto__", "toString", "toLocaleString", "valueOf", "hasOwnProperty",
    "isPrototypeOf", "propertyIsEnumerable", "__defineGetter__", "__defineSetter__",
    "__lookupGetter__", "__lookupSetter__"
  }

  /** getVerdict exactly as written, over the prototype chain of the table object:
      `None` stands for the TypeError thrown when the lookup lands on an inherited name. */
  function GetVerdictAsWritten(yieldPercent: real, countryCode: string): (r: Option<BenchmarkResult>)
    ensures r == None <==> countryCode in INHERITED_NAMES
  {
    if countryCode in COUNTRIES then Some(Classify(yieldPercent, COUNTRIES[countryCode].benchmarks))
    else if countryCode in INHERITED_NAMES then None
    else Some(Classify(yieldPercent, COUNTRIES["MA"].benchmarks))
  }

  /** The code "constructor" makes the written lookup throw, while the intended fallback
      classifies it as Morocco. */
  lemma ConstructorCodeThrows(y: real)
    ensures GetVerdictAsWritten(y, "constructor") == None
    ensures GetVerdict(y, "constructor") == GetVerdict(y)
  {
  }

  /** On every code that is not an inherited property name the written lookup and the
      fallback lookup agree. */
  lemma AsWrittenAgreesOffPrototype(y: real, countryCode: string)
    requires countryCode !in INHERITED_NAMES
    ensures GetVerdictAsWritten(y, countryCode) == Some(GetVerdict(y, countryCode))
  {
  }
}
