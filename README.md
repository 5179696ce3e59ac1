# RentSmart yield calculator: a Dafny model

A model of the calculation engine of the RentSmart rental-yield calculator. The user enters a
purchase price and either a monthly rent or a target gross yield. The engine computes the
missing value and classifies the yield into a verdict tier from per-country thresholds.

- `financial.dfy` (module `Financial`): the three formulas linking price, annual rent, monthly
  rent and gross yield, over mathematical reals, with the zero-price guard.
- `countries.dfy` (module `Countries`): the immutable table of five countries and their four
  yield thresholds, plus the default code `"MA"`.
- `benchmarks.dfy` (module `Benchmarks`): `getVerdict`, which looks up the country with a
  fallback to Morocco and then runs a five-step first-match chain of comparisons.
- `calculator.dfy` (module `Calculator`): the `useCalculator` hook. It is a class with the three
  text cells and the three edit handlers, each specified by a pure transition on a `Fields`
  value. It also holds the lemmas about sessions of edits.
- `wrappers.dfy`: the `Option` type. `None` stands for `NaN`.

`parseFloat`, `toFixed(2)` and `toFixed(0)` belong to the JavaScript host. They are the three
function-valued parameters of a `NumberText` value that the calculator object holds. So every
calculator property holds for any parser and any rounding. The worked examples state the few
parser and rounding facts they rely on as preconditions.

Where the design description and the code differ, the model follows the code:
- An edit whose text does not parse (`parseFloat` gives `NaN`) stores the text and recomputes
  nothing. Only the other, stored field is read with the zero default of `getN`.
- A price that parses to 0 leaves the yield text as it was. It is not reset to 0, because
  `updateYield` returns early.
- A yield edit recomputes the rent even when the price reads as 0. The rent then becomes
  `toFixed(0)` of 0.
- "Exactly one of the two derivations always holds" is not true after an edit whose text does
  not parse. The invariant proved instead is `Consistent`: once all three texts parse and the
  price is not 0, the yield or the rent is the derived value. The last edit decides which one.
- Monotonicity of the classifier needs no ordering of the thresholds. Each step's test is
  closed downwards, so it holds for every threshold table.

## Model

| member | source | states |
|---|---|---|
| Financial.CalculateAnnualRent | src/utils/financial.ts:7-9 | annual rent times 100 equals price times yield; no clamping; non-negative for non-negative price and yield |
| Financial.CalculateMonthlyRent | src/utils/financial.ts:16-18 | twelve monthly rents make the annual rent |
| Financial.CalculateYield | src/utils/financial.ts:26-30 | a zero price gives yield 0 (no division by zero); otherwise yield times price equals 1200 times the monthly rent; non-negative for a positive price and non-negative rent |
| Financial.RentYieldRoundTrip | src/utils/financial.ts:7-30 | for every nonzero price, rent to yield to rent gives back the rent exactly |
| Financial.YieldRentRoundTrip | src/utils/financial.ts:7-30 | for every nonzero price, yield to rent to yield gives back the yield exactly |
| Countries.TableShape | src/utils/countries.ts:18-91 | the table has exactly the keys MA, FR, US, GB, AE; each entry's code is its key; every entry has bad < average < good <= excellent and good == excellent; the default code MA is present with thresholds (4, 6, 7, 7) |
| Benchmarks.Classify | src/utils/benchmarks.ts:13-44 | the returned description key always belongs to the returned verdict tier (safeLow and standard both to average) |
| Benchmarks.BenchmarksFor | src/utils/benchmarks.ts:10 | a known code gets its own thresholds and any other code gets Morocco's; the thresholds found are always ordered with good == excellent |
| Benchmarks.GetVerdict | src/utils/benchmarks.ts:9-44 | total: a known code is classified against its own thresholds, any other code against the default country's |
| Benchmarks.UnknownCodeFallsBack | src/utils/benchmarks.ts:9-10 | an unknown code classifies exactly as a call with the default argument "MA" |
| Benchmarks.ClassifyIntervals | src/utils/benchmarks.ts:13-44 | with ordered thresholds each of the five results is returned exactly on its interval: tooLow below bad, safeLow on [bad, average), standard on [average, good), profitable on [good, excellent], highProfit above excellent |
| Benchmarks.ClassifyMonotone | src/utils/benchmarks.ts:13-44 | for any thresholds, a larger yield never gets a lower tier in bad < average < good < excellent |
| Benchmarks.GoodIsSinglePoint | src/utils/benchmarks.ts:34-39 | for every country code, the verdict is good if and only if the yield equals the good threshold |
| Benchmarks.GetVerdictAsWritten | src/utils/benchmarks.ts:10-13 | the lookup as written over the object's prototype chain fails if and only if the code is an inherited property name |
| Benchmarks.ConstructorCodeThrows | src/utils/benchmarks.ts:10-13 | the code "constructor" makes the written lookup throw, while the intended fallback classifies it as Morocco |
| Benchmarks.AsWrittenAgreesOffPrototype | src/utils/benchmarks.ts:10 | on every code that is not an inherited property name, the written lookup and the fallback lookup give the same result |
| Calculator.GetN | src/hooks/useCalculator.ts:14 | the parsed number, or 0 when the text is NaN; a nonzero result is what the text parses to |
| Calculator.PriceEdited | src/hooks/useCalculator.ts:28-36 | the price text is stored verbatim, the rent is never changed, and the yield changes only when the new price parses to a nonzero number |
| Calculator.RentEdited | src/hooks/useCalculator.ts:38-45 | the rent text is stored verbatim, the price is never changed, and the yield changes only when the rent parses and the stored price does not read as 0 |
| Calculator.YieldEdited | src/hooks/useCalculator.ts:47-54 | the yield text is stored verbatim, the price is never changed, and the rent changes only when the yield parses |
| Calculator.PriceEditDerivesYield | src/hooks/useCalculator.ts:16-36 | a price edit that parses to a nonzero number leaves the yield equal to the 2-decimal yield of the new price and the stored rent |
| Calculator.ZeroPriceKeepsYield | src/hooks/useCalculator.ts:16-36 | a price edit that parses to 0 stores the price and leaves both other fields untouched |
| Calculator.RentEditDerivesYield | src/hooks/useCalculator.ts:16-20 | a rent edit that parses, under a price that does not read as 0, leaves the yield derived from price and rent |
| Calculator.YieldEditDerivesRent | src/hooks/useCalculator.ts:22-26 | a yield edit that parses leaves the rent equal to the whole-unit rent of the price at that yield, with no zero-price guard |
| Calculator.UnparsableEditOnlyStores | src/hooks/useCalculator.ts:28-54 | an edit whose text is NaN stores the text and changes no other field |
| Calculator.UnparsableRentCountsAsZero | src/hooks/useCalculator.ts:14 | unparsable stored rent text counts as rent 0 in a price edit's recomputation and is itself left as typed |
| Calculator.EditFootprint | src/hooks/useCalculator.ts:28-54 | only a price edit writes the price, a price edit never writes the rent, and rent and yield edits never write the price |
| Calculator.EditLeavesConsistent | src/hooks/useCalculator.ts:16-54 | after any edit from any state the fields are consistent: when all three parse and the price is not 0, a yield edit leaves the rent derived and any other edit the yield |
| Calculator.ReplayConsistent | src/hooks/useCalculator.ts:28-54 | after any non-empty session of edits the fields are consistent |
| Calculator.ReplayPrice | src/hooks/useCalculator.ts:28-54 | after any session the price text is the text of the last price edit, or the initial price if there was none |
| Calculator.InitialState | src/hooks/useCalculator.ts:9-11 | the seed price and rent give yield 5.001, which the seed yield "5.00" renders, and with MA thresholds the seed yield is average, "safeLow" |
| Calculator.YieldTenAtInitialPrice | src/hooks/useCalculator.ts:47-54 | typing yield 10 at price 400000 writes the rent 10000/3 rendered to whole units (nearest integer 3333) and keeps price and yield text |
| Calculator.CalculatorState.constructor | src/hooks/useCalculator.ts:9-11 | the cells start as ("400000", "1667", "5.00") |
| Calculator.CalculatorState.UpdateYield | src/hooks/useCalculator.ts:16-20 | a zero price leaves the yield cell alone; otherwise it gets the 2-decimal yield; nothing else is written |
| Calculator.CalculatorState.UpdateRent | src/hooks/useCalculator.ts:22-26 | the rent cell gets the whole-unit monthly rent at the given price and yield; nothing else is written |
| Calculator.CalculatorState.HandlePriceChange | src/hooks/useCalculator.ts:28-36 | the new cells are the price-edit transition of the old cells; the rent cell is not in the frame |
| Calculator.CalculatorState.HandleRentChange | src/hooks/useCalculator.ts:38-45 | the new cells are the rent-edit transition of the old cells; the price cell is not in the frame |
| Calculator.CalculatorState.HandleYieldChange | src/hooks/useCalculator.ts:47-54 | the new cells are the yield-edit transition of the old cells; the price cell is not in the frame |
| Calculator.CalculatorState.Verdict | src/hooks/useCalculator.ts:57-58 | the exposed verdict classifies the parsed yield text for the selected country, and classifies an unparsable yield text as yield 0 |

## Findings

| source | as written | input that shows it | evidently intended | confidence | as-written member | corrected member |
|---|---|---|---|---|---|---|
| src/utils/benchmarks.ts:10-13 | The lookup indexes a plain object literal and falls back to `COUNTRIES['MA']` only on a falsy value. A code naming an inherited property (`constructor`, `__proto__`, `toString`, ...) gives a truthy value that is not a country. `benchmarks` is then undefined and reading `benchmarks.bad` throws a TypeError | `getVerdict(5, 'constructor')`; the code can come from the `selectedCountry` entry in local storage | every code that is not in the table falls back to Morocco and the function never throws | medium, not executed | Benchmarks.GetVerdictAsWritten (exhibited by Benchmarks.ConstructorCodeThrows) | Benchmarks.GetVerdict (Benchmarks.UnknownCodeFallsBack, Benchmarks.AsWrittenAgreesOffPrototype) |

## Left out

- IEEE-754 doubles: numbers are mathematical reals. So the round trips hold exactly, and there is no `Infinity`, `-0` or precision loss.
- `parseFloat`'s prefix rules (`"5."` reads as 5) and the decimal rounding of `toFixed`: both are parameters of the model, not definitions.
- The rounding tolerance of a round trip through the displayed texts: it depends on `toFixed`, which is not defined here.
- React's re-render timing and stale closures: each handler runs atomically on the current cells.
- The `numericPrice`, `numericRent` and `numericYield` values the hook returns: each is `GetN` of one cell and is not modelled separately.
- The country provider's own fallback and its local storage: the selected code is a parameter of `Verdict`.
- Flag emoji in the country table: presentation only.
- Authentication, persistence, lead capture, analytics, rendering and localisation: outside the calculation engine.
