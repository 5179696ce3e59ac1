/**
 * The three conversions between purchase price, annual rent, monthly rent and
 * gross yield (src/utils/financial.ts).  Numbers are modelled as mathematical
 * reals: the formulas never round, rounding is the caller's business.
 */
module Financial {

  /** Annual rent earned by a property of price `price` at gross yield `yieldPercent` (in percent). */
  function CalculateAnnualRent(price: real, yieldPercent: real): (annual: real)
    ensures annual * 100.0 == price * yieldPercent
    ensures price >= 0.0 && yieldPercent >= 0.0 ==> annual >= 0.0
  {
    price * (yieldPercent / 100.0)
  }

  /** Monthly share of an annual rent. */
  function CalculateMonthlyRent(annualRent: real): (monthly: real)
    ensures monthly * 12.0 == annualRent
  {
    annualRent / 12.0
  }

  /** Gross yield in percent of a property of price `price` let at `monthlyRent`; 0 for a zero price. */
  function CalculateYield(price: real, monthlyRent: real): (yieldPercent: real)
    ensures price == 0.0 ==> yieldPercent == 0.0
    ensures price != 0.0 ==> yieldPercent * price == monthlyRent * 1200.0
    ensures price > 0.0 && monthlyRent >= 0.0 ==> yieldPercent >= 0.0
  {
    if price == 0.0 then 0.0
    else
      var annualRent := monthlyRent * 12.0;
      (annualRent / price) * 100.0
  }

  /** Monthly rent at a given yield: the composition the calculator applies after a yield edit. */
  function RentAtYield(price: real, yieldPercent: real): real {
    CalculateMonthlyRent(CalculateAnnualRent(price, yieldPercent))
  }

  /** rent -> yield -> rent gives back the rent, for every nonzero price. */
  lemma RentYieldRoundTrip(price: real, monthlyRent: real)
    requires price != 0.0
    ensures RentAtYield(price, CalculateYield(price, monthlyRent)) == monthlyRent
  {
  }

  /** yield -> rent -> yield gives back the yield, for every nonzero price. */
  lemma YieldRentRoundTrip(price: real, yieldPercent: real)
    requires price != 0.0
    ensures CalculateYield(price, RentAtYield(price, yieldPercent)) == yieldPercent
  {
  }
}
