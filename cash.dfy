/**
 * The cash variant: after bringing today's accumulator up to date it reports
 * what is left, that nothing is left, or the debt, converted into one of three
 * fixed currencies.
 */
module Cash {
  import opened Wrappers
  import opened Stats
  import opened Calculators

  /** How one currency is shown: its display name and how many base units (roubles) one unit is worth. */
  datatype Currency = Currency(name: string, rate: real)

  const RubRate: real := 1.0
  const UsdRate: real := 73.59
  const EuroRate: real := 87.98

  /** The fixed table of supported currency codes; the rouble name is the Cyrillic "руб". */
  const CurrencyInfo: map<string, Currency> := map[
    "rub" := Currency("\U{0440}\U{0443}\U{0431}", RubRate),
    "usd" := Currency("USD", UsdRate),
    "eur" := Currency("Euro", EuroRate)
  ]

  datatype CashMessage =
    | Remaining(amount: real, name: string)   // `amount` units of the currency are left for today
    | NoMoney                                  // exactly at the limit
    | Debt(amount: real, name: string)        // over the limit by `amount` units of the currency

  datatype CashError = UnsupportedCurrency(code: string)

  /** Exactly three codes are supported, each with a positive rate. */
  lemma CurrencyTableShape()
    ensures CurrencyInfo.Keys == {"rub", "usd", "eur"}
    ensures forall code :: code in CurrencyInfo ==> CurrencyInfo[code].rate > 0.0
    ensures CurrencyInfo["rub"] == Currency("\U{0440}\U{0443}\U{0431}", 1.0)
    ensures CurrencyInfo["usd"] == Currency("USD", 73.59)
    ensures CurrencyInfo["eur"] == Currency("Euro", 87.98)
  {
  }

  function Abs(x: real): (r: real)
    ensures r >= 0.0 && (r == x || r == -x)
  {
    if x < 0.0 then -x else x
  }

  /**
   * Rounding to two decimal places, to the nearest hundredth with ties going to
   * an even number of hundredths.
   */
  function Round2(x: real): (r: real)
    ensures (r * 100.0).Floor as real == r * 100.0
    ensures -0.005 <= r - x <= 0.005
    ensures (r - x == 0.005 || x - r == 0.005) ==> (r * 100.0).Floor % 2 == 0
  {
    var scaled := x * 100.0;
    var k := scaled.Floor;
    var frac := scaled - k as real;
    var n := if frac < 0.5 then k else if frac > 0.5 then k + 1 else if k % 2 == 0 then k else k + 1;
    n as real / 100.0
  }

  /** A value that already has at most two decimals is its own rounding. */
  lemma Round2Exact(x: real)
    requires (x * 100.0).Floor as real == x * 100.0
    ensures Round2(x) == x
  {
  }

  /**
   * The reply for `spent` base units against `limit` in currency `code`: an
   * error exactly for an unknown code; otherwise one of three messages chosen by
   * comparing `spent` with `limit`, where "remaining" and "debt" carry the gap
   * converted into the currency and rounded, and the display name of the currency.
   */
  function CashVerdict(spent: real, limit: real, code: string): (r: Result<CashMessage, CashError>)
    ensures r.Err? <==> code !in CurrencyInfo
    ensures r.Err? ==> r.error == UnsupportedCurrency(code)
    ensures r.Ok? ==> (r.value.Remaining? <==> spent < limit)
    ensures r.Ok? ==> (r.value.NoMoney? <==> spent == limit)
    ensures r.Ok? ==> (r.value.Debt? <==> spent > limit)
    ensures r.Ok? && !r.value.NoMoney? ==>
      r.value.name == CurrencyInfo[code].name &&
      r.value.amount == Round2(Abs(limit - spent) / CurrencyInfo[code].rate)
  {
    if code !in CurrencyInfo then Err(UnsupportedCurrency(code))
    else
      var entry := CurrencyInfo[code];
      var remains := Round2(Abs(limit - spent) / entry.rate);
      if spent < limit then Ok(Remaining(remains, entry.name))
      else if spent == limit then Ok(NoMoney)
      else Ok(Debt(remains, entry.name))
  }

  /**
   * Converting the amount shown back into base units gives the gap between the
   * limit and what was spent, up to half a hundredth of the currency.
   */
  lemma CashAmountConvertsBack(spent: real, limit: real, code: string)
    requires CashVerdict(spent, limit, code).Ok? && !CashVerdict(spent, limit, code).value.NoMoney?
    ensures var rate := CurrencyInfo[code].rate;
      var shown := CashVerdict(spent, limit, code).value.amount;
      -0.005 * rate <= shown * rate - Abs(limit - spent) <= 0.005 * rate
  {
  }

  /** A cash calculator is a calculator with one more operation; `base` holds the shared state. */
  class CashCalculator {
    const base: Calculator

    constructor (limit: real)
      ensures fresh(base)
      ensures base.records == [] && base.limit == limit
      ensures base.counterToday == 0.0 && base.counterWeek == 0.0
    {
      base := new Calculator(limit);
    }

    /**
     * Runs the today-stats accumulation once, then looks the currency up and
     * compares the new value of the accumulator with the limit. An unknown
     * code fails only after the accumulator has been increased.
     */
    method GetTodayCashRemained(code: string, today: int) returns (r: Result<CashMessage, CashError>)
      modifies base`counterToday
      ensures base.counterToday == old(base.counterToday) + Sum(base.records, today, Today)
      ensures base.records == old(base.records) && base.limit == old(base.limit)
      ensures base.counterWeek == old(base.counterWeek)
      ensures r == CashVerdict(base.counterToday, base.limit, code)
    {
      var spent := base.GetTodayStats(today);
      var limitRate := Abs(base.limit - spent);
      if code !in CurrencyInfo {
        return Err(UnsupportedCurrency(code));
      }
      var entry := CurrencyInfo[code];
      var remains := Round2(limitRate / entry.rate);
      if base.counterToday < base.limit {
        r := Ok(Remaining(remains, entry.name));
      } else if base.counterToday == base.limit {
        r := Ok(NoMoney);
      } else {
        r := Ok(Debt(remains, entry.name));
      }
    }
  }
}
