/**
 * The calorie variant: after bringing today's accumulator up to date it tells
 * whether more may be eaten, and how much, or that eating must stop. Being
 * exactly at the limit already counts as "stop".
 */
module Calories {
  import opened Stats
  import opened Calculators

  datatype CaloriesMessage =
    | MayEat(kcal: real)   // more may be eaten today, at most `kcal` kilocalories
    | StopEating

  /**
   * The message for `eaten` kilocalories against `limit`: "may eat" exactly
   * when strictly under the limit, carrying the positive remainder, from which
   * the amount eaten can be read back.
   */
  function CaloriesVerdict(eaten: real, limit: real): (m: CaloriesMessage)
    ensures m.MayEat? <==> eaten < limit
    ensures m.MayEat? ==> m.kcal > 0.0 && eaten == limit - m.kcal
  {
    if eaten < limit then MayEat(limit - eaten) else StopEating
  }

  /** Eating more never turns "stop" back into "may eat". */
  lemma StopEatingIsStable(eaten: real, more: real, limit: real)
    requires CaloriesVerdict(eaten, limit) == StopEating && more >= 0.0
    ensures CaloriesVerdict(eaten + more, limit) == StopEating
  {
  }

  /** A calorie calculator is a calculator with one more operation; `base` holds the shared state. */
  class CaloriesCalculator {
    const base: Calculator

    constructor (limit: real)
      ensures fresh(base)
      ensures base.records == [] && base.limit == limit
      ensures base.counterToday == 0.0 && base.counterWeek == 0.0
    {
      base := new Calculator(limit);
    }

    /**
     * Runs the today-stats accumulation once, then compares the new value of
     * the accumulator with the limit.
     */
    method GetCaloriesRemained(today: int) returns (m: CaloriesMessage)
      modifies base`counterToday
      ensures base.counterToday == old(base.counterToday) + Sum(base.records, today, Today)
      ensures base.records == old(base.records) && base.limit == old(base.limit)
      ensures base.counterWeek == old(base.counterWeek)
      ensures m == CaloriesVerdict(base.counterToday, base.limit)
    {
      var eaten := base.GetTodayStats(today);
      if eaten < base.limit {
        m := MayEat(base.limit - base.counterToday);
      } else {
        m := StopEating;
      }
    }
  }
}
