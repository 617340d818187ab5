/**
 * The shared statistics engine: an append-only list of records, a limit fixed
 * at construction, and two accumulators that the stats operations add into.
 * The accumulators are never reset, so each stats call adds the window's sum
 * to whatever earlier calls left there.
 */
module Calculators {
  import opened Records
  import opened Stats

  class Calculator {
    var records: seq<Record>
    var limit: real
    var counterToday: real
    var counterWeek: real

    /** A new calculator: no records, both accumulators at zero, the limit as given (any value, unchecked). */
    constructor (limit: real)
      ensures records == [] && this.limit == limit
      ensures counterToday == 0.0 && counterWeek == 0.0
    {
      records := [];
      this.limit := limit;
      counterToday := 0.0;
      counterWeek := 0.0;
    }

    /** Appends one record at the end; nothing else changes. */
    method AddRecord(r: Record)
      modifies this`records
      ensures records == old(records) + [r]
      ensures limit == old(limit)
      ensures counterToday == old(counterToday) && counterWeek == old(counterWeek)
    {
      records := records + [r];
    }

    /**
     * Adds the amounts of today's records into `counterToday` and returns the
     * new value of that accumulator.
     */
    method GetTodayStats(today: int) returns (total: real)
      modifies this`counterToday
      ensures counterToday == old(counterToday) + Sum(records, today, Today)
      ensures total == counterToday
      ensures records == old(records) && limit == old(limit) && counterWeek == old(counterWeek)
    {
      for i := 0 to |records|
        invariant counterToday == old(counterToday) + Sum(records[..i], today, Today)
      {
        assert records[..i + 1] == records[..i] + [records[i]];
        SumAppend(records[..i], records[i], today, Today);
        if records[i].date == today {
          counterToday := counterToday + records[i].amount;
        }
      }
      assert records[..|records|] == records;
      total := counterToday;
    }

    /**
     * Adds the amounts of this week's records (`today - 7 < date <= today`)
     * into `counterWeek` and returns the new value of that accumulator.
     */
    method GetWeekStats(today: int) returns (total: real)
      modifies this`counterWeek
      ensures counterWeek == old(counterWeek) + Sum(records, today, Week)
      ensures total == counterWeek
      ensures records == old(records) && limit == old(limit) && counterToday == old(counterToday)
    {
      for i := 0 to |records|
        invariant counterWeek == old(counterWeek) + Sum(records[..i], today, Week)
      {
        assert records[..i + 1] == records[..i] + [records[i]];
        SumAppend(records[..i], records[i], today, Week);
        if today >= records[i].date > today - 7 {
          counterWeek := counterWeek + records[i].amount;
        }
      }
      assert records[..|records|] == records;
      total := counterWeek;
    }
  }
}
