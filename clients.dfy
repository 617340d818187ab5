/**
 * What a caller can prove from the calculators' contracts alone: the
 * cumulative behaviour of repeated stats calls, the two variants' different
 * treatment of "exactly at the limit", and concrete sessions.
 */
module Clients {
  import opened Wrappers
  import opened Records
  import opened Stats
  import opened Calculators
  import opened Calories
  import opened Cash

  /**
   * Builds a calculator holding `rs` and asks for today's stats `n` times:
   * the k-th answer (from 0) is k + 1 times today's sum, because the
   * accumulator is not reset between calls. Only the first answer is today's
   * sum itself, unless that sum is zero.
   */
  method RepeatedTodayStats(rs: seq<Record>, limit: real, today: int, n: nat) returns (answers: seq<real>)
    ensures |answers| == n
    ensures forall k :: 0 <= k < n ==> answers[k] == (k + 1) as real * Sum(rs, today, Today)
    ensures forall k :: 1 <= k < n && Sum(rs, today, Today) != 0.0 ==> answers[k] != Sum(rs, today, Today)
  {
    var c := new Calculator(limit);
    for i := 0 to |rs|
      invariant c.records == rs[..i] && c.counterToday == 0.0
    {
      assert rs[..i + 1] == rs[..i] + [rs[i]];
      c.AddRecord(rs[i]);
    }
    assert rs[..|rs|] == rs;
    answers := [];
    for k := 0 to n
      invariant c.records == rs
      invariant c.counterToday == k as real * Sum(rs, today, Today)
      invariant |answers| == k
      invariant forall j :: 0 <= j < k ==> answers[j] == (j + 1) as real * Sum(rs, today, Today)
    {
      var a := c.GetTodayStats(today);
      answers := answers + [a];
    }
    var s := Sum(rs, today, Today);
    forall k | 1 <= k < n && s != 0.0
      ensures answers[k] != s
    {
      assert answers[k] - s == k as real * s;
      assert k as real * s != 0.0 by {
        if s > 0.0 { assert k as real * s >= s; } else { assert k as real * s <= s; }
      }
    }
  }

  /**
   * Below the limit both variants say there is room; exactly at the limit the
   * calorie variant says "stop" while the cash variant says "no money" and
   * shows no amount; above it the cash variant reports a debt.
   */
  lemma VariantsAtTheLimit(spent: real, limit: real, code: string)
    requires code in CurrencyInfo
    ensures CaloriesVerdict(spent, limit).MayEat? <==> CashVerdict(spent, limit, code).value.Remaining?
    ensures spent == limit ==> CaloriesVerdict(spent, limit) == StopEating && CashVerdict(spent, limit, code) == Ok(NoMoney)
    ensures spent > limit ==> CaloriesVerdict(spent, limit) == StopEating && CashVerdict(spent, limit, code).value.Debt?
  {
  }

  /** Scenario: a 500 lunch against a limit of 1000 gives today's stats of 500, 500 below the limit. */
  method LunchSession(today: int) returns (stats: real, left: real)
    ensures stats == 500.0 && left == 500.0
  {
    var c := new Calculator(1000.0);
    c.AddRecord(NewRecord(500.0, "lunch", Some(today), today));
    assert [Record(500.0, "lunch", today)][..0] == [];
    stats := c.GetTodayStats(today);
    left := c.limit - c.counterToday;
  }

  /** Scenario: 2500 kilocalories against a limit of 2000 gives "stop eating". */
  method OvereatingSession(today: int) returns (m: CaloriesMessage)
    ensures m == StopEating
  {
    var cc := new CaloriesCalculator(2000.0);
    cc.base.AddRecord(Record(2500.0, "", today));
    assert [Record(2500.0, "", today)][..0] == [];
    m := cc.GetCaloriesRemained(today);
  }

  /**
   * Scenario: 1000 eaten against a limit of 2000. The first question answers
   * "may eat 1000 more"; asking again without eating anything answers "stop",
   * because the second call adds today's 1000 once more.
   */
  method AskingTwiceSession(today: int) returns (first: CaloriesMessage, second: CaloriesMessage)
    ensures first == MayEat(1000.0) && second == StopEating
  {
    var cc := new CaloriesCalculator(2000.0);
    cc.base.AddRecord(Record(1000.0, "", today));
    assert [Record(1000.0, "", today)][..0] == [];
    first := cc.GetCaloriesRemained(today);
    second := cc.GetCaloriesRemained(today);
  }

  /** Scenario: spending exactly the limit gives "no money", with no amount, in any currency. */
  method ExactlySpentSession(today: int) returns (r: Result<CashMessage, CashError>)
    ensures r == Ok(NoMoney)
  {
    var cc := new CashCalculator(1000.0);
    cc.base.AddRecord(Record(1000.0, "", today));
    assert [Record(1000.0, "", today)][..0] == [];
    r := cc.GetTodayCashRemained("usd", today);
  }

  /** Scenario: 1200 spent against 1000 is a debt of 200 roubles, shown as 2.27 Euro. */
  method EuroDebtSession(today: int) returns (r: Result<CashMessage, CashError>)
    ensures r == Ok(Debt(2.27, "Euro"))
  {
    var cc := new CashCalculator(1000.0);
    cc.base.AddRecord(Record(1200.0, "", today));
    assert [Record(1200.0, "", today)][..0] == [];
    r := cc.GetTodayCashRemained("eur", today);
    var x := 200.0 / 87.98;
    assert 227.0 <= x * 100.0 < 227.5;
    assert (x * 100.0).Floor == 227;
  }

  /**
   * Scenario: an unsupported code fails, and the failed call has still added
   * today's 300 to the accumulator.
   */
  method UnsupportedCurrencySession(today: int) returns (r: Result<CashMessage, CashError>, counter: real)
    ensures r == Err(UnsupportedCurrency("gbp"))
    ensures counter == 300.0
  {
    var cc := new CashCalculator(1000.0);
    cc.base.AddRecord(Record(300.0, "", today));
    assert [Record(300.0, "", today)][..0] == [];
    r := cc.GetTodayCashRemained("gbp", today);
    counter := cc.base.counterToday;
  }
}
