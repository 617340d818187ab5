# Daily limit calculator — a Dafny model

This project models a small statistics engine for dated entries (money spent
or kilocalories eaten) checked against a daily limit. A `Record` holds an
amount, a comment and a day. A `Calculator` keeps an append-only list of
records, a fixed limit and two accumulators, `counterToday` and `counterWeek`.
It can sum today's amounts and the last seven days' amounts into those
accumulators. Two variants then compare today's accumulator with the limit:

- the calorie calculator answers "you may eat up to N more kilocalories" or "stop eating";
- the cash calculator answers "N left", "no money" or "a debt of N". N is converted into
  roubles, US dollars or euros from a fixed table and rounded to two decimals.

The whole repository is this one file, `homework.py`.

Design of the model:

- `wrappers.dfy`: `Option` and `Result`.
- `records.dfy`: the `Record` value. A day is an integer day number, so "one week
  ago" is `today - 7`.
- `stats.dfy`: the specification of the two aggregation loops.
  - `InWindow` says which records a window admits (`Today`, or `today - 7 < date <= today` for `Week`).
  - `Sum` is the window's sum in list order.
  - `Matching` and `Total` give an independent filter-then-add definition.
- `calculator.dfy`: `class Calculator`, with its fields updated in place. The two stats
  methods are `for` loops whose invariants tie the accumulator to `Sum` over the
  records seen so far.
- `calories.dfy`, `cash.dfy`: the two variants. Dafny has no class inheritance here, so
  each variant is a class that holds its `Calculator` in a field `base`. Callers add
  records through `base`. Each variant's reply is specified by a pure function,
  `CaloriesVerdict` or `CashVerdict`, applied to the updated accumulator.
- `clients.dfy`: what a caller can prove from the contracts alone. This covers repeated
  calls, the two variants side by side, and concrete sessions.

"Today" is a parameter of every operation that reads the clock in the source.

Three facts about the code that a reader might not expect:

- The accumulators are never reset. Each stats call adds the whole window's sum on top of
  the accumulator's current value, so the stats calls are not idempotent. Repeated calls
  return 1×, 2×, 3× … today's sum (`RepeatedTodayStats`). A calorie question asked twice can
  therefore answer "may eat" and then "stop" (`AskingTwiceSession`).
- An unknown currency code fails only after `counter_today` has grown. Today's stats run
  first (homework.py:70), and the table lookup fails afterwards (homework.py:71). See
  `GetTodayCashRemained` and `UnsupportedCurrencySession`.
- There is no separate remainder operation. Both variants compute `limit - counter_today`
  inline, and so does the model.

## Model

| member | source | states |
|---|---|---|
| `Records.NewRecord` | homework.py:6-15 | amount and comment are stored unchanged; an explicit day is kept; a missing day becomes the day the record is built |
| `Calculators.Calculator.constructor` | homework.py:19-26 | a new calculator has no records, both accumulators at 0, and the limit it was given (unchecked) |
| `Calculators.Calculator.AddRecord` | homework.py:28-29 | exactly one record is appended at the end; earlier records, the limit and both accumulators are unchanged |
| `Calculators.Calculator.GetTodayStats` | homework.py:32-37 | `counterToday` grows by exactly the sum of amounts dated today and the new value is returned; records, limit and `counterWeek` are unchanged |
| `Calculators.Calculator.GetWeekStats` | homework.py:39-45 | `counterWeek` grows by exactly the sum of amounts with `today - 7 < date <= today` and the new value is returned; records, limit and `counterToday` are unchanged |
| `Stats.SumAppend` | homework.py:28-43 | appending a record changes a window's sum by that record's amount if it is in the window, and by nothing otherwise |
| `Stats.Matching` | homework.py:33-34 | every kept record is in the list and inside the window, and every record of the list inside the window is kept |
| `Stats.MatchingCounts` | homework.py:33-34 | each record inside the window is kept exactly as many times as it occurs in the list; every other record is dropped |
| `Stats.SumIsTotalOfMatching` | homework.py:33-35 | the accumulated window sum equals the plain total of exactly the records in the window |
| `Stats.WeekBoundary` | homework.py:40-43 | a record exactly seven days old or dated tomorrow adds nothing to the week; one dated today or six days ago adds its amount |
| `Stats.TodayAtMostWeek` | homework.py:32-45 | today's window lies inside the week's, so with non-negative amounts today's sum never exceeds the week's |
| `Calories.CaloriesVerdict` | homework.py:50-55 | "may eat" exactly when strictly below the limit, carrying the positive remainder `limit - eaten`; at or above the limit, "stop eating" |
| `Calories.StopEatingIsStable` | homework.py:50-55 | once the answer is "stop eating", eating more keeps it so |
| `Calories.CaloriesCalculator.constructor` | homework.py:48-49 | a new calorie calculator starts as a new calculator does |
| `Calories.CaloriesCalculator.GetCaloriesRemained` | homework.py:49-55 | today's accumulator is first increased as by today's stats; the reply is the verdict on the increased value |
| `Cash.CurrencyTableShape` | homework.py:59-68 | exactly `rub`, `usd` and `eur` are supported, named "руб", "USD" and "Euro", at rates 1, 73.59 and 87.98, all positive |
| `Cash.Round2` | homework.py:73 | the result is a whole number of hundredths, within 0.005 of the input, and an exact tie goes to an even number of hundredths |
| `Cash.Round2Exact` | homework.py:73 | a value with at most two decimals is left as it is |
| `Cash.CashVerdict` | homework.py:63-80 | an error exactly for an unknown code; otherwise "remaining" below, "no money" at, "debt" above the limit; the first and last carry the rounded gap divided by the rate, and the currency's name |
| `Cash.CashAmountConvertsBack` | homework.py:70-73 | the shown amount times the rate gives the gap between limit and spending, to within half a hundredth of the currency |
| `Cash.CashCalculator.constructor` | homework.py:58-62 | a new cash calculator starts as a new calculator does |
| `Cash.CashCalculator.GetTodayCashRemained` | homework.py:63-80 | today's accumulator is first increased as by today's stats, also when the code is unknown; the reply is the cash verdict on the increased value |
| `Clients.RepeatedTodayStats` | homework.py:23-37 | on an unchanged list the k-th call answers (k + 1) times today's sum; unless that sum is 0, no later call answers today's sum |
| `Clients.VariantsAtTheLimit` | homework.py:50-80 | below the limit both variants report room; at the limit calories say "stop" and cash says "no money"; above it calories say "stop" and cash reports a debt |
| `Clients.LunchSession` | homework.py:28-37 | a 500 lunch against a limit of 1000: today's stats are 500, and 500 remain |
| `Clients.OvereatingSession` | homework.py:49-55 | 2500 kilocalories against a limit of 2000: "stop eating" |
| `Clients.AskingTwiceSession` | homework.py:32-55 | 1000 eaten against 2000: the first question gives "may eat 1000", the same question again gives "stop eating" |
| `Clients.ExactlySpentSession` | homework.py:70-78 | spending exactly the limit gives "no money" and no amount |
| `Clients.EuroDebtSession` | homework.py:63-80 | 1200 spent against 1000 in euros: a debt of 2.27 Euro |
| `Clients.UnsupportedCurrencySession` | homework.py:63-72 | the code `gbp` fails, and the failed call has still added today's amount to the accumulator |

## Left out

- Console output: `print` in `add_record` and both stats operations. It changes neither state nor results.
- The clock. `datetime.now()` and `date.today()` become the parameter `today`. The source reads the clock at least once per loop iteration (twice in `get_week_stats`, once for each bound), so a loop running across midnight could mix two days; the model uses one day per call.
- Parsing of `DD.MM.YYYY` date strings with `strptime`, and the error it raises for a malformed or impossible date. It is a library call, so a record's day is given directly as a day number.
- Floating point: amounts, counters and rates are exact `real` numbers. `Round2` rounds the exact quotient half-to-even. Python's `round` works on the nearest binary float, so it can differ right at a `.xx5` boundary.
- Message text and string formatting. Replies are the constructors of `CaloriesMessage` and `CashMessage`.
- Inheritance. Each variant holds its `Calculator` in a field instead of extending it, so `AddRecord` and the two stats operations are reached through `base`.
- The currency table is a module constant. The source rebuilds the same dictionary literal on each call.
- The failing lookup is modelled as the `UnsupportedCurrency` error value. The Python `KeyError` exception is not modelled as such.
