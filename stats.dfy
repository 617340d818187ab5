/**
 * The specification of the two aggregation loops: which records a window
 * admits, and the sum of their amounts over a list of records.
 */
module Stats {
  import opened Records

  /** The two windows the calculator aggregates over. */
  datatype Window = Today | Week

  /**
   * Whether a record dated `date` belongs to the window ending on `today`:
   * the day itself, or the seven days `today - 7 < date <= today` (a record
   * exactly one week old and a record dated in the future are both outside).
   */
  predicate InWindow(date: int, today: int, w: Window)
  {
    match w
    case Today => date == today
    case Week => today - 7 < date <= today
  }

  /** What one record adds to a window's sum. */
  function Share(r: Record, today: int, w: Window): real
  {
    if InWindow(r.date, today, w) then r.amount else 0.0
  }

  /**
   * The sum of the amounts of the records in the window, accumulated in list
   * order (the recursion peels off the last record, as a left-to-right loop
   * adds it last).
   */
  function Sum(rs: seq<Record>, today: int, w: Window): real
  {
    if rs == [] then 0.0 else Sum(rs[..|rs| - 1], today, w) + Share(rs[|rs| - 1], today, w)
  }

  /**
   * The records of `rs` that lie in the window; `MatchingCounts` shows that
   * each is kept as many times as it occurs in `rs`.
   */
  function Matching(rs: seq<Record>, today: int, w: Window): (m: seq<Record>)
    ensures |m| <= |rs|
    ensures forall i :: 0 <= i < |m| ==> m[i] in rs && InWindow(m[i].date, today, w)
    ensures forall i :: 0 <= i < |rs| && InWindow(rs[i].date, today, w) ==> rs[i] in m
  {
    if rs == [] then []
    else
      var rest := Matching(rs[1..], today, w);
      assert forall i :: 1 <= i < |rs| ==> rs[i] == rs[1..][i - 1];
      if InWindow(rs[0].date, today, w) then [rs[0]] + rest else rest
  }

  /** Each record in the window is kept exactly as often as it occurs in `rs`; every other record is dropped. */
  lemma {:induction false} MatchingCounts(rs: seq<Record>, today: int, w: Window, x: Record)
    ensures multiset(Matching(rs, today, w))[x] == if InWindow(x.date, today, w) then multiset(rs)[x] else 0
  {
    if rs != [] {
      assert rs == [rs[0]] + rs[1..];
      MatchingCounts(rs[1..], today, w, x);
    }
  }

  /** The plain sum of all amounts. */
  function Total(rs: seq<Record>): real
  {
    if rs == [] then 0.0 else rs[0].amount + Total(rs[1..])
  }

  /** Appending a record changes a window's sum by exactly that record's share. */
  lemma SumAppend(rs: seq<Record>, r: Record, today: int, w: Window)
    ensures Sum(rs + [r], today, w) == Sum(rs, today, w) + Share(r, today, w)
  {
  }

  lemma {:induction false} TotalConcat(a: seq<Record>, b: seq<Record>)
    ensures Total(a + b) == Total(a) + Total(b)
  {
    if a == [] {
      assert a + b == b;
    } else {
      assert (a + b)[1..] == a[1..] + b;
      TotalConcat(a[1..], b);
    }
  }

  lemma {:induction false} MatchingAppend(rs: seq<Record>, r: Record, today: int, w: Window)
    ensures Matching(rs + [r], today, w) == Matching(rs, today, w) + Matching([r], today, w)
  {
    if rs == [] {
      assert rs + [r] == [r];
    } else {
      assert (rs + [r])[1..] == rs[1..] + [r];
      MatchingAppend(rs[1..], r, today, w);
    }
  }

  /**
   * The window sum is the total of exactly the records inside the window:
   * records outside it contribute nothing, records inside it contribute their
   * whole amount.
   */
  lemma {:induction false} SumIsTotalOfMatching(rs: seq<Record>, today: int, w: Window)
    ensures Sum(rs, today, w) == Total(Matching(rs, today, w))
  {
    if rs != [] {
      var p, x := rs[..|rs| - 1], rs[|rs| - 1];
      assert rs == p + [x];
      SumIsTotalOfMatching(p, today, w);
      MatchingAppend(p, x, today, w);
      TotalConcat(Matching(p, today, w), Matching([x], today, w));
      assert [x][1..] == [];
    }
  }

  /**
   * The edges of the week window: a record dated exactly seven days ago or
   * one day in the future adds nothing, one dated today or six days ago adds
   * its amount.
   */
  lemma WeekBoundary(rs: seq<Record>, amount: real, comment: string, today: int)
    ensures Sum(rs + [Record(amount, comment, today - 7)], today, Week) == Sum(rs, today, Week)
    ensures Sum(rs + [Record(amount, comment, today + 1)], today, Week) == Sum(rs, today, Week)
    ensures Sum(rs + [Record(amount, comment, today - 6)], today, Week) == Sum(rs, today, Week) + amount
    ensures Sum(rs + [Record(amount, comment, today)], today, Week) == Sum(rs, today, Week) + amount
  {
  }

  /** Every record of today is also in this week, so with non-negative amounts today's sum never exceeds the week's. */
  lemma {:induction false} TodayAtMostWeek(rs: seq<Record>, today: int)
    requires forall i :: 0 <= i < |rs| ==> rs[i].amount >= 0.0
    ensures Sum(rs, today, Today) <= Sum(rs, today, Week)
  {
    if rs != [] {
      TodayAtMostWeek(rs[..|rs| - 1], today);
    }
  }
}
