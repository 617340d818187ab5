/**
 * A Record is one dated entry: an amount of money or of kilocalories, a free-text
 * comment and the calendar day it belongs to. Days are day numbers (consecutive
 * calendar days are consecutive integers), so "one week earlier" is `day - 7`.
 */
module Records {
  import opened Wrappers

  datatype Record = Record(amount: real, comment: string, date: int)

  /**
   * Building a record: an explicit day is kept, a missing one defaults to the day
   * on which the record is built (`today`, supplied by the caller instead of
   * being read from the clock). The amount and the comment are stored as given,
   * without any validation.
   */
  function NewRecord(amount: real, comment: string, date: Option<int>, today: int): (r: Record)
    ensures r.amount == amount && r.comment == comment
    ensures date.Some? ==> r.date == date.value
    ensures date.None? ==> r.date == today
  {
    match date
    case Some(d) => Record(amount, comment, d)
    case None => Record(amount, comment, today)
  }
}
