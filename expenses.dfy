/**
 * The expense record that the tracker stores, and the calendar notions
 * the monthly view is built from.
 */
module Expenses {

  /**
   * A moment in time as the page's `Date` objects expose it: `time` is the
   * millisecond time value that two dates are compared (subtracted) by,
   * and `year`, `month` (0-based, January is 0) and `day` are the local
   * calendar fields that `getFullYear`, `getMonth` and the short date
   * display read off that same moment.
   */
  datatype Timestamp = Timestamp(time: int, year: int, month: int, day: int)

  /** The calendar month of "now": the year and the 0-based month. */
  datatype YearMonth = YearMonth(year: int, month: int)

  /**
   * One stored expense. `amount` is in minor currency units (cents);
   * `category` is whatever the form's select held; `note` may be empty.
   */
  datatype Expense = Expense(id: int, amount: int, category: string, note: string, date: Timestamp)

  /** An expense falls in the month `now` when both its month and its year agree. */
  predicate InMonth(e: Expense, now: YearMonth)
  {
    e.date.month == now.month && e.date.year == now.year
  }

  /** The records, most recent first: no record is later than one before it. */
  predicate DescendingByDate(s: seq<Expense>)
  {
    forall p, q :: 0 <= p < q < |s| ==> s[q].date.time <= s[p].date.time
  }
}
