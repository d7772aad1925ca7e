/** Due dates of settlements. */
module Calendar {
  import opened Wrappers
  import opened Tables

  predicate IsLeap(year: int) {
    year % 4 == 0 && (year % 100 != 0 || year % 400 == 0)
  }

  /** Month 0 is January of the year 0. */
  function DaysIn(month: int): (days: int)
    ensures 28 <= days <= 31
  {
    if month % 12 == 1 then if IsLeap(month / 12) then 29 else 28
    else if month % 12 in {3, 5, 8, 10} then 30
    else 31
  }

  function Earlier(a: Date, b: Date): Date {
    if a.month < b.month || (a.month == b.month && a.day <= b.day) then a else b
  }

  /** At most a month's worth of days later. */
  function Later(date: Date, days: nat): Date {
    if date.day + days <= DaysIn(date.month) then Date(date.month, date.day + days)
    else Date(date.month + 1, date.day + days - DaysIn(date.month))
  }

  /** The customer's due day in the month after the settled one, counted from its first day, but no later than its
      last day. */
  function DueDate(month: int, dueDay: DueDay): Date {
    Earlier(Date(month + 1, DaysIn(month + 1)), Later(Date(month + 1, 1), dueDay - 1))
  }

  /** A due day that the month does not have falls on its last day; the due date is always in the following month. */
  lemma DueInNextMonth(month: int, dueDay: DueDay)
    ensures DueDate(month, dueDay) == Date(month + 1, Min(dueDay, DaysIn(month + 1)))
  {
  }
}
