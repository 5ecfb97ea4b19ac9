/** How many whole days the daily backfill has to fetch. */
module DaySpan {

  const SecondsPerDay: int := 24 * 3600

  /** Whole days from `startDate` to `todayStart`: the quotient by 86400 truncated
      toward zero, as Python's int() truncates the float quotient. */
  function CountDays(todayStart: int, startDate: int): (days: int)
    ensures var d := todayStart - startDate;
      d >= 0 ==> 0 <= days && days * SecondsPerDay <= d < (days + 1) * SecondsPerDay
    ensures var d := todayStart - startDate;
      d <= 0 ==> days <= 0 && (days - 1) * SecondsPerDay < d <= days * SecondsPerDay
  {
    var d := todayStart - startDate;
    if d >= 0 then d / SecondsPerDay else -((-d) / SecondsPerDay)
  }

  /** A start less than a day away from today's start, on either side, gives no days to fetch. */
  lemma LessThanADayIsZero(todayStart: int, startDate: int)
    requires -SecondsPerDay < todayStart - startDate < SecondsPerDay
    ensures CountDays(todayStart, startDate) == 0
  {
  }

  /** Whole days count exactly: a start exactly n days before today gives n. */
  lemma WholeDays(todayStart: int, n: int)
    ensures CountDays(todayStart, todayStart - n * SecondsPerDay) == n
  {
  }
}
