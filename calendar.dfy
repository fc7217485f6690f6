/**
  java.time as the product family uses it: a LocalDate compared for
  equality and rendered by toString, and a LocalTime compared with
  isAfter/isBefore. Clock readings (LocalDate.now, LocalTime.now) are
  parameters of the operations that make them.
 */
module Calendar {
  import opened Text

  /** A year, month and day, not necessarily a real date. */
  datatype Date = Date(year: int, month: int, day: int)

  /** The proleptic Gregorian leap-year rule LocalDate follows. */
  predicate IsLeapYear(year: int)
  {
    year % 4 == 0 && (year % 100 != 0 || year % 400 == 0)
  }

  function DaysInMonth(year: int, month: int): (n: int)
    requires 1 <= month <= 12
    ensures 28 <= n <= 31
    ensures n == 29 <==> month == 2 && IsLeapYear(year)
  {
    if month == 2 then (if IsLeapYear(year) then 29 else 28)
    else if month in {4, 6, 9, 11} then 30
    else 31
  }

  /** LocalDate: a date LocalDate.of accepts, month 1..12 and a day that month has. */
  type LocalDate = d: Date | 1 <= d.month <= 12 && 1 <= d.day <= DaysInMonth(d.year, d.month)
    witness Date(2000, 1, 1)

  const NanosPerDay: int := 24 * 60 * 60 * 1_000_000_000

  /** LocalTime, as its nano-of-day (LocalTime.now has nanosecond resolution). */
  type Time = t: int | 0 <= t < NanosPerDay

  /** LocalTime.of(hour, minute). */
  function TimeOf(hour: int, minute: int): (t: Time)
    requires 0 <= hour < 24 && 0 <= minute < 60
    ensures t % (60 * 1_000_000_000) == 0 && t / (60 * 1_000_000_000) == hour * 60 + minute
  {
    (hour * 60 + minute) * 60 * 1_000_000_000
  }

  predicate IsAfter(t: Time, other: Time)
  {
    t > other
  }

  predicate IsBefore(t: Time, other: Time)
  {
    t < other
  }

  /**
    LocalDate.toString's year: four digits (zero-padded, after a '-' when
    negative) below 1000 in magnitude, otherwise the plain number marked
    '+' above 9999.
   */
  function YearText(y: int): string
  {
    if -1000 < y < 1000 then
      if y < 0 then
        var s := IntText(y - 10000);
        s[..1] + s[2..]
      else
        IntText(y + 10000)[1..]
    else
      (if y > 9999 then "+" else "") + IntText(y)
  }

  /** LocalDate.toString: year, then "-0" or "-" and the month, then the same for the day. */
  function DateText(d: Date): string
  {
    YearText(d.year)
    + (if d.month < 10 then "-0" else "-") + IntText(d.month)
    + (if d.day < 10 then "-0" else "-") + IntText(d.day)
  }
}
