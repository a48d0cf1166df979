/**
 * java.time.LocalDate values and the year count of Period.between(start, end).getYears().
 */
module Dates {

  datatype Date = Date(year: int, month: int, day: int)

  predicate IsLeapYear(y: int) {
    (y % 4 == 0 && y % 100 != 0) || y % 400 == 0
  }

  function DaysInMonth(y: int, m: int): int
    requires 1 <= m <= 12
  {
    if m == 2 then (if IsLeapYear(y) then 29 else 28)
    else if m == 4 || m == 6 || m == 9 || m == 11 then 30
    else 31
  }

  predicate IsValid(d: Date) {
    1 <= d.month <= 12 && 1 <= d.day <= DaysInMonth(d.year, d.month)
  }

  /** A date that LocalDate.of accepts. */
  type LocalDate = d: Date | IsValid(d) witness Date(2000, 1, 1)

  /** LocalDate.isBefore: strictly earlier in (year, month, day) order. */
  predicate Before(a: LocalDate, b: LocalDate) {
    a.year < b.year
    || (a.year == b.year && a.month < b.month)
    || (a.year == b.year && a.month == b.month && a.day < b.day)
  }

  /** Java's int division, which truncates toward zero. */
  function JavaQuot(a: int, b: int): int
    requires b > 0
  {
    if a >= 0 then a / b else -((-a) / b)
  }

  function ProlepticMonth(d: LocalDate): int {
    d.year * 12 + d.month - 1
  }

  /**
   * Period.between(start, end).getYears(): the month difference, corrected by one when the
   * day of month has not been reached (in the direction of the period), divided by 12
   * truncating toward zero.
   */
  function PeriodYears(start: LocalDate, end: LocalDate): int {
    var totalMonths := ProlepticMonth(end) - ProlepticMonth(start);
    var days := end.day - start.day;
    var adjusted :=
      if totalMonths > 0 && days < 0 then totalMonths - 1
      else if totalMonths < 0 && days > 0 then totalMonths + 1
      else totalMonths;
    JavaQuot(adjusted, 12)
  }

  /** The whole-years rule: year difference, minus one if this year's birthday is still ahead. */
  function WholeYears(dob: LocalDate, today: LocalDate): int {
    today.year - dob.year
    - (if today.month < dob.month || (today.month == dob.month && today.day < dob.day) then 1 else 0)
  }

  /** For a date of birth that is not after today, Period.between counts exactly the whole years. */
  lemma PeriodYearsIsWholeYears(dob: LocalDate, today: LocalDate)
    requires !Before(today, dob)
    ensures PeriodYears(dob, today) == WholeYears(dob, today)
    ensures PeriodYears(dob, today) >= 0
  {
    var dy := today.year - dob.year;
    var tm := ProlepticMonth(today) - ProlepticMonth(dob);
    assert tm == 12 * dy + (today.month - dob.month);
    var days := today.day - dob.day;
    if tm > 0 && days < 0 {
      if today.month > dob.month {
        assert tm - 1 == 12 * dy + (today.month - dob.month - 1);
        assert (tm - 1) / 12 == dy;
      } else if today.month == dob.month {
        assert tm - 1 == 12 * (dy - 1) + 11;
        assert (tm - 1) / 12 == dy - 1;
      } else {
        assert tm - 1 == 12 * (dy - 1) + (12 + today.month - dob.month - 1);
        assert (tm - 1) / 12 == dy - 1;
      }
    } else {
      assert tm >= 0;
      if today.month >= dob.month {
        assert tm / 12 == dy;
      } else {
        assert tm == 12 * (dy - 1) + (12 + today.month - dob.month);
        assert tm / 12 == dy - 1;
      }
    }
  }

  /** On the birthday itself the age is exactly the year difference (e.g. 13 on the 13th birthday). */
  lemma AgeOnBirthday(dob: LocalDate, today: LocalDate)
    requires today.month == dob.month && today.day == dob.day && today.year >= dob.year
    ensures PeriodYears(dob, today) == today.year - dob.year
  {
    assert !Before(today, dob);
    PeriodYearsIsWholeYears(dob, today);
  }

  /** The day before a birthday the age is one less than the year difference. */
  lemma AgeDayBeforeBirthday(dob: LocalDate, today: LocalDate)
    requires today.month == dob.month && today.day + 1 == dob.day && today.year > dob.year
    ensures PeriodYears(dob, today) == today.year - dob.year - 1
  {
    assert !Before(today, dob);
    PeriodYearsIsWholeYears(dob, today);
  }
}
