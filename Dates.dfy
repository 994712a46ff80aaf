/**
 * Calendar dates as (year, month, day) triples. The browser's `Date` objects are
 * represented by the calendar date they fall on and, where the time of day matters,
 * the milliseconds since midnight; the local time zone is taken to be UTC.
 */
module Dates {

  /** A calendar date; `month` counts from 1 (JavaScript's `getMonth() + 1`). */
  datatype Date = Date(year: int, month: int, day: int)

  /** A point in time: a calendar date and the milliseconds elapsed since its midnight. */
  datatype Instant = Instant(date: Date, millis: nat)

  /** Strict chronological order: by year, then month, then day. */
  predicate Before(a: Date, b: Date) {
    a.year < b.year
    || (a.year == b.year && a.month < b.month)
    || (a.year == b.year && a.month == b.month && a.day < b.day)
  }

  predicate OnOrBefore(a: Date, b: Date) {
    Before(a, b) || a == b
  }

  /** Gregorian leap years. */
  predicate IsLeapYear(y: int) {
    (y % 4 == 0 && y % 100 != 0) || y % 400 == 0
  }

  /** The same month and day n years later (or earlier, for negative n). */
  function Anniversary(d: Date, n: int): (r: Date)
    ensures r.month == d.month && r.day == d.day && r.year == d.year + n
  {
    Date(d.year + n, d.month, d.day)
  }

  /** `date.setFullYear(date.getFullYear() + n)`: month and day are kept, except that
      29 February of a target year that is not a leap year overflows to 1 March. */
  function ShiftYearsJs(d: Date, n: int): (r: Date)
    ensures r.year == d.year + n
    ensures !(d.month == 2 && d.day == 29) || IsLeapYear(d.year + n) ==> r == Anniversary(d, n)
    ensures d.month == 2 && d.day == 29 && !IsLeapYear(d.year + n) ==> r == Date(d.year + n, 3, 1)
  {
    if d.month == 2 && d.day == 29 && !IsLeapYear(d.year + n) then Date(d.year + n, 3, 1)
    else Anniversary(d, n)
  }

  /** `new Date(d) < now`, where `new Date("YYYY-MM-DD")` is midnight of that date. */
  predicate MidnightBefore(d: Date, now: Instant) {
    Before(d, now.date) || (d == now.date && now.millis > 0)
  }

  /** `new Date(d) <= t`. */
  predicate MidnightOnOrBefore(d: Date, t: Instant) {
    OnOrBefore(d, t.date)
  }

  /** Completed years of life: `n` is the age on `today` of someone born on `birth`
      when the n-th birthday has come and the next one has not. */
  predicate IsAgeOn(birth: Date, today: Date, n: int) {
    OnOrBefore(Anniversary(birth, n), today) && Before(today, Anniversary(birth, n + 1))
  }

  /** The age on `today` of someone born on `birth`. */
  function AgeOn(birth: Date, today: Date): (n: int)
    ensures IsAgeOn(birth, today, n)
  {
    var reached := OnOrBefore(Date(today.year, birth.month, birth.day), today);
    today.year - birth.year - (if reached then 0 else 1)
  }

  /** Anniversaries keep the order of the years they fall in. */
  lemma AnniversaryMonotone(birth: Date, m: int, n: int)
    requires m <= n
    ensures OnOrBefore(Anniversary(birth, m), Anniversary(birth, n))
  {
  }

  /** Someone is at least k years old exactly when their k-th birthday has come. */
  lemma AtLeastAgeIffAnniversaryReached(birth: Date, today: Date, k: int)
    ensures AgeOn(birth, today) >= k <==> OnOrBefore(Anniversary(birth, k), today)
  {
    var n := AgeOn(birth, today);
    if n >= k {
      AnniversaryMonotone(birth, k, n);
    } else {
      AnniversaryMonotone(birth, n + 1, k);
    }
  }
}
