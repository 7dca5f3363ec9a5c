/**
 * The proleptic Gregorian calendar as Python's `datetime` module computes it:
 * a date's ordinal counts days from 0001-01-01 (ordinal 1), and
 * `weekday()` numbers Monday as 0, so Thursday is 3.
 */
module Calendar {

  datatype Date = Date(year: int, month: int, day: int)

  const Thursday := 3

  predicate IsLeapYear(y: int) {
    y % 4 == 0 && (y % 100 != 0 || y % 400 == 0)
  }

  function DaysInMonth(y: int, m: int): int
    requires 1 <= m <= 12
  {
    if m == 2 then (if IsLeapYear(y) then 29 else 28)
    else if m == 4 || m == 6 || m == 9 || m == 11 then 30
    else 31
  }

  /** Python accepts years 1 through 9999. */
  predicate ValidDate(d: Date) {
    1 <= d.year <= 9999 && 1 <= d.month <= 12 && 1 <= d.day <= DaysInMonth(d.year, d.month)
  }

  /** Days in the years before `y`. */
  function DaysBeforeYear(y: int): int
    requires y >= 1
  {
    var p := y - 1;
    p * 365 + p / 4 - p / 100 + p / 400
  }

  /** Days in the months of year `y` before month `m`. */
  function DaysBeforeMonth(y: int, m: int): int
    requires 1 <= m <= 12
  {
    [0, 31, 59, 90, 120, 151, 181, 212, 243, 273, 304, 334][m - 1]
      + (if m > 2 && IsLeapYear(y) then 1 else 0)
  }

  /** Python's `date.toordinal()`. */
  function Ordinal(d: Date): int
    requires d.year >= 1 && 1 <= d.month <= 12
  {
    DaysBeforeYear(d.year) + DaysBeforeMonth(d.year, d.month) + d.day
  }

  /** Python's `date.weekday()`: Monday is 0, Sunday is 6. */
  function Weekday(d: Date): int
    requires d.year >= 1 && 1 <= d.month <= 12
  {
    (Ordinal(d) + 6) % 7
  }

  /** Python's date ordering. */
  predicate After(a: Date, b: Date) {
    a.year > b.year
    || (a.year == b.year && a.month > b.month)
    || (a.year == b.year && a.month == b.month && a.day > b.day)
  }

  /** The first day of the following month, December rolling into January of the next year. */
  function NextMonthFirst(y: int, m: int): (d: Date)
    requires 1 <= y < 9999 && 1 <= m <= 12
    ensures ValidDate(d)
    ensures m < 12 ==> d == Date(y, m + 1, 1)
    ensures m == 12 ==> d == Date(y + 1, 1, 1)
  {
    Date(y + if m == 12 then 1 else 0, m % 12 + 1, 1)
  }

  /** Euclidean division is determined by quotient and remainder. */
  lemma DivUnique(y: int, k: int, q: int, r: int)
    requires k > 0 && y == k * q + r && 0 <= r < k
    ensures y / k == q && y % k == r
  {
    var q', r' := y / k, y % k;
    assert k * (q - q') == r' - r;
    assert q - q' >= 1 ==> k * (q - q') >= k;
    assert q' - q >= 1 ==> k * (q' - q) >= k;
  }

  lemma DivStep(y: int, k: int)
    requires y >= 1 && k > 0
    ensures y / k - (y - 1) / k == if y % k == 0 then 1 else 0
  {
    var q, r := (y - 1) / k, (y - 1) % k;
    if r == k - 1 {
      DivUnique(y, k, q + 1, 0);
    } else {
      DivUnique(y, k, q, r + 1);
    }
  }

  /** A year has 365 days, or 366 when it is a leap year. */
  lemma {:induction false} YearLength(y: int)
    requires y >= 1
    ensures DaysBeforeYear(y + 1) - DaysBeforeYear(y) == if IsLeapYear(y) then 366 else 365
  {
    DivStep(y, 4);
    DivStep(y, 100);
    DivStep(y, 400);
    if y % 400 == 0 {
      assert y % 100 == 0 && y % 4 == 0 by {
        var q := y / 400;
        assert y == 100 * (4 * q) && y == 4 * (100 * q);
      }
    } else if y % 100 == 0 {
      assert y % 4 == 0 by {
        var q := y / 100;
        assert y == 4 * (25 * q);
      }
    }
  }

  /**
   * The last day of month `m` is the day before the first of the next
   * month: stepping back one day from `NextMonthFirst` lands on
   * `Date(y, m, DaysInMonth(y, m))`, also across the year boundary.
   */
  lemma LastDayPrecedesNextMonth(y: int, m: int)
    requires 1 <= y < 9999 && 1 <= m <= 12
    ensures ValidDate(Date(y, m, DaysInMonth(y, m)))
    ensures Ordinal(Date(y, m, DaysInMonth(y, m))) + 1 == Ordinal(NextMonthFirst(y, m))
  {
    if m == 12 {
      YearLength(y);
    }
  }
}
