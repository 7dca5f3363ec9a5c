/**
 * The contract resolver: which monthly futures contract of a root is
 * traded on a given day. The month's expiry is taken to be its last
 * Thursday; four days before it the bot rolls to the next month's
 * contract. Symbols read ROOT + two-digit year + three-letter month + "FUT",
 * e.g. "NIFTY25JANFUT".
 */
module Contract {
  import opened Calendar

  /** Years whose decimal form has four digits, so that `str(year)[2:]` is two digits. */
  predicate FourDigitYear(y: int) {
    1000 <= y <= 9999
  }

  /** Years whose next year is still a four-digit year that Python's `datetime` accepts. */
  predicate SupportedYear(y: int) {
    1000 <= y < 9999
  }

  // ---------------------------------------------------------------------
  // The month's last Thursday
  // ---------------------------------------------------------------------

  /** The last Thursday of month `m`, counted back from the month's last day. */
  function LastThursdayOf(y: int, m: int): int
    requires y >= 1 && 1 <= m <= 12
  {
    var last := DaysInMonth(y, m);
    last - (Weekday(Date(y, m, last)) + 4) % 7
  }

  /** Days of a month, counted back from its last day, cycle through the weekdays. */
  lemma WeekdayBack(y: int, m: int, j: int)
    requires y >= 1 && 1 <= m <= 12 && 0 <= j
    ensures var last := DaysInMonth(y, m);
      Weekday(Date(y, m, last - j)) == (Weekday(Date(y, m, last)) - j) % 7
  {
    var last := DaysInMonth(y, m);
    var x := Ordinal(Date(y, m, last)) + 6;
    assert Ordinal(Date(y, m, last - j)) + 6 == x - j;
    var q, w := x / 7, x % 7;
    var t := w - j;
    var q2, r2 := t / 7, t % 7;
    DivUnique(x - j, 7, q + q2, r2);
  }

  /**
   * `LastThursdayOf` is a Thursday, lies in the month's last week (so on
   * or after the 22nd) and no later day of the month is a Thursday.
   */
  lemma LastThursdayFacts(y: int, m: int)
    requires y >= 1 && 1 <= m <= 12
    ensures var t := LastThursdayOf(y, m);
      && 22 <= t <= DaysInMonth(y, m)
      && DaysInMonth(y, m) - 6 <= t
      && Weekday(Date(y, m, t)) == Thursday
      && forall e :: t < e <= DaysInMonth(y, m) ==> Weekday(Date(y, m, e)) != Thursday
  {
    var last := DaysInMonth(y, m);
    var w := Weekday(Date(y, m, last));
    var k := (w + 4) % 7;
    WeekdayBack(y, m, k);
    forall e | last - k < e <= last
      ensures Weekday(Date(y, m, e)) != Thursday
    {
      WeekdayBack(y, m, last - e);
    }
  }

  /**
   * The loop of the resolver: start at the month's last day (the day before
   * the next month's first, see `LastDayPrecedesNextMonth`) and step back
   * one day at a time until the day is a Thursday.
   */
  method LastThursday(y: int, m: int) returns (d: int)
    requires y >= 1 && 1 <= m <= 12
    ensures 22 <= d <= DaysInMonth(y, m)
    ensures DaysInMonth(y, m) - 6 <= d
    ensures Weekday(Date(y, m, d)) == Thursday
    ensures forall e :: d < e <= DaysInMonth(y, m) ==> Weekday(Date(y, m, e)) != Thursday
    ensures d == LastThursdayOf(y, m)
  {
    LastThursdayFacts(y, m);
    d := DaysInMonth(y, m);
    while Weekday(Date(y, m, d)) != Thursday
      invariant LastThursdayOf(y, m) <= d <= DaysInMonth(y, m)
      invariant forall e :: d < e <= DaysInMonth(y, m) ==> Weekday(Date(y, m, e)) != Thursday
      decreases d
    {
      d := d - 1;
    }
  }

  // ---------------------------------------------------------------------
  // Symbol formatting
  // ---------------------------------------------------------------------

  function DigitChar(n: int): char
    requires 0 <= n <= 9
  {
    (48 + n) as char
  }

  predicate IsDigit(c: char) {
    '0' <= c <= '9'
  }

  /** Python's `str(n)` for a natural number. */
  function Decimal(n: nat): (r: string)
    ensures 1 <= |r| && (n >= 10 ==> |r| >= 2)
    ensures forall i :: 0 <= i < |r| ==> IsDigit(r[i])
    decreases n
  {
    if n < 10 then [DigitChar(n)] else Decimal(n / 10) + [DigitChar(n % 10)]
  }

  /** `str(year)[2:]`. */
  function YearSuffix(y: int): string
    requires FourDigitYear(y)
  {
    Decimal(y)[2..]
  }

  /** For a four-digit year, `str(year)[2:]` is its last two digits. */
  lemma YearSuffixDigits(y: int)
    requires FourDigitYear(y)
    ensures YearSuffix(y) == [DigitChar(y / 10 % 10), DigitChar(y % 10)]
  {
    var a := y / 10;
    var b := a / 10;
    assert 10 <= b < 100;
    assert Decimal(b) == [DigitChar(b / 10), DigitChar(b % 10)];
    assert Decimal(a) == Decimal(b) + [DigitChar(a % 10)];
    assert Decimal(y) == Decimal(a) + [DigitChar(y % 10)];
  }

  /** `strftime('%b').upper()` in an English locale. */
  function MonthAbbrev(m: int): string
    requires 1 <= m <= 12
  {
    ["JAN", "FEB", "MAR", "APR", "MAY", "JUN", "JUL", "AUG", "SEP", "OCT", "NOV", "DEC"][m - 1]
  }

  /** The futures symbol of `root` for month `m` of year `y`. */
  function ContractSymbol(root: string, y: int, m: int): string
    requires FourDigitYear(y) && 1 <= m <= 12
  {
    root + YearSuffix(y) + MonthAbbrev(m) + "FUT"
  }

  /**
   * A contract symbol starts with its root, continues with the two digits of
   * the year and the three upper-case letters of the month, and ends in "FUT".
   */
  lemma ContractSymbolShape(root: string, y: int, m: int)
    requires FourDigitYear(y) && 1 <= m <= 12
    ensures var s := ContractSymbol(root, y, m);
      && |s| == |root| + 8
      && s[..|root|] == root
      && s[|root|] == DigitChar(y / 10 % 10) && s[|root| + 1] == DigitChar(y % 10)
      && s[|root| + 2..|root| + 5] == MonthAbbrev(m)
      && s[|root| + 5..] == "FUT"
  {
    YearSuffixDigits(y);
  }

  /** The tens and units digits of `y` are those of `y % 100`, and determine it. */
  lemma LastTwoDigits(y: int)
    requires y >= 0
    ensures y % 100 == 10 * (y / 10 % 10) + y % 10
    ensures y / 10 % 10 == y % 100 / 10 && y % 10 == y % 100 % 10
  {
    var a, r := y / 100, y % 100;
    var b, c := r / 10, r % 10;
    DivUnique(y, 10, 10 * a + b, c);
    DivUnique(10 * a + b, 10, a, b);
  }

  lemma DigitCharInjective(a: int, b: int)
    requires 0 <= a <= 9 && 0 <= b <= 9
    ensures DigitChar(a) == DigitChar(b) ==> a == b
  {
  }

  lemma MonthAbbrevInjective(m1: int, m2: int)
    requires 1 <= m1 <= 12 && 1 <= m2 <= 12
    ensures MonthAbbrev(m1) == MonthAbbrev(m2) ==> m1 == m2
  {
  }

  /**
   * Two symbols of one root are equal exactly when they name the same month
   * and years with the same last two digits.
   */
  lemma ContractSymbolInjective(root: string, y1: int, m1: int, y2: int, m2: int)
    requires FourDigitYear(y1) && 1 <= m1 <= 12
    requires FourDigitYear(y2) && 1 <= m2 <= 12
    ensures ContractSymbol(root, y1, m1) == ContractSymbol(root, y2, m2)
            <==> y1 % 100 == y2 % 100 && m1 == m2
  {
    LastTwoDigits(y1);
    LastTwoDigits(y2);
    var s1, s2 := ContractSymbol(root, y1, m1), ContractSymbol(root, y2, m2);
    if s1 == s2 {
      ContractSymbolShape(root, y1, m1);
      ContractSymbolShape(root, y2, m2);
      var n := |root|;
      assert s1[n + 2..n + 5] == s2[n + 2..n + 5];
      MonthAbbrevInjective(m1, m2);
      DigitCharInjective(y1 / 10 % 10, y2 / 10 % 10);
      DigitCharInjective(y1 % 10, y2 % 10);
    } else if y1 % 100 == y2 % 100 && m1 == m2 {
      YearSuffixDigits(y1);
      YearSuffixDigits(y2);
    }
  }

  // ---------------------------------------------------------------------
  // Choosing the contract
  // ---------------------------------------------------------------------

  /** Four days before the month's last Thursday. */
  function RolloverCutoff(today: Date): Date
    requires today.year >= 1 && 1 <= today.month <= 12
  {
    Date(today.year, today.month, LastThursdayOf(today.year, today.month) - 4)
  }

  /** The month after month `m` of year `y`, as (year, month). */
  function NextMonth(y: int, m: int): (int, int)
    requires 1 <= m <= 12
  {
    if m < 12 then (y, m + 1) else (y + 1, 1)
  }

  /**
   * The contract traded on `today`: this month's until the cutoff day,
   * the next month's once `today` is after it.
   */
  function ContractFor(root: string, today: Date): string
    requires ValidDate(today) && SupportedYear(today.year)
  {
    if After(today, RolloverCutoff(today)) then
      var (ny, nm) := NextMonth(today.year, today.month);
      ContractSymbol(root, ny, nm)
    else
      ContractSymbol(root, today.year, today.month)
  }

  /** `get_active_contract` with the clock passed in as `today`. */
  method ActiveContract(root: string, today: Date) returns (symbol: string)
    requires ValidDate(today) && SupportedYear(today.year)
    ensures var cutoff := LastThursdayOf(today.year, today.month) - 4;
      && (today.day <= cutoff ==> symbol == ContractSymbol(root, today.year, today.month))
      && (today.day > cutoff && today.month < 12 ==> symbol == ContractSymbol(root, today.year, today.month + 1))
      && (today.day > cutoff && today.month == 12 ==> symbol == ContractSymbol(root, today.year + 1, 1))
    ensures symbol == ContractFor(root, today)
  {
    var lastDay := LastThursday(today.year, today.month);
    var cutoff := Date(today.year, today.month, lastDay - 4);
    if After(today, cutoff) {
      var nextMonth := if today.month < 12 then today.month + 1 else 1;
      var nextYear := if today.month < 12 then today.year else today.year + 1;
      symbol := ContractSymbol(root, nextYear, nextMonth);
    } else {
      symbol := ContractSymbol(root, today.year, today.month);
    }
  }

  /** The cutoff is a real day of the month, the 18th or later. */
  lemma CutoffInMonth(today: Date)
    requires ValidDate(today)
    ensures var c := RolloverCutoff(today);
      ValidDate(c) && c.year == today.year && c.month == today.month && 18 <= c.day <= DaysInMonth(c.year, c.month) - 4
  {
    LastThursdayFacts(today.year, today.month);
  }

  /**
   * The resolver returns this month's contract exactly when `today` is on or
   * before the cutoff; otherwise it returns the next month's, which is a
   * different symbol.
   */
  lemma CurrentMonthIff(root: string, today: Date)
    requires ValidDate(today) && SupportedYear(today.year)
    ensures ContractFor(root, today) == ContractSymbol(root, today.year, today.month)
            <==> today.day <= RolloverCutoff(today).day
  {
    var (ny, nm) := NextMonth(today.year, today.month);
    ContractSymbolInjective(root, ny, nm, today.year, today.month);
  }

  /**
   * Up to the 17th the current month is always traded, and in the month's
   * last four days always the next one.
   */
  lemma EarlyAndLateDays(root: string, today: Date)
    requires ValidDate(today) && SupportedYear(today.year)
    ensures today.day <= 17 ==> ContractFor(root, today) == ContractSymbol(root, today.year, today.month)
    ensures today.day > DaysInMonth(today.year, today.month) - 4 ==>
      ContractFor(root, today) == ContractSymbol(root, NextMonth(today.year, today.month).0, NextMonth(today.year, today.month).1)
  {
    CutoffInMonth(today);
  }
}
