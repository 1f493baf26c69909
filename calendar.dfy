/**
 * Proleptic Gregorian calendar arithmetic, as Python's `datetime` does it:
 * day subtraction (`now - timedelta(days=n)`), the ordinal day number
 * (`date.toordinal`), and the previous-month rollover of the insights engine.
 */
module Calendar {
  import opened Records

  predicate IsLeap(y: int) {
    y % 4 == 0 && (y % 100 != 0 || y % 400 == 0)
  }

  function DaysInMonth(y: int, m: int): (n: int)
    requires 1 <= m <= 12
    ensures 28 <= n <= 31
    ensures n == 29 <==> m == 2 && IsLeap(y)
  {
    if m == 2 then (if IsLeap(y) then 29 else 28)
    else if m == 4 || m == 6 || m == 9 || m == 11 then 30
    else 31
  }

  function DaysInYear(y: int): int {
    if IsLeap(y) then 366 else 365
  }

  /** A date that exists in the calendar. */
  predicate ValidDate(d: Date) {
    1 <= d.month <= 12 && 1 <= d.day <= DaysInMonth(d.year, d.month)
  }

  /** A date `datetime.strptime(..., '%Y-%m-%d')` accepts: valid, with a year in 1..9999. */
  predicate IsCalendarDate(d: Date) {
    ValidDate(d) && 1 <= d.year <= 9999
  }

  /** Chronological order on dates as one integer (YYYYMMDD); the sort key of `order_by(date.desc())`. */
  function DateKey(d: Date): int {
    d.year * 10000 + d.month * 100 + d.day
  }

  /** The (year, month) label of a date as one integer: consecutive months differ by one. */
  function MonthIndex(year: int, month: int): int {
    year * 12 + month - 1
  }

  /** The day before `d`. */
  function PrevDay(d: Date): (p: Date)
    requires ValidDate(d)
    ensures ValidDate(p)
    ensures DateKey(p) < DateKey(d)
  {
    if d.day > 1 then Date(d.year, d.month, d.day - 1)
    else if d.month > 1 then Date(d.year, d.month - 1, DaysInMonth(d.year, d.month - 1))
    else Date(d.year - 1, 12, 31)
  }

  /** `d - timedelta(days=n)`: the date `n` days before `d`. */
  function SubDays(d: Date, n: nat): (r: Date)
    requires ValidDate(d)
    ensures ValidDate(r)
    ensures n > 0 ==> DateKey(r) < DateKey(d)
    decreases n
  {
    if n == 0 then d else PrevDay(SubDays(d, n - 1))
  }

  /** Days before January 1 of `year` since the proleptic day 0 (Python's `_days_before_year`). */
  function DaysBeforeYear(year: int): int {
    var y := year - 1;
    y * 365 + y / 4 - y / 100 + y / 400
  }

  /** Days in `year` before the first of `month` (Python's `_days_before_month`). */
  function DaysBeforeMonth(year: int, month: int): int
    requires 1 <= month <= 12
  {
    [0, 31, 59, 90, 120, 151, 181, 212, 243, 273, 304, 334][month - 1]
      + (if month > 2 && IsLeap(year) then 1 else 0)
  }

  /** `date.toordinal()`: January 1 of year 1 is day 1. */
  function Ordinal(d: Date): (r: int)
    requires ValidDate(d)
    ensures DaysBeforeYear(d.year) < r <= DaysBeforeYear(d.year) + DaysInYear(d.year)
  {
    DaysBeforeYear(d.year) + DaysBeforeMonth(d.year, d.month) + d.day
  }

  /** Month `(month, year)` rolled back by one, wrapping January to December of the year before. */
  function PreviousMonth(month: int, year: int): (r: (int, int))
    requires 1 <= month <= 12
    ensures 1 <= r.0 <= 12
    ensures MonthIndex(r.1, r.0) == MonthIndex(year, month) - 1
  {
    if month > 1 then (month - 1, year) else (12, year - 1)
  }

  /** Euclidean division is determined by its quotient-remainder decomposition. */
  lemma DivUnique(n: int, k: int, q: int, r: int)
    requires k > 0 && 0 <= r < k && n == q * k + r
    ensures n / k == q
  {
    var d := q - n / k;
    assert d * k == n % k - r;
  }

  /** Moving from `a` to `a + 1` raises the quotient by one exactly when `k` divides `a + 1`. */
  lemma DivStep(a: int, k: int)
    requires k > 0
    ensures (a + 1) / k == a / k + (if (a + 1) % k == 0 then 1 else 0)
  {
    var q, r := a / k, a % k;
    if r + 1 < k {
      DivUnique(a + 1, k, q, r + 1);
      assert (a + 1) % k != 0;
    } else {
      DivUnique(a + 1, k, q + 1, 0);
    }
  }

  lemma DaysBeforeYearStep(year: int)
    ensures DaysBeforeYear(year + 1) == DaysBeforeYear(year) + DaysInYear(year)
  {
    var y := year - 1;
    DivStep(y, 4);
    DivStep(y, 100);
    DivStep(y, 400);
  }

  lemma DaysBeforeMonthStep(year: int, month: int)
    requires 1 < month <= 12
    ensures DaysBeforeMonth(year, month) == DaysBeforeMonth(year, month - 1) + DaysInMonth(year, month - 1)
  {
  }

  /** The day before is exactly one ordinal day earlier. */
  lemma OrdinalPrevDay(d: Date)
    requires ValidDate(d)
    ensures Ordinal(PrevDay(d)) == Ordinal(d) - 1
  {
    if d.day == 1 {
      if d.month > 1 {
        DaysBeforeMonthStep(d.year, d.month);
      } else {
        DaysBeforeYearStep(d.year - 1);
      }
    }
  }

  /** Subtracting `n` days moves the ordinal back by exactly `n`. */
  lemma {:induction false} OrdinalSubDays(d: Date, n: nat)
    requires ValidDate(d)
    ensures Ordinal(SubDays(d, n)) == Ordinal(d) - n
    decreases n
  {
    if n > 0 {
      var m: nat := n - 1;
      var p := SubDays(d, m);
      OrdinalSubDays(d, m);
      OrdinalPrevDay(p);
      assert SubDays(d, n) == PrevDay(p);
    }
  }

  /** Going further back never lands later: `SubDays` is antitone in the day count. */
  lemma {:induction false} SubDaysAntitone(d: Date, m: nat, n: nat)
    requires ValidDate(d)
    requires m <= n
    ensures DateKey(SubDays(d, n)) <= DateKey(SubDays(d, m))
    decreases n - m
  {
    if m < n {
      SubDaysAntitone(d, m, n - 1);
    }
  }

  /** On valid dates the chronological key orders the (year, month) labels too. */
  lemma MonthIndexFollowsDateKey(a: Date, b: Date)
    requires ValidDate(a) && ValidDate(b)
    requires DateKey(a) <= DateKey(b)
    ensures MonthIndex(a.year, a.month) <= MonthIndex(b.year, b.month)
  {
  }

  /** On valid dates DateKey is the lexicographic order on (year, month, day). */
  lemma DateKeyIsLexicographic(a: Date, b: Date)
    requires ValidDate(a) && ValidDate(b)
    ensures DateKey(a) < DateKey(b) <==>
      a.year < b.year || (a.year == b.year && (a.month < b.month || (a.month == b.month && a.day < b.day)))
  {
  }
}
