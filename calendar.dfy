/** Proleptic Gregorian calendar dates in the range Python's `datetime` supports
    (years 1 to 9999), numbered by ordinal exactly as `date.toordinal()` numbers
    them: 0001-01-01 is day 1 and 9999-12-31 is day 3652059.

    `datetime + timedelta(days = k)` is ordinal arithmetic followed by a
    conversion back to (year, month, day); a result outside the supported range
    raises OverflowError. `datetime <= datetime` compares the (year, month, day)
    fields lexicographically. */
module Calendar {
  import opened Results

  datatype Date = Date(year: int, month: int, day: int)

  const MaxYear := 9999
  /** Ordinal of 9999-12-31, Python's `date.max.toordinal()`. */
  const MaxOrdinal := 3652059

  predicate IsLeapYear(y: int) {
    y % 4 == 0 && (y % 100 != 0 || y % 400 == 0)
  }

  function DaysInYear(y: int): int {
    if IsLeapYear(y) then 366 else 365
  }

  function DaysInMonth(y: int, m: int): (n: int)
    requires 1 <= m <= 12
    ensures 28 <= n <= 31
    ensures n == 29 <==> m == 2 && IsLeapYear(y)
  {
    if m == 2 then (if IsLeapYear(y) then 29 else 28)
    else if m == 4 || m == 6 || m == 9 || m == 11 then 30
    else 31
  }

  /** A date Python's `datetime` can represent. */
  predicate Valid(d: Date) {
    1 <= d.year <= MaxYear && 1 <= d.month <= 12 && 1 <= d.day <= DaysInMonth(d.year, d.month)
  }

  /** Days in the years before year `y` (Python's `_days_before_year`). */
  function DaysBeforeYear(y: int): int
    requires y >= 1
  {
    var p := y - 1;
    365 * p + p / 4 - p / 100 + p / 400
  }

  /** Days in the months of year `y` before month `m`; month 13 stands for the
      end of the year (Python's `_days_before_month`). */
  function DaysBeforeMonth(y: int, m: int): int
    requires 1 <= m <= 13
  {
    [0, 0, 31, 59, 90, 120, 151, 181, 212, 243, 273, 304, 334, 365][m]
      + (if m > 2 && IsLeapYear(y) then 1 else 0)
  }

  function Ordinal(d: Date): int
    requires 1 <= d.year && 1 <= d.month <= 12
  {
    DaysBeforeYear(d.year) + DaysBeforeMonth(d.year, d.month) + d.day
  }

  /** `a <= b` on dates: lexicographic on (year, month, day). */
  predicate NotAfter(a: Date, b: Date) {
    a.year < b.year
    || (a.year == b.year && (a.month < b.month || (a.month == b.month && a.day <= b.day)))
  }

  /** The calendar successor, written by hand: the next day of the month, else the
      first of the next month, else the first of the next year; none after 9999-12-31. */
  function NextDay(d: Date): Option<Date>
    requires Valid(d)
  {
    if d.day < DaysInMonth(d.year, d.month) then Some(Date(d.year, d.month, d.day + 1))
    else if d.month < 12 then Some(Date(d.year, d.month + 1, 1))
    else if d.year < MaxYear then Some(Date(d.year + 1, 1, 1))
    else None
  }

  // ---------------------------------------------------------------------------
  // Year and month arithmetic

  lemma YearStep(y: int)
    requires y >= 1
    ensures DaysBeforeYear(y + 1) == DaysBeforeYear(y) + DaysInYear(y)
  {
    DivStep(y, 4);
    DivStep(y, 100);
    DivStep(y, 400);
    DivisorsNest(y);
  }

  /** Multiples of 400 are multiples of 100, and those are multiples of 4. */
  lemma DivisorsNest(y: int)
    ensures y % 400 == 0 ==> y % 100 == 0
    ensures y % 100 == 0 ==> y % 4 == 0
  {
    if y % 400 == 0 {
      var q := 4 * (y / 400);
      assert y == 100 * q;
      assert y / 100 == q;
    }
    if y % 100 == 0 {
      var q := 25 * (y / 100);
      assert y == 4 * q;
      assert y / 4 == q;
    }
  }

  /** Counting up to year `y` passes one more multiple of `k` exactly when `y` is one. */
  lemma DivStep(y: int, k: int)
    requires y >= 1 && (k == 4 || k == 100 || k == 400)
    ensures y / k - (y - 1) / k == (if y % k == 0 then 1 else 0)
  {
    if k == 4 {
    } else if k == 100 {
    } else {
    }
  }

  lemma {:induction false} YearsMonotone(a: int, b: int)
    requires 1 <= a <= b
    ensures DaysBeforeYear(a) + 365 * (b - a) <= DaysBeforeYear(b)
    decreases b - a
  {
    if a < b {
      YearStep(b - 1);
      YearsMonotone(a, b - 1);
    }
  }

  lemma MonthStep(y: int, m: int)
    requires 1 <= m <= 12
    ensures DaysBeforeMonth(y, m + 1) == DaysBeforeMonth(y, m) + DaysInMonth(y, m)
    ensures DaysBeforeMonth(y, 1) == 0 && DaysBeforeMonth(y, 13) == DaysInYear(y)
  {
  }

  lemma {:induction false} MonthsMonotone(y: int, a: int, b: int)
    requires 1 <= a <= b <= 13
    ensures DaysBeforeMonth(y, a) + 28 * (b - a) <= DaysBeforeMonth(y, b)
    decreases b - a
  {
    if a < b {
      MonthStep(y, b - 1);
      MonthsMonotone(y, a, b - 1);
    }
  }

  /** A valid date's ordinal lies inside its year and inside its month. */
  lemma Brackets(d: Date)
    requires Valid(d)
    ensures DaysBeforeYear(d.year) < Ordinal(d) <= DaysBeforeYear(d.year + 1)
    ensures DaysBeforeMonth(d.year, d.month) < Ordinal(d) - DaysBeforeYear(d.year)
              <= DaysBeforeMonth(d.year, d.month + 1)
  {
    YearStep(d.year);
    MonthStep(d.year, d.month);
    MonthsMonotone(d.year, d.month + 1, 13);
  }

  /** Every valid date has an ordinal in 1 .. MaxOrdinal. */
  lemma OrdinalBounds(d: Date)
    requires Valid(d)
    ensures 1 <= Ordinal(d) <= MaxOrdinal
  {
    Brackets(d);
    YearsMonotone(d.year + 1, MaxYear + 1);
  }

  /** A date in an earlier year has a smaller ordinal. */
  lemma EarlierYear(a: Date, b: Date)
    requires Valid(a) && Valid(b) && a.year < b.year
    ensures Ordinal(a) < Ordinal(b)
  {
    Brackets(a);
    Brackets(b);
    YearsMonotone(a.year + 1, b.year);
  }

  /** A date in an earlier month of the same year has a smaller ordinal. */
  lemma EarlierMonth(a: Date, b: Date)
    requires Valid(a) && Valid(b) && a.year == b.year && a.month < b.month
    ensures Ordinal(a) < Ordinal(b)
  {
    Brackets(a);
    Brackets(b);
    MonthsMonotone(a.year, a.month + 1, b.month);
  }

  /** Lexicographic comparison of valid dates is chronological: it agrees with
      the order of their ordinals. */
  lemma NotAfterIsChronological(a: Date, b: Date)
    requires Valid(a) && Valid(b)
    ensures NotAfter(a, b) <==> Ordinal(a) <= Ordinal(b)
    ensures a == b <==> Ordinal(a) == Ordinal(b)
  {
    if a.year < b.year {
      EarlierYear(a, b);
    } else if b.year < a.year {
      EarlierYear(b, a);
    } else if a.month < b.month {
      EarlierMonth(a, b);
    } else if b.month < a.month {
      EarlierMonth(b, a);
    }
  }

  // ---------------------------------------------------------------------------
  // From an ordinal back to a date (Python's `_ord2ymd`, as a search)

  /** The year `r >= y` whose days contain ordinal `n`. */
  function YearOf(n: int, y: int): (r: int)
    requires 1 <= y <= MaxYear
    ensures y <= r <= MaxYear
    decreases MaxYear - y
  {
    if y == MaxYear || n <= DaysBeforeYear(y + 1) then y else YearOf(n, y + 1)
  }

  /** The month `r >= m` of year `y` whose days contain day-of-year `k`. */
  function MonthOf(y: int, k: int, m: int): (r: int)
    requires 1 <= m <= 12
    ensures m <= r <= 12
    decreases 12 - m
  {
    if m == 12 || k <= DaysBeforeMonth(y, m + 1) then m else MonthOf(y, k, m + 1)
  }

  /** 9999-12-31 closes the supported range. */
  lemma LastDayIsMaxOrdinal()
    ensures DaysBeforeYear(MaxYear + 1) == MaxOrdinal
    ensures Ordinal(Date(MaxYear, 12, 31)) == MaxOrdinal
  {
  }

  lemma {:induction false} YearOfBracket(n: int, y: int)
    requires 1 <= y <= MaxYear && DaysBeforeYear(y) < n <= MaxOrdinal
    ensures DaysBeforeYear(YearOf(n, y)) < n <= DaysBeforeYear(YearOf(n, y) + 1)
    decreases MaxYear - y
  {
    if y < MaxYear && DaysBeforeYear(y + 1) < n {
      YearOfBracket(n, y + 1);
    } else if y == MaxYear {
      LastDayIsMaxOrdinal();
    }
  }

  lemma {:induction false} MonthOfBracket(y: int, k: int, m: int)
    requires 1 <= m <= 12 && DaysBeforeMonth(y, m) < k <= DaysInYear(y)
    ensures DaysBeforeMonth(y, MonthOf(y, k, m)) < k <= DaysBeforeMonth(y, MonthOf(y, k, m) + 1)
    decreases 12 - m
  {
    MonthStep(y, 12);
    if m < 12 && DaysBeforeMonth(y, m + 1) < k {
      MonthOfBracket(y, k, m + 1);
    }
  }

  /** A year at or before the one holding ordinal `n`: no year has more than
      366 days, so the search for the year starts close to it. */
  lemma YearEstimate(n: int)
    requires 1 <= n <= MaxOrdinal
    ensures 1 <= (n - 1) / 366 + 1 <= MaxYear
    ensures DaysBeforeYear((n - 1) / 366 + 1) < n
  {
    var p := (n - 1) / 366;
    assert p / 4 - p / 100 + p / 400 <= p;
    assert 366 * p <= n - 1;
  }

  /** The date with ordinal `n` (Python's `date.fromordinal`); clamped to the
      first or last day for an ordinal outside 1 .. MaxOrdinal, where Python
      raises instead and the callers here never ask. */
  function FromOrdinal(n: int): (d: Date)
    ensures Valid(d)
  {
    LocateValid(n);
    Locate(n)
  }

  /** The search behind FromOrdinal: first the year, then the month, then the
      day within the month. */
  function Locate(n: int): Date {
    if n < 1 then Date(1, 1, 1)
    else if n > MaxOrdinal then Date(MaxYear, 12, 31)
    else
      var y := YearOf(n, (n - 1) / 366 + 1);
      var k := n - DaysBeforeYear(y);
      var m := MonthOf(y, k, 1);
      Date(y, m, k - DaysBeforeMonth(y, m))
  }

  /** The year search from the estimate finds the year holding ordinal `n`. */
  lemma YearLocated(n: int)
    requires 1 <= n <= MaxOrdinal
    ensures var y := YearOf(n, (n - 1) / 366 + 1);
      DaysBeforeYear(y) < n <= DaysBeforeYear(y) + DaysInYear(y)
  {
    var y0 := (n - 1) / 366 + 1;
    YearEstimate(n);
    YearOfBracket(n, y0);
    YearStep(YearOf(n, y0));
  }

  /** The month search finds the month holding day-of-year `k`. */
  lemma MonthLocated(y: int, k: int)
    requires 0 < k <= DaysInYear(y)
    ensures var m := MonthOf(y, k, 1);
      DaysBeforeMonth(y, m) < k <= DaysBeforeMonth(y, m) + DaysInMonth(y, m)
  {
    MonthOfBracket(y, k, 1);
    MonthStep(y, MonthOf(y, k, 1));
  }

  /** The search lands on a valid date holding ordinal `n`. */
  lemma LocateFinds(n: int)
    ensures Valid(Locate(n))
    ensures 1 <= n <= MaxOrdinal ==> Ordinal(Locate(n)) == n
  {
    if 1 <= n <= MaxOrdinal {
      YearLocated(n);
      var y := YearOf(n, (n - 1) / 366 + 1);
      MonthLocated(y, n - DaysBeforeYear(y));
    }
  }

  lemma LocateValid(n: int)
    ensures Valid(Locate(n))
  {
    LocateFinds(n);
  }

  /** FromOrdinal inverts Ordinal on the supported range. */
  lemma FromOrdinalInverse(n: int)
    requires 1 <= n <= MaxOrdinal
    ensures Ordinal(FromOrdinal(n)) == n
  {
    LocateFinds(n);
  }

  /** Ordinal inverts FromOrdinal on valid dates: the numbering is a bijection. */
  lemma OrdinalInverse(d: Date)
    requires Valid(d)
    ensures FromOrdinal(Ordinal(d)) == d
  {
    OrdinalBounds(d);
    FromOrdinalInverse(Ordinal(d));
    NotAfterIsChronological(d, FromOrdinal(Ordinal(d)));
  }

  // ---------------------------------------------------------------------------
  // Day arithmetic

  /** `d + timedelta(days = k)`: None when the result leaves Python's range
      (OverflowError). */
  function AddDays(d: Date, k: int): (r: Option<Date>)
    requires Valid(d)
    ensures r.Some? <==> 1 <= Ordinal(d) + k <= MaxOrdinal
    ensures r.Some? ==> Valid(r.value) && Ordinal(r.value) == Ordinal(d) + k
  {
    var n := Ordinal(d) + k;
    if 1 <= n <= MaxOrdinal then FromOrdinalInverse(n); Some(FromOrdinal(n))
    else None
  }

  /** Adding one day is the hand-written calendar successor: the ordinal
      arithmetic walks months and years exactly as the calendar does, and
      overflows only after 9999-12-31. */
  lemma AddOneDayIsNextDay(d: Date)
    requires Valid(d)
    ensures AddDays(d, 1) == NextDay(d)
    ensures NextDay(d).None? <==> d == Date(MaxYear, 12, 31)
  {
    OrdinalBounds(d);
    match NextDay(d)
    case Some(e) =>
      NextDayIsOneLater(d);
      OrdinalInverse(e);
    case None =>
      assert Ordinal(d) == MaxOrdinal by {
        YearStep(d.year);
      }
  }

  /** The hand-written successor is a valid date one ordinal later. */
  lemma NextDayIsOneLater(d: Date)
    requires Valid(d) && NextDay(d).Some?
    ensures Valid(NextDay(d).value) && Ordinal(NextDay(d).value) == Ordinal(d) + 1
  {
    MonthStep(d.year, d.month);
    YearStep(d.year);
  }
}
