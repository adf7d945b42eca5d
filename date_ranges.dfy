/** The two date generators of the pipelines: `get_date_range`, the inclusive
    day-by-day walk between two `%Y-%m-%d` bounds, and `calculate_offset_date`,
    today minus a number of days. */
module DateRanges {
  import opened Results
  import opened Calendar
  import opened DateText

  /** The formatted dates of the `n` consecutive days from ordinal `first` on. */
  function Days(first: int, n: nat): seq<string> {
    seq(n, i => Format(FromOrdinal(first + i)))
  }

  lemma DaysSnoc(first: int, n: nat)
    ensures Days(first, n + 1) == Days(first, n) + [Format(FromOrdinal(first + n))]
  {
  }

  /** The outcome of walking from `s` to `e`: an inverted range is empty; a
      range ending on 9999-12-31 overflows when the walk steps past its last
      day; otherwise one entry per day, both ends included. */
  function RangeBetween(s: Date, e: Date): Result<seq<string>, Failure>
    requires Valid(s) && Valid(e)
  {
    if Ordinal(e) < Ordinal(s) then Ok([])
    else if Ordinal(e) == MaxOrdinal then Err(DateOutOfRange)
    else Ok(Days(Ordinal(s), Ordinal(e) - Ordinal(s) + 1))
  }

  /** What `get_date_range(startText, endText)` returns or raises: the bounds
      are parsed in order (start first), then the walk between them. */
  function DateRange(startText: string, endText: string): Result<seq<string>, Failure> {
    match Parse(startText)
    case None => Err(InvalidDate(startText))
    case Some(s) =>
      match Parse(endText)
      case None => Err(InvalidDate(endText))
      case Some(e) => RangeBetween(s, e)
  }

  /** `get_date_range`: append the current day while it is not after the end,
      then step one day forward. */
  method GetDateRange(startText: string, endText: string) returns (r: Result<seq<string>, Failure>)
    ensures r == DateRange(startText, endText)
  {
    var start := Parse(startText);
    if start.None? {
      return Err(InvalidDate(startText));
    }
    var end := Parse(endText);
    if end.None? {
      return Err(InvalidDate(endText));
    }
    var s, e := start.value, end.value;
    var dates: seq<string> := [];
    var current := s;
    while NotAfter(current, e)
      invariant Valid(current)
      invariant Ordinal(current) == Ordinal(s) + |dates|
      invariant dates == Days(Ordinal(s), |dates|)
      invariant Ordinal(s) <= Ordinal(e) ==> Ordinal(current) <= Ordinal(e) + 1
      invariant Ordinal(e) < Ordinal(s) ==> dates == []
      decreases Ordinal(e) - Ordinal(current)
    {
      NotAfterIsChronological(current, e);
      OrdinalInverse(current);
      DaysSnoc(Ordinal(s), |dates|);
      dates := dates + [Format(current)];
      var next := AddDays(current, 1);
      if next.None? {
        WalkOverflows(s, e, current);
        return Err(DateOutOfRange);
      }
      current := next.value;
    }
    WalkEnds(s, e, current, dates);
    return Ok(dates);
  }

  /** The walk stops once past the end with every day from the start on collected. */
  lemma WalkEnds(s: Date, e: Date, current: Date, dates: seq<string>)
    requires Valid(s) && Valid(e) && Valid(current) && !NotAfter(current, e)
    requires Ordinal(current) == Ordinal(s) + |dates|
    requires dates == Days(Ordinal(s), |dates|)
    requires Ordinal(s) <= Ordinal(e) ==> Ordinal(current) <= Ordinal(e) + 1
    requires Ordinal(e) < Ordinal(s) ==> dates == []
    ensures RangeBetween(s, e) == Ok(dates)
  {
    NotAfterIsChronological(current, e);
    OrdinalBounds(current);
  }

  /** A step past 9999-12-31 can only happen when the range ends there. */
  lemma WalkOverflows(s: Date, e: Date, current: Date)
    requires Valid(s) && Valid(e) && Valid(current) && NotAfter(current, e)
    requires Ordinal(s) <= Ordinal(current)
    requires AddDays(current, 1).None?
    ensures RangeBetween(s, e) == Err(DateOutOfRange)
  {
    NotAfterIsChronological(current, e);
    OrdinalBounds(e);
  }

  /** `calculate_offset_date` with the offset already chosen: today minus
      `offset` days, formatted; OverflowError outside years 1..9999. */
  function OffsetDate(today: Date, offset: int): (r: Result<string, Failure>)
    requires Valid(today)
    ensures r.Ok? <==> 1 <= Ordinal(today) - offset <= MaxOrdinal
    ensures r.Err? ==> r.error == DateOutOfRange
  {
    match AddDays(today, -offset)
    case None => Err(DateOutOfRange)
    case Some(d) => Ok(Format(d))
  }

  /** The offset date reads back as the day `offset` days before today. */
  lemma OffsetDateReadsBack(today: Date, offset: int)
    requires Valid(today) && OffsetDate(today, offset).Ok?
    ensures var text := OffsetDate(today, offset).value;
      Parse(text).Some? && Ordinal(Parse(text).value) == Ordinal(today) - offset
  {
    ParseFormat(AddDays(today, -offset).value);
  }

  // ---------------------------------------------------------------------------

  /** When the range fails: an unparsable bound (the start is reported first),
      or a walk that would have to step past 9999-12-31. */
  lemma DateRangeFails(startText: string, endText: string)
    ensures DateRange(startText, endText).Err?
        <==> Parse(startText).None? || Parse(endText).None?
             || (NotAfter(Parse(startText).value, Parse(endText).value)
                 && Parse(endText).value == Date(MaxYear, 12, 31))
    ensures Parse(startText).None? ==> DateRange(startText, endText) == Err(InvalidDate(startText))
    ensures Parse(startText).Some? && Parse(endText).None?
        ==> DateRange(startText, endText) == Err(InvalidDate(endText))
  {
    if Parse(startText).Some? && Parse(endText).Some? {
      var s, e := Parse(startText).value, Parse(endText).value;
      NotAfterIsChronological(s, e);
      var last := Date(MaxYear, 12, 31);
      assert Ordinal(last) == MaxOrdinal;
      NotAfterIsChronological(e, last);
    }
  }

  /** An inverted range is empty, not an error. */
  lemma InvertedRangeIsEmpty(startText: string, endText: string)
    requires Parse(startText).Some? && Parse(endText).Some?
    requires !NotAfter(Parse(startText).value, Parse(endText).value)
    ensures DateRange(startText, endText) == Ok([])
  {
    NotAfterIsChronological(Parse(startText).value, Parse(endText).value);
  }

  /** Entry `i` of a run of days is the formatted date with ordinal `first + i`. */
  lemma DayIs(first: int, n: nat, i: int, d: Date)
    requires Valid(d) && Ordinal(d) == first + i && 0 <= i < n
    ensures Days(first, n)[i] == Format(d)
  {
    OrdinalInverse(d);
  }

  /** Entry `i` of a walk from `s` is `s + timedelta(days = i)`, formatted. */
  lemma RangeEntry(s: Date, e: Date, i: int)
    requires Valid(s) && Valid(e) && RangeBetween(s, e).Ok?
    requires 0 <= i < |RangeBetween(s, e).value|
    ensures AddDays(s, i).Some?
    ensures RangeBetween(s, e).value[i] == Format(AddDays(s, i).value)
  {
    OrdinalBounds(s);
    var d := AddDays(s, i).value;
    DayIs(Ordinal(s), Ordinal(e) - Ordinal(s) + 1, i, d);
  }

  /** The ends of a non-empty walk: one entry per day from start to end
      inclusive, the first entry is the start and the last the end. */
  lemma RangeEnds(s: Date, e: Date)
    requires Valid(s) && Valid(e) && Ordinal(s) <= Ordinal(e) < MaxOrdinal
    ensures RangeBetween(s, e).Ok?
    ensures |RangeBetween(s, e).value| == Ordinal(e) - Ordinal(s) + 1
    ensures RangeBetween(s, e).value[0] == Format(s)
    ensures RangeBetween(s, e).value[Ordinal(e) - Ordinal(s)] == Format(e)
  {
    var n := Ordinal(e) - Ordinal(s) + 1;
    DayIs(Ordinal(s), n, 0, s);
    DayIs(Ordinal(s), n, n - 1, e);
  }

  /** A walk follows the calendar: every entry after the first is the
      calendar successor of the one before, so the entries are strictly
      ascending, without gaps or repeats. */
  lemma RangeIsCalendarWalk(s: Date, e: Date, i: int)
    requires Valid(s) && Valid(e) && RangeBetween(s, e).Ok?
    requires 0 <= i && i + 1 < |RangeBetween(s, e).value|
    ensures var ds := RangeBetween(s, e).value;
      Parse(ds[i]).Some? && NextDay(Parse(ds[i]).value) == Parse(ds[i + 1])
  {
    RangeEntry(s, e, i);
    RangeEntry(s, e, i + 1);
    var d := AddDays(s, i).value;
    AddOneDayIsNextDay(d);
    ParseFormat(d);
    ParseFormat(AddDays(s, i + 1).value);
  }

  /** Entries of a walk are pairwise distinct. */
  lemma RangeIsDistinct(s: Date, e: Date, i: int, j: int)
    requires Valid(s) && Valid(e) && RangeBetween(s, e).Ok?
    requires 0 <= i < j < |RangeBetween(s, e).value|
    ensures RangeBetween(s, e).value[i] != RangeBetween(s, e).value[j]
  {
    RangeEntry(s, e, i);
    RangeEntry(s, e, j);
    var a, b := AddDays(s, i).value, AddDays(s, j).value;
    if Format(a) == Format(b) {
      FormatInjective(a, b);
    }
  }

  /** The range between two formatted dates is the run of days between them. */
  lemma RangeOfFormatted(s: Date, e: Date)
    requires Valid(s) && Valid(e)
    ensures DateRange(Format(s), Format(e)) == RangeBetween(s, e)
  {
    ParseFormat(s);
    ParseFormat(e);
  }

  /** The offset date is the formatted day with the expected ordinal. */
  lemma OffsetDateIs(today: Date, offset: int, d: Date)
    requires Valid(today) && Valid(d) && Ordinal(d) == Ordinal(today) - offset
    ensures OffsetDate(today, offset) == Ok(Format(d))
  {
    OrdinalBounds(d);
    OrdinalInverse(d);
    assert AddDays(today, -offset) == Some(d);
  }

  /** The three-day example: 2024-01-01 to 2024-01-03. */
  lemma ThreeDayRange()
    ensures DateRange("2024-01-01", "2024-01-03") == Ok(["2024-01-01", "2024-01-02", "2024-01-03"])
  {
    var d1, d2, d3 := Date(2024, 1, 1), Date(2024, 1, 2), Date(2024, 1, 3);
    assert Format(d1) == "2024-01-01" && Format(d2) == "2024-01-02" && Format(d3) == "2024-01-03";
    assert Ordinal(d2) == Ordinal(d1) + 1 && Ordinal(d3) == Ordinal(d1) + 2 < MaxOrdinal;
    RangeOfFormatted(d1, d3);
    ConsecutiveRange(d1, d2, d3);
  }

  /** Three consecutive days make a three-entry range. */
  lemma ConsecutiveRange(d1: Date, d2: Date, d3: Date)
    requires Valid(d1) && Valid(d2) && Valid(d3)
    requires Ordinal(d2) == Ordinal(d1) + 1 && Ordinal(d3) == Ordinal(d1) + 2 < MaxOrdinal
    ensures RangeBetween(d1, d3) == Ok([Format(d1), Format(d2), Format(d3)])
  {
    DaysOfThree(d1, d2, d3);
  }

  lemma DaysOfThree(d1: Date, d2: Date, d3: Date)
    requires Valid(d1) && Valid(d2) && Valid(d3)
    requires Ordinal(d2) == Ordinal(d1) + 1 && Ordinal(d3) == Ordinal(d1) + 2
    ensures Days(Ordinal(d1), 3) == [Format(d1), Format(d2), Format(d3)]
  {
    var first := Ordinal(d1);
    DayIs(first, 3, 0, d1);
    DayIs(first, 3, 1, d2);
    DayIs(first, 3, 2, d3);
  }

  /** The example of scheduled single-day runs: thirty days before 2025-03-31 is 2025-03-01. */
  lemma ThirtyDaysBefore()
    ensures OffsetDate(Date(2025, 3, 31), 30) == Ok("2025-03-01")
  {
    assert Format(Date(2025, 3, 1)) == "2025-03-01";
    OffsetDateIs(Date(2025, 3, 31), 30, Date(2025, 3, 1));
  }
}
