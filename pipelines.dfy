/** The two pipelines built on the engine: taxi trips (row totals reported,
    bounds always given) and weather (no row totals, bounds defaulted), with
    the configuration both read from the environment. */
module Pipelines {
  import opened Results
  import opened Calendar
  import opened DateText
  import opened Partitions
  import opened DateRanges
  import opened Ingestion

  /** The environment variables the pipelines read: `GCS_BUCKET`,
      `OFFSET_DAYS`, `WEATHER_START_DATE` and `WEATHER_END_DATE`. */
  datatype Config = Config(bucket: string, offsetDays: int, weatherStart: string, weatherEnd: string)

  /** The values used when those variables are unset. */
  const Defaults := Config("orbidi-challenge-data-landing", 730, "2023-06-01", "2023-12-31")

  const Taxis := Dataset("taxis", true)
  const Weather := Dataset("weather", false)

  /** `calculate_offset_date(offset_days)` on the day `today`: an explicit
      offset wins, otherwise the configured `OFFSET_DAYS`. The result reads
      back as the day that many days before today (a negative offset gives a
      later day); outside years 1..9999 it is OverflowError. */
  function CalculateOffsetDate(cfg: Config, today: Date, offsetDays: Option<int>): (r: Result<string, Failure>)
    requires Valid(today)
    ensures var k := if offsetDays.Some? then offsetDays.value else cfg.offsetDays;
      (r.Ok? <==> 1 <= Ordinal(today) - k <= MaxOrdinal)
      && (r.Ok? ==> Parse(r.value).Some? && Ordinal(Parse(r.value).value) == Ordinal(today) - k)
      && (r.Err? ==> r.error == DateOutOfRange)
  {
    var k := if offsetDays.Some? then offsetDays.value else cfg.offsetDays;
    if OffsetDate(today, k).Ok? then
      OffsetDateReadsBack(today, k);
      OffsetDate(today, k)
    else
      OffsetDate(today, k)
  }

  /** `start_date or DEFAULT_START_DATE`: a missing or empty bound falls back
      to the default. */
  function RangeBound(given: Option<string>, default: string): string {
    if given.None? || given.value == "" then default else given.value
  }

  /** `process_taxi_ingestion`. */
  method ProcessTaxiIngestion(bucket: Bucket, source: Source, startDate: string, endDate: string, force: bool)
    returns (r: Result<RangeReport, Failure>)
    modifies bucket, source
    ensures RangeRun(Taxis, bucket, source, startDate, endDate, force, old(bucket.objects), old(source.requests),
                     r, bucket.objects, source.requests)
  {
    r := ProcessIngestion(Taxis, bucket, source, startDate, endDate, force);
  }

  /** `process_weather_ingestion`, with the bounds defaulted first. */
  method ProcessWeatherIngestion(cfg: Config, bucket: Bucket, source: Source,
                                 startDate: Option<string>, endDate: Option<string>, force: bool)
    returns (r: Result<RangeReport, Failure>)
    modifies bucket, source
    ensures RangeRun(Weather, bucket, source, RangeBound(startDate, cfg.weatherStart),
                     RangeBound(endDate, cfg.weatherEnd), force, old(bucket.objects), old(source.requests),
                     r, bucket.objects, source.requests)
  {
    var start := RangeBound(startDate, cfg.weatherStart);
    var end := RangeBound(endDate, cfg.weatherEnd);
    r := ProcessIngestion(Weather, bucket, source, start, end, force);
  }

  /** `process_single_date` of the taxi pipeline. */
  method ProcessTaxiDate(bucket: Bucket, source: Source, target: string, force: bool)
    returns (r: Result<DateReport, Failure>)
    modifies bucket, source
    ensures (r, bucket.objects) == SingleDate(Taxis, source, bucket, old(bucket.objects), target, force)
    ensures source.requests
         == old(source.requests) + (if Fetches(Taxis, bucket, old(bucket.objects), target, force) then [target] else [])
  {
    r := ProcessSingleDate(Taxis, bucket, source, target, force);
  }

  /** `process_single_date` of the weather pipeline. */
  method ProcessWeatherDate(bucket: Bucket, source: Source, target: string, force: bool)
    returns (r: Result<DateReport, Failure>)
    modifies bucket, source
    ensures (r, bucket.objects) == SingleDate(Weather, source, bucket, old(bucket.objects), target, force)
    ensures source.requests
         == old(source.requests) + (if Fetches(Weather, bucket, old(bucket.objects), target, force) then [target] else [])
  {
    r := ProcessSingleDate(Weather, bucket, source, target, force);
  }

  // ---------------------------------------------------------------------------

  /** With the default offset of 730 days, a run on 2025-12-29 targets
      2023-12-30 (2024 has 366 days). */
  lemma DefaultOffsetFromDecember29()
    ensures CalculateOffsetDate(Defaults, Date(2025, 12, 29), None) == Ok("2023-12-30")
  {
    assert Format(Date(2023, 12, 30)) == "2023-12-30";
    OffsetDateIs(Date(2025, 12, 29), 730, Date(2023, 12, 30));
  }

  /** An offset of 364 days from 2025-12-30 targets 2024-12-31. */
  lemma Offset364FromDecember30()
    ensures CalculateOffsetDate(Defaults, Date(2025, 12, 30), Some(364)) == Ok("2024-12-31")
  {
    assert Format(Date(2024, 12, 31)) == "2024-12-31";
    OffsetDateIs(Date(2025, 12, 30), 364, Date(2024, 12, 31));
  }

  /** A weather run given no bounds (or empty ones) walks the default range,
      2023-06-01 to 2023-12-31: 214 days. */
  lemma DefaultWeatherRange(startDate: Option<string>, endDate: Option<string>)
    requires startDate.None? || startDate.value == ""
    requires endDate.None? || endDate.value == ""
    ensures DateRange(RangeBound(startDate, Defaults.weatherStart), RangeBound(endDate, Defaults.weatherEnd)).Ok?
    ensures var all := DateRange(RangeBound(startDate, Defaults.weatherStart), RangeBound(endDate, Defaults.weatherEnd)).value;
      |all| == 214 && all[0] == "2023-06-01" && all[213] == "2023-12-31"
  {
    assert RangeBound(startDate, Defaults.weatherStart) == "2023-06-01";
    assert RangeBound(endDate, Defaults.weatherEnd) == "2023-12-31";
    var s, e := Date(2023, 6, 1), Date(2023, 12, 31);
    assert Format(s) == "2023-06-01" && Format(e) == "2023-12-31";
    assert Ordinal(e) - Ordinal(s) == 213;
    RangeOfFormatted(s, e);
    RangeEnds(s, e);
  }

  /** The two datasets live under different prefixes, so a run of one never
      sees the partitions of the other. */
  lemma DatasetsAreSeparate(keys: set<string>, date: string)
    ensures ExistingIn(Taxis.base, keys + {PartitionPath(Weather.base, date)}) == ExistingIn(Taxis.base, keys)
    ensures ExistingIn(Weather.base, keys + {PartitionPath(Taxis.base, date)}) == ExistingIn(Weather.base, keys)
  {
    ExistingIgnoresOtherBases(Taxis.base, Weather.base, keys, date);
    ExistingIgnoresOtherBases(Weather.base, Taxis.base, keys, date);
  }

  /** Both base paths are single segments that are not partition keys. */
  lemma BasesAreValid()
    ensures IsBase(Taxis.base) && IsBase(Weather.base)
  {
    assert Taxis.base[..|DateKey|][0] != DateKey[0];
    assert Weather.base[..|DateKey|][0] != DateKey[0];
  }
}
