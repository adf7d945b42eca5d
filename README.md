# Incremental daily-partition ingestion, modelled in Dafny

The repository runs two Cloud Functions that land external data in a GCS
bucket as one Parquet file per calendar day:

- `ingest_taxis` lands Chicago taxi trips from BigQuery.
- `ingest_weather` lands Chicago daily weather from Open-Meteo.

Both files (`Desafio_2/src/ingest_taxis/main.py` and
`Desafio_2/src/ingest_weather/main.py`) contain the same engine. The model
captures that engine, which works as follows:

- `get_date_range` walks from a start date to an end date one day at a
  time, both ends included.
- `get_existing_dates` lists the dataset's prefix in the bucket. For each
  object name it takes the first `/`-segment that starts with `date=` and
  removes `date=` from it. The result is the set of partition keys already
  present.
- `write_daily_parquet` uploads a day's rows to
  `<base>/date=<YYYY-MM-DD>/data.parquet`. The upload replaces any object
  already at that path. The function returns the object's `gs://` URI.
- `process_taxi_ingestion` and `process_weather_ingestion` run a range.
  - They list the existing dates, unless the run is forced.
  - They compute the range and filter out the dates already present.
  - If nothing is missing, they return at once.
  - Otherwise they fetch and write each missing date in order. A failure is
    recorded and the loop goes on.
  - They count processed dates and, for taxis, trips, and classify the run
    as `success`, `partial_success` or `error`.
- `process_single_date` processes one date. It skips a date that is already
  present unless forced. Any failure is raised to the caller.
- `calculate_offset_date` gives today minus `OFFSET_DAYS` days, or minus an
  explicit offset when one is given.

The Dafny project has one module per concern:

- `Results` holds `Option`, `Result` and the kinds of exception the core
  raises.
- `Calendar` models the proleptic Gregorian calendar of Python's
  `datetime`:
  - day numbers match `date.toordinal()` (0001-01-01 is day 1, 9999-12-31
    is day 3652059);
  - `+ timedelta(days=k)` is defined, or raises `OverflowError`, exactly
    where Python's is;
  - `<=` on datetimes is compared field by field.
- `DateText` models `strftime`/`strptime` with `%Y-%m-%d`.
- `Text` models the string operations the object-name parsing uses:
  `split("/")`, `startswith("date=")` and `replace("date=", "")`. Its
  `Join` and `Occurs` (for `"/".join` and `in`) are proof helpers: they state
  what `split` and `replace` preserve.
- `Partitions` models the partition layout, the URI, and the reading of
  keys back out of object names.
- `DateRanges` models `get_date_range` and `calculate_offset_date`.
- `Ingestion` is the generic engine:
  - a `Bucket` class (objects by path, with listing and upload that may
    fail);
  - a `Source` class (the per-day fetch, with a log of the requests made);
  - the range run as a loop over the missing dates;
  - the single-date run.
- `Pipelines` instantiates the engine for the `taxis` dataset (rows
  totalled) and the `weather` dataset (bounds defaulted). It also holds the
  configuration defaults.

The model follows the code:

- An inverted range gives `[]`: the loop of `get_date_range` never runs,
  so the range run takes the "nothing to do" exit.
- Listing or parse failures before the loop, and any failure of a
  single-date run, are raised. They appear here as `Err` results.

The code differs from its own comments, and the model follows the code:

- `OFFSET_DAYS` defaults to 730 in the code. The module docstrings say 364.
- The comment next to `OFFSET_DAYS` says 2025-12-29 minus 730 days is
  2023-12-29. It is 2023-12-30, because 2024 has 366 days
  (`Pipelines.DefaultOffsetFromDecember29`).
- The `calculate_offset_date` docstring says 2025-12-30 minus 364 days is
  2024-01-01. It is 2024-12-31 (`Pipelines.Offset364FromDecember30`).

## Model

| member | source | states |
|---|---|---|
| Calendar.DaysInMonth | Desafio_2/src/ingest_taxis/main.py:148-150 | Month lengths are 28 to 31 days; a month has 29 days exactly when it is February of a leap year |
| Calendar.YearStep | Desafio_2/src/ingest_taxis/main.py:150 | The days before year y+1 are those before y plus the length of y, so the closed-form numbering counts every year with its leap rule |
| Calendar.OrdinalBounds | Desafio_2/src/ingest_taxis/main.py:150 | Every valid date has a day number between 1 and 3652059, the range of Python dates |
| Calendar.LastDayIsMaxOrdinal | Desafio_2/src/ingest_taxis/main.py:150 | 9999-12-31 is day 3652059, the last day Python can represent |
| Calendar.NotAfterIsChronological | Desafio_2/src/ingest_taxis/main.py:148 | `current <= end`, compared field by field, holds exactly when current is not later in time; equal day numbers mean equal dates |
| Calendar.FromOrdinal | Desafio_2/src/ingest_taxis/main.py:150 | Turning a day number back into a date always gives a valid date |
| Calendar.FromOrdinalInverse | Desafio_2/src/ingest_taxis/main.py:150 | Every day number in range is the number of the date it is turned back into |
| Calendar.OrdinalInverse | Desafio_2/src/ingest_taxis/main.py:150 | Every valid date is recovered from its day number, so the numbering is a bijection |
| Calendar.AddDays | Desafio_2/src/ingest_taxis/main.py:95 | `d + timedelta(days=k)` succeeds exactly when the result lies in years 1..9999, and then its day number is that of d plus k |
| Calendar.AddOneDayIsNextDay | Desafio_2/src/ingest_taxis/main.py:150 | Adding one day is the calendar successor, with month, year and leap-day rollover; it overflows only from 9999-12-31 |
| Calendar.NextDayIsOneLater | Desafio_2/src/ingest_taxis/main.py:150 | The calendar successor of a date is valid and one day number later |
| DateText.Format | Desafio_2/src/ingest_taxis/main.py:149 | `strftime("%Y-%m-%d")`: the year padded to four digits, month and day to two, joined by hyphens; its shape is DateText.FormatCharacters and its inverse DateText.ParseFormat |
| DateText.Parse | Desafio_2/src/ingest_taxis/main.py:143-144 | `strptime(s, "%Y-%m-%d")`: the date written as `YYYY-MM-DD` when it is a valid calendar date, None where Python raises ValueError; it inverts Format by DateText.ParseFormat and DateText.FormatParse |
| DateText.FormatCharacters | Desafio_2/src/ingest_taxis/main.py:149 | `strftime("%Y-%m-%d")` gives ten characters `DDDD-DD-DD`, digits and hyphens only |
| DateText.ParseFormat | Desafio_2/src/ingest_taxis/main.py:143-149 | `strptime` reads back exactly the date `strftime` wrote |
| DateText.FormatParse | Desafio_2/src/ingest_taxis/main.py:143-144 | Every text the model's `strptime` accepts is written back character for character by `strftime` |
| DateText.FormatInjective | Desafio_2/src/ingest_taxis/main.py:149 | Different dates give different partition keys |
| Text.Split | Desafio_2/src/ingest_taxis/main.py:119 | `split("/")` gives at least one piece, no piece contains `/`, the first piece is a prefix of the name, and a `/` follows it when there are more pieces (that empty pieces are kept and nothing is lost is Text.JoinSplit) |
| Text.RemoveAll | Desafio_2/src/ingest_taxis/main.py:122 | `replace(pat, "")` removes every occurrence, scanning left to right without overlap, and never lengthens the text; Text.RemoveAllLeading and Text.RemoveAllAbsent state what it does to a key segment |
| Text.SplitJoin | Desafio_2/src/ingest_taxis/main.py:119 | Splitting a `/`-join of slash-free segments gives the segments back |
| Text.JoinSplit | Desafio_2/src/ingest_taxis/main.py:119 | Joining the pieces of a split gives the name back |
| Text.SplitPrefix | Desafio_2/src/ingest_taxis/main.py:119 | A slash-free text before the first `/` is the first piece, and the rest splits on its own |
| Text.RemoveAllLeading | Desafio_2/src/ingest_taxis/main.py:122 | `replace("date=", "")` on a segment starting with `date=` drops that marker and continues after it |
| Text.RemoveAllAbsent | Desafio_2/src/ingest_taxis/main.py:122 | `replace` leaves a text without the pattern unchanged |
| Text.AbsentFirstCharacter | Desafio_2/src/ingest_taxis/main.py:122 | A pattern cannot occur in a text that lacks its first character |
| Partitions.PartitionPath | Desafio_2/src/ingest_taxis/main.py:202 | `<base>/date=<date>/data.parquet`; Partitions.PathRoundTrip proves it reads back as its date and Partitions.PathInjective that dates do not share a path |
| Partitions.GcsUri | Desafio_2/src/ingest_taxis/main.py:223 | `gs://<bucket>/<path>`; Partitions.UriRoundTrip proves it splits back into bucket and path |
| Partitions.KeyOfName | Desafio_2/src/ingest_taxis/main.py:119-124 | The key of one object name: its first segment starting with `date=`, with `date=` removed, or none; Partitions.KeyOfFirstMarked and Partitions.KeyOfUnmarked state both cases |
| Partitions.ExistingDates | Desafio_2/src/ingest_taxis/main.py:116-126 | The extraction loop (inner loop with `break`) returns exactly the set of keys of the listed names |
| Partitions.KeysOfInsert | Desafio_2/src/ingest_taxis/main.py:116-126 | Each name adds at most one key, and duplicates collapse in the set |
| Partitions.KeyOfFirstMarked | Desafio_2/src/ingest_taxis/main.py:120-124 | A name's key is its first segment starting with `date=`, with every `date=` removed |
| Partitions.KeyOfUnmarked | Desafio_2/src/ingest_taxis/main.py:120-124 | A name gives no key exactly when none of its segments starts with `date=` |
| Partitions.PathRoundTrip | Desafio_2/src/ingest_taxis/main.py:202 | The path written for a key lies under the listing prefix `<base>/date=` and reads back as exactly that key |
| Partitions.PathInjective | Desafio_2/src/ingest_taxis/main.py:202 | Different dates of one dataset are written to different object paths, so one day's upload never replaces another's |
| Partitions.FormattedIsKey | Desafio_2/src/ingest_taxis/main.py:202 | A formatted date can serve as a partition key: it has no `/` and no `date=` |
| Partitions.UriRoundTrip | Desafio_2/src/ingest_taxis/main.py:223 | The returned `gs://` URI names the bucket and the object path it was built from |
| Partitions.ListedUnderOwnBase | Desafio_2/src/ingest_taxis/main.py:113-115 | A partition path appears in a dataset's listing exactly when it was written under that dataset's base |
| Partitions.ExistingAfterWrites | Desafio_2/src/ingest_taxis/main.py:112-126 | Writing the partitions of some keys adds exactly those keys to the existing set |
| Partitions.ExistingIgnoresOtherBases | Desafio_2/src/ingest_weather/main.py:94-96 | A partition written under another base leaves a dataset's existing set unchanged |
| DateRanges.DateRange | Desafio_2/src/ingest_taxis/main.py:143-152 | What `get_date_range` returns or raises, in closed form: the start parsed first, then the end, then one formatted entry per day; its properties are DateRanges.DateRangeFails, DateRanges.RangeEnds, DateRanges.RangeEntry, DateRanges.RangeIsCalendarWalk and DateRanges.RangeIsDistinct |
| DateRanges.GetDateRange | Desafio_2/src/ingest_taxis/main.py:143-152 | The `while current <= end` append loop returns `DateRange` of the two texts, including the errors |
| DateRanges.DateRangeFails | Desafio_2/src/ingest_taxis/main.py:143-150 | The range raises exactly when a bound fails `strptime` (the start is reported first), or when the walk must step past 9999-12-31 |
| DateRanges.InvertedRangeIsEmpty | Desafio_2/src/ingest_weather/main.py:127-133 | A start later than the end gives an empty list, not an error |
| DateRanges.RangeEnds | Desafio_2/src/ingest_taxis/main.py:146-152 | A non-empty range has (end − start) + 1 entries, and its first entry is the start and its last the end |
| DateRanges.RangeEntry | Desafio_2/src/ingest_taxis/main.py:146-150 | Entry i of the range is the start plus i days, formatted |
| DateRanges.RangeIsCalendarWalk | Desafio_2/src/ingest_taxis/main.py:148-150 | Every entry parses, and each entry after the first is the calendar successor of the one before |
| DateRanges.RangeIsDistinct | Desafio_2/src/ingest_weather/main.py:127-133 | The entries of a range are pairwise distinct |
| DateRanges.RangeOfFormatted | Desafio_2/src/ingest_taxis/main.py:143-144 | The range between two formatted dates is the walk between those dates |
| DateRanges.ThreeDayRange | Desafio_2/src/ingest_taxis/main.py:143-152 | 2024-01-01 to 2024-01-03 gives the three dates in order |
| DateRanges.OffsetDate | Desafio_2/src/ingest_taxis/main.py:95-96 | Today minus k days is returned exactly when it lies in years 1..9999; otherwise OverflowError |
| DateRanges.OffsetDateReadsBack | Desafio_2/src/ingest_taxis/main.py:95-96 | The returned text parses to the date k days before today |
| DateRanges.OffsetDateIs | Desafio_2/src/ingest_weather/main.py:76-77 | The offset date is the formatted date whose day number is today's minus k |
| DateRanges.ThirtyDaysBefore | Desafio_2/src/ingest_taxis/main.py:93-96 | Thirty days before 2025-03-31 is 2025-03-01 |
| Ingestion.Bucket.ListBlobs | Desafio_2/src/ingest_taxis/main.py:115 | Listing returns the names of the objects under the prefix, or raises |
| Ingestion.Bucket.Upload | Desafio_2/src/ingest_taxis/main.py:221 | An upload replaces the object at the path as a whole, or raises and changes nothing |
| Ingestion.Source.Fetch | Desafio_2/src/ingest_taxis/main.py:155-186 | Each fetch is one logged request, and gives the day's row count or raises |
| Ingestion.WriteDailyParquet | Desafio_2/src/ingest_taxis/main.py:189-225 | Uploads to `<base>/date=<d>/data.parquet` and returns `gs://<bucket>/<path>`; on failure the bucket is unchanged |
| Ingestion.GetExistingDates | Desafio_2/src/ingest_weather/main.py:80-110 | Returns the keys of the objects listed under `<base>/date=`, or the listing failure |
| Ingestion.PlanRun | Desafio_2/src/ingest_taxis/main.py:287-293 | The existing dates (none when forced, the listing otherwise), then the range, then the dates missing from it, raising the first failure; Ingestion.ForcedRunAttemptsAll and Ingestion.SecondRunRetriesOnlyFailures state what it plans |
| Ingestion.Missing | Desafio_2/src/ingest_taxis/main.py:293 | A date is missing exactly when it is in the range and not in the existing set; nothing is missing exactly when the existing set covers the range |
| Ingestion.MissingInOrder | Desafio_2/src/ingest_weather/main.py:287 | The filter keeps the range's order: it distributes over concatenation |
| Ingestion.NothingExists | Desafio_2/src/ingest_taxis/main.py:287-293 | Against an empty existing set every date is missing |
| Ingestion.ForcedRunAttemptsAll | Desafio_2/src/ingest_taxis/main.py:287-293 | A forced run does not list the bucket, and it attempts the whole range |
| Ingestion.RangeKeys | Desafio_2/src/ingest_taxis/main.py:290 | Every date of a range can serve as a partition key |
| Ingestion.Run | Desafio_2/src/ingest_taxis/main.py:307-326 | The loop's counters, errors and bucket after attempting a list of dates in order; Ingestion.RunAccounting, Ingestion.RunErrors, Ingestion.RunRows and Ingestion.RunStore state what they hold |
| Ingestion.Landed | Desafio_2/src/ingest_taxis/main.py:311-319 | A date is written exactly when its fetch and its upload both succeed, independently of the other dates |
| Ingestion.Failed | Desafio_2/src/ingest_taxis/main.py:311-326 | A date has an error entry exactly when its fetch or its upload fails |
| Ingestion.AttemptAll | Desafio_2/src/ingest_taxis/main.py:307-326 | The per-date loop requests every missing date once, in order, and ends in the state `Run` over the missing dates gives |
| Ingestion.ProcessIngestion | Desafio_2/src/ingest_taxis/main.py:285-343 | A range run returns the report and leaves the bucket and request log that `RangeRun` relates to `PlanRun` and `Run`; a failure before the loop changes nothing |
| Ingestion.RunAccounting | Desafio_2/src/ingest_taxis/main.py:307-326 | processed_count + len(errors) == len(missing_dates) |
| Ingestion.RunErrors | Desafio_2/src/ingest_weather/main.py:304-318 | The error entries are the failing dates in attempt order, and processed_count is the number of dates written |
| Ingestion.RunRows | Desafio_2/src/ingest_taxis/main.py:315 | total_trips is the sum of the rows fetched, including those of dates whose upload then failed |
| Ingestion.RunStore | Desafio_2/src/ingest_taxis/main.py:318 | The loop adds exactly the partitions of the dates written and changes no other object |
| Ingestion.LandedConcat | Desafio_2/src/ingest_taxis/main.py:311-319 | The dates written from two consecutive stretches of dates are those of each stretch, in order |
| Ingestion.FailedConcat | Desafio_2/src/ingest_taxis/main.py:320-326 | The failing dates from two consecutive stretches of dates are those of each stretch, in order |
| Ingestion.FailureDoesNotStopOthers | Desafio_2/src/ingest_taxis/main.py:311-326 | A failing date does not change which other dates are written, and it is recorded in its place among the failures |
| Ingestion.Classify | Desafio_2/src/ingest_taxis/main.py:339-341 | The status of a run with dates to process: success without errors, partial_success with errors and some date processed, error otherwise; Ingestion.ReportMeaning states it against the dates written and failed |
| Ingestion.ReportOf | Desafio_2/src/ingest_taxis/main.py:295-341 | The returned dictionary: the "nothing to do" report when no date is missing, otherwise the counters, trips, glob path and errors of the loop; Ingestion.ReportMeaning states each field |
| Ingestion.ReportMeaning | Desafio_2/src/ingest_taxis/main.py:328-341 | The report counts the range, existing and processed dates and the trips. It has `errors` exactly when a date failed, listing those dates. Status is success iff no failures, error iff nothing written, partial_success otherwise |
| Ingestion.MiddleDateFails | Desafio_2/src/ingest_taxis/main.py:311-341 | Of three dates, when only the middle one fails: the bucket gains exactly the partitions of the first and third dates (the middle date's path stays absent when it was absent and distinct), two dates count as processed, the status is partial_success and only the middle date is in `errors` |
| Ingestion.MissingAfterWrites | Desafio_2/src/ingest_taxis/main.py:293 | Filtering the range against the old existing set plus the dates just written leaves the dates that failed |
| Ingestion.RetryOnlyFailures | Desafio_2/src/ingest_weather/main.py:281-318 | After a run, the existing set of the bucket it leaves excludes from the range every date written, leaving only the failures |
| Ingestion.SecondRunRetriesOnlyFailures | Desafio_2/src/ingest_taxis/main.py:287-326 | An incremental run over the same range, on the bucket the first run left, fetches exactly the dates that failed before, in order |
| Ingestion.CompleteRunIsFinal | Desafio_2/src/ingest_taxis/main.py:287-302 | After a run without errors, the next incremental run over the same range finds nothing missing |
| Ingestion.SingleDate | Desafio_2/src/ingest_taxis/main.py:239-269 | An unforced run skips a present date, with processed False, and writes nothing. Otherwise the date is written once, with the URI and trips_count. On any failure the bucket is unchanged |
| Ingestion.ProcessSingleDate | Desafio_2/src/ingest_taxis/main.py:228-269 | The single-date method returns the report and bucket `SingleDate` gives, and requests the date once exactly when it does not skip |
| Ingestion.SingleDateIdempotent | Desafio_2/src/ingest_weather/main.py:235-244 | After a date is written or found present, the next unforced run skips it without a fetch and leaves the bucket alone, whatever the source would answer |
| Pipelines.ProcessTaxiIngestion | Desafio_2/src/ingest_taxis/main.py:272-347 | The taxi range run is the engine run on `taxis`, with trips totalled |
| Pipelines.ProcessWeatherIngestion | Desafio_2/src/ingest_weather/main.py:263-338 | The weather range run is the engine run on `weather`, on the bounds after defaulting |
| Pipelines.ProcessTaxiDate | Desafio_2/src/ingest_taxis/main.py:228-269 | The taxi single-date run, with trips_count |
| Pipelines.ProcessWeatherDate | Desafio_2/src/ingest_weather/main.py:222-260 | The weather single-date run, without a row count |
| Pipelines.CalculateOffsetDate | Desafio_2/src/ingest_taxis/main.py:93-96 | The target date is today minus the given offset, or minus OFFSET_DAYS when none is given; it reads back as that day, a negative offset gives a later date, and outside years 1..9999 it raises OverflowError |
| Pipelines.RangeBound | Desafio_2/src/ingest_weather/main.py:276-277 | `start_date or DEFAULT_START_DATE`: a missing or empty bound is the default, a given one is kept; Pipelines.DefaultWeatherRange states which range a run without bounds walks |
| Pipelines.DefaultOffsetFromDecember29 | Desafio_2/src/ingest_taxis/main.py:47-48 | With the default OFFSET_DAYS of 730, a run on 2025-12-29 targets 2023-12-30 |
| Pipelines.Offset364FromDecember30 | Desafio_2/src/ingest_taxis/main.py:91 | An offset of 364 from 2025-12-30 targets 2024-12-31 |
| Pipelines.DefaultWeatherRange | Desafio_2/src/ingest_weather/main.py:44-45 | A weather run given no bounds, or empty ones, walks the default range 2023-06-01..2023-12-31: 214 dates, first and last as given |
| Pipelines.DatasetsAreSeparate | Desafio_2/src/ingest_weather/main.py:58 | Writing a weather partition does not change the taxi existing set, and vice versa |
| Pipelines.BasesAreValid | Desafio_2/src/ingest_taxis/main.py:54 | Both base paths are single segments that do not start with `date=` |

## Left out

- Network and storage clients are left out: BigQuery, the Open-Meteo HTTP request, `storage.Client`, and the paging of `list_blobs`. A source is reduced to a row count or a failure message per date. A bucket is reduced to a map from path to row count, with listing and upload failures fixed in advance.
- Parquet encoding, pandas DataFrames, the column lists and renames, the SQL text and the `loaded_at` timestamps are left out. They carry no logic the engine depends on.
- `datetime.now()` is not modelled. Today is a parameter.
- The HTTP and Pub/Sub entry points (`ingest_taxis`, `ingest_taxis_pubsub`, `ingest_weather`, `ingest_weather_pubsub`) are left out. They cover request, JSON and base64 parsing, mode selection and status codes.
- Reading the environment, including `int()` of `OFFSET_DAYS` at import, is left out. The configuration is the `Pipelines.Config` value. `Config.bucket` is not tied to `Bucket.name`.
- Messages and logging are left out: the `message` fields, every logger call, and the progress log every ten dates.
- `Desafio_2/test_bq_connection.py` is a manual connectivity script and is not part of this model.
- Concurrency is left out. Two invocations racing on one partition are not modelled; each run is sequential.
- DateText.Parse: accepts only the canonical `YYYY-MM-DD` with ASCII digits. Python's `strptime` also accepts unpadded fields and some other digit forms, which the model rejects.
- DateText.Format: always pads the year to four digits. Some C libraries print years below 1000 unpadded.
- Partitions.ExistingDates: the per-object `try`/`except: continue` is not modelled, because splitting, `startswith` and `replace` on a string cannot raise.
- Ingestion.Bucket.ListBlobs: returns a set, so listing order is not modelled. The result of extraction is a set anyway.
- Ingestion.Bucket.Upload: whether an upload fails is a fixed function of the path. A failure that would go away on retry within one bucket is not modelled, and a second run over the same bucket meets the same upload outcomes.
- Ingestion.Source.Fetch: whether a fetch fails is a fixed function of the date. The rows fetched are reduced to their count.
- Calendar.FromOrdinal: maps day numbers outside 1..3652059 to the nearest end date. It is used only for numbers in range.
