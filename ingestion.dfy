/** The incremental daily-partition engine shared by the taxi and weather
    pipelines: the bucket and the data source as objects, the reconciliation
    of a date range against the partitions already present, the per-date
    loop with its counters, and the reports both entry points return. */
module Ingestion {
  import opened Results
  import opened Text
  import opened Calendar
  import opened DateText
  import opened Partitions
  import opened DateRanges

  /** A dataset: the base path of its partitions and whether its reports
      carry row totals (`total_trips`, `trips_count`). */
  datatype Dataset = Dataset(base: string, countsRows: bool)

  /** The object store. Each object holds the row count of the Parquet file
      written there; whether listing fails, and whether an upload to a given
      path fails, is fixed per bucket. */
  class Bucket {
    const name: string
    const listingError: Option<string>
    const uploadError: string -> Option<string>
    var objects: map<string, nat>

    constructor (name: string, listingError: Option<string>,
                 uploadError: string -> Option<string>, objects: map<string, nat>)
      ensures this.name == name && this.listingError == listingError
      ensures this.uploadError == uploadError && this.objects == objects
    {
      this.name := name;
      this.listingError := listingError;
      this.uploadError := uploadError;
      this.objects := objects;
    }

    /** `bucket.list_blobs(prefix=prefix)`: the names of the objects under `prefix`. */
    method ListBlobs(prefix: string) returns (r: Result<set<string>, Failure>)
      ensures listingError.None? ==> r == Ok(Listing(objects.Keys, prefix))
      ensures listingError.Some? ==> r == Err(ListingFailed(listingError.value))
    {
      if listingError.Some? {
        return Err(ListingFailed(listingError.value));
      }
      return Ok(set p | p in objects && StartsWith(p, prefix));
    }

    /** `blob.upload_from_file`: the object at `path` is replaced as a whole,
        or the upload raises and nothing changes. */
    method Upload(path: string, rows: nat) returns (r: Option<Failure>)
      modifies this
      ensures uploadError(path).None? ==> r.None? && objects == old(objects)[path := rows]
      ensures uploadError(path).Some?
          ==> r == Some(UploadFailed(path, uploadError(path).value)) && objects == old(objects)
    {
      if uploadError(path).Some? {
        return Some(UploadFailed(path, uploadError(path).value));
      }
      objects := objects[path := rows];
      return None;
    }
  }

  /** The source of one day's data (the BigQuery query for taxis, the
      Open-Meteo request for weather): for each date it answers with a row
      count or fails with a message. Every request is logged in `requests`. */
  class Source {
    const answer: string -> Result<nat, string>
    var requests: seq<string>

    constructor (answer: string -> Result<nat, string>)
      ensures this.answer == answer && requests == []
    {
      this.answer := answer;
      requests := [];
    }

    /** `fetch_taxi_data_for_date` / `fetch_weather_for_date`. */
    method Fetch(date: string) returns (r: Result<nat, Failure>)
      modifies this
      ensures requests == old(requests) + [date]
      ensures answer(date).Ok? ==> r == Ok(answer(date).value)
      ensures answer(date).Err? ==> r == Err(FetchFailed(date, answer(date).error))
    {
      requests := requests + [date];
      match answer(date)
      case Ok(rows) => return Ok(rows);
      case Err(m) => return Err(FetchFailed(date, m));
    }
  }

  /** `write_daily_parquet`: uploads the day's rows to its partition path and
      returns the object's `gs://` URI. */
  method WriteDailyParquet(bucket: Bucket, ds: Dataset, rows: nat, date: string)
    returns (r: Result<string, Failure>)
    modifies bucket
    ensures var path := PartitionPath(ds.base, date);
      match bucket.uploadError(path)
      case None => r == Ok(GcsUri(bucket.name, path)) && bucket.objects == old(bucket.objects)[path := rows]
      case Some(m) => r == Err(UploadFailed(path, m)) && bucket.objects == old(bucket.objects)
  {
    var path := PartitionPath(ds.base, date);
    var failed := bucket.Upload(path, rows);
    if failed.Some? {
      return Err(failed.value);
    }
    return Ok(GcsUri(bucket.name, path));
  }

  /** What `get_existing_dates` returns or raises for a bucket holding `objects`. */
  function Listed(ds: Dataset, bucket: Bucket, objects: map<string, nat>): Result<set<string>, Failure> {
    if bucket.listingError.Some? then Err(ListingFailed(bucket.listingError.value))
    else Ok(ExistingIn(ds.base, objects.Keys))
  }

  /** `get_existing_dates`: list the dataset's prefix and read the keys back. */
  method GetExistingDates(bucket: Bucket, ds: Dataset) returns (r: Result<set<string>, Failure>)
    ensures r == Listed(ds, bucket, bucket.objects)
  {
    var names := bucket.ListBlobs(ListPrefix(ds.base));
    if names.Err? {
      return Err(names.error);
    }
    var dates := ExistingDates(names.value);
    return Ok(dates);
  }

  // ---------------------------------------------------------------------------
  // Reconciliation

  /** `[d for d in all if d not in existing]`. */
  function Missing(all: seq<string>, existing: set<string>): (m: seq<string>)
    ensures forall d :: d in m <==> d in all && d !in existing
    ensures |m| <= |all|
    ensures m == [] <==> forall d :: d in all ==> d in existing
    decreases |all|
  {
    if all == [] then []
    else
      var rest := Missing(all[..|all| - 1], existing);
      var d := all[|all| - 1];
      assert forall x :: x in all <==> x in all[..|all| - 1] || x == d by {
        assert all == all[..|all| - 1] + [d];
      }
      if d in existing then rest else rest + [d]
  }

  /** The existing set a range run reconciles against: empty when forced
      (the bucket is not listed), the listing otherwise. */
  function ExistingFor(ds: Dataset, bucket: Bucket, objects: map<string, nat>, force: bool)
    : Result<set<string>, Failure>
  {
    if force then Ok({}) else Listed(ds, bucket, objects)
  }

  /** The sets a range run works with: the existing dates, the whole range
      and the dates missing from the bucket. */
  datatype Plan = Plan(existing: set<string>, all: seq<string>, missing: seq<string>)

  /** The first half of `process_*_ingestion`: existing dates first, then the
      range, then the missing dates; an error in either step is raised. */
  function PlanRun(ds: Dataset, bucket: Bucket, objects: map<string, nat>,
                   startText: string, endText: string, force: bool): Result<Plan, Failure>
  {
    match ExistingFor(ds, bucket, objects, force)
    case Err(f) => Err(f)
    case Ok(existing) =>
      match DateRange(startText, endText)
      case Err(f) => Err(f)
      case Ok(all) => Ok(Plan(existing, all, Missing(all, existing)))
  }

  // ---------------------------------------------------------------------------
  // The per-date loop

  /** What happens to one date in the loop. */
  datatype Attempt =
    | Written(rows: nat)                     // fetched and uploaded
    | NotFetched(failure: Failure)           // the fetch raised
    | NotWritten(rows: nat, failure: Failure) // fetched, then the upload raised

  function AttemptOf(ds: Dataset, source: Source, bucket: Bucket, date: string): Attempt {
    match source.answer(date)
    case Err(m) => NotFetched(FetchFailed(date, m))
    case Ok(rows) =>
      var path := PartitionPath(ds.base, date);
      match bucket.uploadError(path)
      case None => Written(rows)
      case Some(m) => NotWritten(rows, UploadFailed(path, m))
  }

  /** An entry of the `errors` list. */
  datatype DateError = DateError(date: string, error: Failure)

  /** The loop's state: `processed_count`, `total_trips`, `errors` and the bucket. */
  datatype Tally = Tally(processed: nat, rows: nat, errors: seq<DateError>, objects: map<string, nat>)

  /** One iteration: the rows are added as soon as the fetch returns, before
      the upload, and a failure is recorded without leaving the loop. */
  function Step(ds: Dataset, t: Tally, date: string, a: Attempt): Tally {
    match a
    case Written(rows) =>
      Tally(t.processed + 1, t.rows + rows, t.errors, t.objects[PartitionPath(ds.base, date) := rows])
    case NotFetched(f) =>
      Tally(t.processed, t.rows, t.errors + [DateError(date, f)], t.objects)
    case NotWritten(rows, f) =>
      Tally(t.processed, t.rows + rows, t.errors + [DateError(date, f)], t.objects)
  }

  /** The state after the loop has run over `dates`, from a bucket holding `objects`. */
  function Run(ds: Dataset, source: Source, bucket: Bucket, objects: map<string, nat>, dates: seq<string>): Tally
    decreases |dates|
  {
    if dates == [] then Tally(0, 0, [], objects)
    else
      var last := dates[|dates| - 1];
      Step(ds, Run(ds, source, bucket, objects, dates[..|dates| - 1]), last, AttemptOf(ds, source, bucket, last))
  }

  /** The dates among `dates` whose partition gets written, in order. */
  function Landed(ds: Dataset, source: Source, bucket: Bucket, dates: seq<string>): (l: seq<string>)
    ensures forall d :: d in l <==> d in dates && AttemptOf(ds, source, bucket, d).Written?
    decreases |dates|
  {
    if dates == [] then []
    else
      var last := dates[|dates| - 1];
      var rest := Landed(ds, source, bucket, dates[..|dates| - 1]);
      assert forall x :: x in dates <==> x in dates[..|dates| - 1] || x == last by {
        assert dates == dates[..|dates| - 1] + [last];
      }
      if AttemptOf(ds, source, bucket, last).Written? then rest + [last] else rest
  }

  /** The dates among `dates` that fail, in order. */
  function Failed(ds: Dataset, source: Source, bucket: Bucket, dates: seq<string>): (l: seq<string>)
    ensures forall d :: d in l <==> d in dates && !AttemptOf(ds, source, bucket, d).Written?
    decreases |dates|
  {
    if dates == [] then []
    else
      var last := dates[|dates| - 1];
      var rest := Failed(ds, source, bucket, dates[..|dates| - 1]);
      assert forall x :: x in dates <==> x in dates[..|dates| - 1] || x == last by {
        assert dates == dates[..|dates| - 1] + [last];
      }
      if AttemptOf(ds, source, bucket, last).Written? then rest else rest + [last]
  }

  /** The rows the source returns for `dates`, whatever becomes of the uploads. */
  function FetchedRows(source: Source, dates: seq<string>): nat
    decreases |dates|
  {
    if dates == [] then 0
    else
      var last := dates[|dates| - 1];
      FetchedRows(source, dates[..|dates| - 1]) + (if source.answer(last).Ok? then source.answer(last).value else 0)
  }

  /** The dates of a list of error entries. */
  function DatesOf(errors: seq<DateError>): (dates: seq<string>)
    ensures |dates| == |errors|
    decreases |errors|
  {
    if errors == [] then [] else DatesOf(errors[..|errors| - 1]) + [errors[|errors| - 1].date]
  }

  // ---------------------------------------------------------------------------
  // Reports

  datatype Status = Success | PartialSuccess | Error

  /** A range run's dictionary: the no-op shortcut (`new_records` is 0), or
      the counters of the loop. `totalTrips` is present for datasets that
      count rows, `errors` only when there were errors. */
  datatype RangeReport =
    | UpToDate(start: string, end: string, existingRecords: nat)
    | Ingested(status: Status, start: string, end: string, totalDatesInRange: nat,
               existingDates: nat, newDatesProcessed: nat, totalTrips: Option<nat>,
               gcsPath: string, errors: Option<seq<DateError>>)

  /** The status of a run that had dates to process. */
  function Classify(processed: nat, errors: seq<DateError>): Status {
    if errors == [] then Success else if processed > 0 then PartialSuccess else Error
  }

  /** The dictionary a range run returns. */
  function ReportOf(ds: Dataset, bucketName: string, startText: string, endText: string,
                    plan: Plan, t: Tally): RangeReport
  {
    if plan.missing == [] then UpToDate(startText, endText, |plan.existing|)
    else
      Ingested(Classify(t.processed, t.errors), startText, endText, |plan.all|, |plan.existing|,
               t.processed, if ds.countsRows then Some(t.rows) else None,
               GlobPath(bucketName, ds.base), if t.errors == [] then None else Some(t.errors))
  }

  /** The per-date loop of a range run: every missing date is fetched once,
      in order, and written; a failure is recorded and the loop goes on. */
  method AttemptAll(ds: Dataset, bucket: Bucket, source: Source, missing: seq<string>)
    returns (processed: nat, total: nat, errors: seq<DateError>)
    modifies bucket, source
    ensures Tally(processed, total, errors, bucket.objects) == Run(ds, source, bucket, old(bucket.objects), missing)
    ensures source.requests == old(source.requests) + missing
  {
    processed, total, errors := 0, 0, [];
    for i := 0 to |missing|
      invariant Tally(processed, total, errors, bucket.objects)
             == Run(ds, source, bucket, old(bucket.objects), missing[..i])
      invariant source.requests == old(source.requests) + missing[..i]
    {
      var date := missing[i];
      assert missing[..i + 1] == missing[..i] + [date];
      var fetched := source.Fetch(date);
      if fetched.Err? {
        errors := errors + [DateError(date, fetched.error)];
      } else {
        total := total + fetched.value;
        var written := WriteDailyParquet(bucket, ds, fetched.value, date);
        if written.Err? {
          errors := errors + [DateError(date, written.error)];
        } else {
          processed := processed + 1;
        }
      }
    }
    assert missing[..|missing|] == missing;
  }

  /** What a range run returns (`r`) and leaves behind (`objects'`,
      `requests'`), started on a bucket holding `objects` and a source that
      has served `requests`: an error raised before the loop changes
      nothing; otherwise every missing date is requested once, in order. */
  predicate RangeRun(ds: Dataset, bucket: Bucket, source: Source, startText: string, endText: string, force: bool,
                     objects: map<string, nat>, requests: seq<string>,
                     r: Result<RangeReport, Failure>, objects': map<string, nat>, requests': seq<string>)
  {
    match PlanRun(ds, bucket, objects, startText, endText, force)
    case Err(f) => r == Err(f) && objects' == objects && requests' == requests
    case Ok(plan) =>
      var t := Run(ds, source, bucket, objects, plan.missing);
      r == Ok(ReportOf(ds, bucket.name, startText, endText, plan, t))
      && objects' == t.objects && requests' == requests + plan.missing
  }

  /** `process_taxi_ingestion` / `process_weather_ingestion` on given bounds. */
  method ProcessIngestion(ds: Dataset, bucket: Bucket, source: Source,
                          startText: string, endText: string, force: bool)
    returns (r: Result<RangeReport, Failure>)
    modifies bucket, source
    ensures RangeRun(ds, bucket, source, startText, endText, force, old(bucket.objects), old(source.requests),
                     r, bucket.objects, source.requests)
  {
    var existing: set<string> := {};
    if !force {
      var listed := GetExistingDates(bucket, ds);
      if listed.Err? {
        return Err(listed.error);
      }
      existing := listed.value;
    }
    var range := GetDateRange(startText, endText);
    if range.Err? {
      return Err(range.error);
    }
    var all := range.value;
    var missing := Missing(all, existing);
    if missing == [] {
      return Ok(UpToDate(startText, endText, |existing|));
    }
    var processed, total, errors := AttemptAll(ds, bucket, source, missing);
    var status := Classify(processed, errors);
    return Ok(Ingested(status, startText, endText, |all|, |existing|, processed,
                       if ds.countsRows then Some(total) else None,
                       GlobPath(bucket.name, ds.base), if errors == [] then None else Some(errors)));
  }

  // ---------------------------------------------------------------------------
  // A single date

  /** The dictionary `process_single_date` returns; `tripsCount` is present
      for datasets that count rows. */
  datatype DateReport = DateReport(targetDate: string, processed: bool, gcsUri: Option<string>, tripsCount: Option<nat>)

  /** Whether a single-date run goes on to fetch: when forced, or when the
      listing succeeds and does not hold the date. */
  predicate Fetches(ds: Dataset, bucket: Bucket, objects: map<string, nat>, target: string, force: bool) {
    force || (bucket.listingError.None? && target !in ExistingIn(ds.base, objects.Keys))
  }

  /** What `process_single_date` returns or raises, with the bucket after it. */
  function SingleDate(ds: Dataset, source: Source, bucket: Bucket, objects: map<string, nat>,
                      target: string, force: bool): (r: (Result<DateReport, Failure>, map<string, nat>))
    ensures r.0.Ok? && !r.0.value.processed
        <==> !force && bucket.listingError.None? && target in ExistingIn(ds.base, objects.Keys)
    ensures r.0.Ok? && r.0.value.processed
        <==> Fetches(ds, bucket, objects, target, force) && AttemptOf(ds, source, bucket, target).Written?
    ensures r.0.Ok? && r.0.value.processed ==>
      var path := PartitionPath(ds.base, target);
      var rows := AttemptOf(ds, source, bucket, target).rows;
      r.1 == objects[path := rows] && r.0.value.gcsUri == Some(GcsUri(bucket.name, path))
      && r.0.value.tripsCount == (if ds.countsRows then Some(rows) else None)
    ensures r.0.Err? || !r.0.value.processed ==> r.1 == objects
  {
    if !force && bucket.listingError.Some? then
      (Err(ListingFailed(bucket.listingError.value)), objects)
    else if !force && target in ExistingIn(ds.base, objects.Keys) then
      (Ok(DateReport(target, false, None, if ds.countsRows then Some(0) else None)), objects)
    else
      match AttemptOf(ds, source, bucket, target)
      case NotFetched(f) => (Err(f), objects)
      case NotWritten(_, f) => (Err(f), objects)
      case Written(rows) =>
        var path := PartitionPath(ds.base, target);
        (Ok(DateReport(target, true, Some(GcsUri(bucket.name, path)),
                       if ds.countsRows then Some(rows) else None)),
         objects[path := rows])
  }

  /** `process_single_date`: skip a date already present unless forced,
      otherwise fetch and write it once; every failure is raised. */
  method ProcessSingleDate(ds: Dataset, bucket: Bucket, source: Source, target: string, force: bool)
    returns (r: Result<DateReport, Failure>)
    modifies bucket, source
    ensures (r, bucket.objects) == SingleDate(ds, source, bucket, old(bucket.objects), target, force)
    ensures source.requests
         == old(source.requests) + (if Fetches(ds, bucket, old(bucket.objects), target, force) then [target] else [])
  {
    if !force {
      var existing := GetExistingDates(bucket, ds);
      if existing.Err? {
        return Err(existing.error);
      }
      if target in existing.value {
        return Ok(DateReport(target, false, None, if ds.countsRows then Some(0) else None));
      }
    }
    var fetched := source.Fetch(target);
    if fetched.Err? {
      return Err(fetched.error);
    }
    var uri := WriteDailyParquet(bucket, ds, fetched.value, target);
    if uri.Err? {
      return Err(uri.error);
    }
    return Ok(DateReport(target, true, Some(uri.value), if ds.countsRows then Some(fetched.value) else None));
  }

  // ---------------------------------------------------------------------------
  // Properties of the reconciliation

  /** The missing dates keep the order of the range: filtering distributes over concatenation. */
  lemma {:induction false} MissingInOrder(a: seq<string>, b: seq<string>, existing: set<string>)
    ensures Missing(a + b, existing) == Missing(a, existing) + Missing(b, existing)
    decreases |b|
  {
    if b != [] {
      var init, last := b[..|b| - 1], b[|b| - 1];
      MissingInOrder(a, init, existing);
      assert (a + b)[..|a + b| - 1] == a + init;
      assert (a + b)[|a + b| - 1] == last;
    } else {
      assert a + b == a;
    }
  }

  /** Against an empty existing set every date of the range is missing. */
  lemma {:induction false} NothingExists(all: seq<string>)
    ensures Missing(all, {}) == all
    decreases |all|
  {
    if all != [] {
      NothingExists(all[..|all| - 1]);
      assert all[..|all| - 1] + [all[|all| - 1]] == all;
    }
  }

  /** A forced run does not list the bucket, so a listing failure cannot stop
      it, and it attempts every date of the range. */
  lemma ForcedRunAttemptsAll(ds: Dataset, bucket: Bucket, objects: map<string, nat>,
                             startText: string, endText: string)
    ensures var plan := PlanRun(ds, bucket, objects, startText, endText, true);
      DateRange(startText, endText).Err? ==> plan == Err(DateRange(startText, endText).error)
    ensures var plan := PlanRun(ds, bucket, objects, startText, endText, true);
      DateRange(startText, endText).Ok? ==>
        plan == Ok(Plan({}, DateRange(startText, endText).value, DateRange(startText, endText).value))
  {
    if DateRange(startText, endText).Ok? {
      NothingExists(DateRange(startText, endText).value);
    }
  }

  /** Every date of a range is a partition key. */
  lemma RangeKeys(startText: string, endText: string)
    requires DateRange(startText, endText).Ok?
    ensures forall d :: d in DateRange(startText, endText).value ==> IsKey(d)
  {
    WalkKeys(Parse(startText).value, Parse(endText).value);
  }

  lemma WalkKeys(s: Date, e: Date)
    requires Valid(s) && Valid(e) && RangeBetween(s, e).Ok?
    ensures forall d :: d in RangeBetween(s, e).value ==> IsKey(d)
  {
    if Ordinal(s) <= Ordinal(e) {
      DaysKeys(Ordinal(s), Ordinal(e) - Ordinal(s) + 1);
    }
  }

  lemma DaysKeys(first: int, n: nat)
    ensures forall d :: d in Days(first, n) ==> IsKey(d)
  {
    forall d | d in Days(first, n)
      ensures IsKey(d)
    {
      var i :| 0 <= i < n && Days(first, n)[i] == d;
      FormattedIsKey(FromOrdinal(first + i));
    }
  }

  // ---------------------------------------------------------------------------
  // Properties of the per-date loop

  /** Accounting: every attempted date is either processed or has an error entry. */
  lemma {:induction false} RunAccounting(ds: Dataset, source: Source, bucket: Bucket,
                                         objects: map<string, nat>, dates: seq<string>)
    ensures var t := Run(ds, source, bucket, objects, dates);
      t.processed + |t.errors| == |dates|
    decreases |dates|
  {
    if dates != [] {
      RunAccounting(ds, source, bucket, objects, dates[..|dates| - 1]);
    }
  }

  lemma DatesOfSnoc(errors: seq<DateError>, e: DateError)
    ensures DatesOf(errors + [e]) == DatesOf(errors) + [e.date]
  {
    assert (errors + [e])[..|errors|] == errors;
  }

  /** The error entries are the failing dates, in the order attempted, and the
      processed count is the number of dates written. */
  lemma {:induction false} RunErrors(ds: Dataset, source: Source, bucket: Bucket,
                                     objects: map<string, nat>, dates: seq<string>)
    ensures var t := Run(ds, source, bucket, objects, dates);
      DatesOf(t.errors) == Failed(ds, source, bucket, dates)
      && t.processed == |Landed(ds, source, bucket, dates)|
    decreases |dates|
  {
    if dates != [] {
      var init, last := dates[..|dates| - 1], dates[|dates| - 1];
      RunErrors(ds, source, bucket, objects, init);
      var t := Run(ds, source, bucket, objects, init);
      match AttemptOf(ds, source, bucket, last)
      case Written(_) =>
      case NotFetched(f) => DatesOfSnoc(t.errors, DateError(last, f));
      case NotWritten(_, f) => DatesOfSnoc(t.errors, DateError(last, f));
    }
  }

  /** The row total is what the source returned, whether or not the uploads
      succeeded. */
  lemma {:induction false} RunRows(ds: Dataset, source: Source, bucket: Bucket,
                                   objects: map<string, nat>, dates: seq<string>)
    ensures Run(ds, source, bucket, objects, dates).rows == FetchedRows(source, dates)
    decreases |dates|
  {
    if dates != [] {
      RunRows(ds, source, bucket, objects, dates[..|dates| - 1]);
    }
  }

  /** The partition paths of some dates. */
  function PathsOf(base: string, dates: seq<string>): set<string> {
    set d | d in dates :: PartitionPath(base, d)
  }

  /** The loop adds exactly the partitions of the dates written and changes
      no other object. */
  lemma {:induction false} RunStore(ds: Dataset, source: Source, bucket: Bucket,
                                    objects: map<string, nat>, dates: seq<string>)
    ensures var after := Run(ds, source, bucket, objects, dates).objects;
      after.Keys == objects.Keys + PathsOf(ds.base, Landed(ds, source, bucket, dates))
      && forall p :: p in objects && p !in PathsOf(ds.base, Landed(ds, source, bucket, dates))
           ==> after[p] == objects[p]
    decreases |dates|
  {
    if dates != [] {
      var init, last := dates[..|dates| - 1], dates[|dates| - 1];
      RunStore(ds, source, bucket, objects, init);
      if AttemptOf(ds, source, bucket, last).Written? {
        var l := Landed(ds, source, bucket, init);
        assert PathsOf(ds.base, l + [last]) == PathsOf(ds.base, l) + {PartitionPath(ds.base, last)};
      }
    }
  }

  /** The dates written from a concatenation are those of each part. */
  lemma {:induction false} LandedConcat(ds: Dataset, source: Source, bucket: Bucket, a: seq<string>, b: seq<string>)
    ensures Landed(ds, source, bucket, a + b) == Landed(ds, source, bucket, a) + Landed(ds, source, bucket, b)
    decreases |b|
  {
    if b != [] {
      LandedConcat(ds, source, bucket, a, b[..|b| - 1]);
      assert (a + b)[..|a + b| - 1] == a + b[..|b| - 1];
    } else {
      assert a + b == a;
    }
  }

  /** The dates failing from a concatenation are those of each part. */
  lemma {:induction false} FailedConcat(ds: Dataset, source: Source, bucket: Bucket, a: seq<string>, b: seq<string>)
    ensures Failed(ds, source, bucket, a + b) == Failed(ds, source, bucket, a) + Failed(ds, source, bucket, b)
    decreases |b|
  {
    if b != [] {
      FailedConcat(ds, source, bucket, a, b[..|b| - 1]);
      assert (a + b)[..|a + b| - 1] == a + b[..|b| - 1];
    } else {
      assert a + b == a;
    }
  }

  /** Error isolation: a failing date does not stop the others; the dates
      written around it are the same as if it had not been there, and it is
      recorded in its place among the failures. */
  lemma FailureDoesNotStopOthers(ds: Dataset, source: Source, bucket: Bucket,
                                 before: seq<string>, date: string, after: seq<string>)
    requires !AttemptOf(ds, source, bucket, date).Written?
    ensures Landed(ds, source, bucket, before + [date] + after) == Landed(ds, source, bucket, before + after)
    ensures Failed(ds, source, bucket, before + [date] + after)
         == Failed(ds, source, bucket, before) + [date] + Failed(ds, source, bucket, after)
  {
    LandedConcat(ds, source, bucket, before + [date], after);
    LandedConcat(ds, source, bucket, before, [date]);
    LandedConcat(ds, source, bucket, before, after);
    FailedConcat(ds, source, bucket, before + [date], after);
    FailedConcat(ds, source, bucket, before, [date]);
    assert [date][..0] == [];
  }

  /** The report of a run with dates to process: its counters, its errors
      key and its status. */
  lemma ReportMeaning(ds: Dataset, source: Source, bucket: Bucket, objects: map<string, nat>,
                      bucketName: string, startText: string, endText: string, plan: Plan)
    requires plan.missing != []
    ensures var t := Run(ds, source, bucket, objects, plan.missing);
      var rep := ReportOf(ds, bucketName, startText, endText, plan, t);
      var landed := Landed(ds, source, bucket, plan.missing);
      var failed := Failed(ds, source, bucket, plan.missing);
      rep.Ingested?
      && rep.totalDatesInRange == |plan.all| && rep.existingDates == |plan.existing|
      && rep.newDatesProcessed == |landed|
      && rep.newDatesProcessed + |failed| == |plan.missing|
      && (rep.errors.Some? <==> failed != [])
      && (rep.errors.Some? ==> DatesOf(rep.errors.value) == failed)
      && rep.totalTrips == (if ds.countsRows then Some(FetchedRows(source, plan.missing)) else None)
      && (rep.status == Success <==> failed == [])
      && (rep.status == PartialSuccess <==> landed != [] && failed != [])
      && (rep.status == Error <==> landed == [])
  {
    RunErrors(ds, source, bucket, objects, plan.missing);
    RunAccounting(ds, source, bucket, objects, plan.missing);
    RunRows(ds, source, bucket, objects, plan.missing);
  }

  // ---------------------------------------------------------------------------
  // Idempotency

  /** Filtering the range against the old existing set plus the dates just
      written leaves the dates that failed. */
  lemma {:induction false} MissingAfterWrites(ds: Dataset, source: Source, bucket: Bucket,
                                              all: seq<string>, existing: set<string>, written: set<string>)
    requires forall d :: d in all && d !in existing ==> (d in written <==> AttemptOf(ds, source, bucket, d).Written?)
    ensures Missing(all, existing + written) == Failed(ds, source, bucket, Missing(all, existing))
    decreases |all|
  {
    if all != [] {
      var init, last := all[..|all| - 1], all[|all| - 1];
      MissingAfterWrites(ds, source, bucket, init, existing, written);
      var m := Missing(init, existing);
      if last !in existing {
        assert (m + [last])[..|m|] == m;
      }
    }
  }

  /** A second incremental run over the same range, against the bucket the
      first one left, attempts exactly the dates that failed the first time,
      in order: nothing written is fetched again. */
  lemma SecondRunRetriesOnlyFailures(ds: Dataset, source: Source, bucket: Bucket, objects: map<string, nat>,
                                     startText: string, endText: string)
    requires IsBase(ds.base)
    requires PlanRun(ds, bucket, objects, startText, endText, false).Ok?
    ensures var first := PlanRun(ds, bucket, objects, startText, endText, false).value;
      var after := Run(ds, source, bucket, objects, first.missing).objects;
      var second := PlanRun(ds, bucket, after, startText, endText, false);
      second.Ok? && second.value.all == first.all
      && second.value.missing == Failed(ds, source, bucket, first.missing)
  {
    var first := PlanRun(ds, bucket, objects, startText, endText, false).value;
    RangeKeys(startText, endText);
    RetryOnlyFailures(ds, source, bucket, objects, first.all);
  }

  /** The existing set after the loop has run over the missing dates of
      `all` holds the old dates and the dates written, so filtering `all`
      against it leaves the dates that failed. */
  lemma RetryOnlyFailures(ds: Dataset, source: Source, bucket: Bucket, objects: map<string, nat>, all: seq<string>)
    requires IsBase(ds.base)
    requires forall d :: d in all ==> IsKey(d)
    ensures var existing := ExistingIn(ds.base, objects.Keys);
      var missing := Missing(all, existing);
      var after := Run(ds, source, bucket, objects, missing).objects;
      Missing(all, ExistingIn(ds.base, after.Keys)) == Failed(ds, source, bucket, missing)
  {
    var existing := ExistingIn(ds.base, objects.Keys);
    var missing := Missing(all, existing);
    var landed := Landed(ds, source, bucket, missing);
    var written := set d | d in landed;
    RunStore(ds, source, bucket, objects, missing);
    assert PathsOf(ds.base, landed) == set d | d in written :: PartitionPath(ds.base, d);
    ExistingAfterWrites(ds.base, objects.Keys, written);
    MissingAfterWrites(ds, source, bucket, all, existing, written);
  }

  /** After a run without errors, the next incremental run finds nothing missing. */
  lemma CompleteRunIsFinal(ds: Dataset, source: Source, bucket: Bucket, objects: map<string, nat>,
                           startText: string, endText: string)
    requires IsBase(ds.base)
    requires PlanRun(ds, bucket, objects, startText, endText, false).Ok?
    requires Run(ds, source, bucket, objects, PlanRun(ds, bucket, objects, startText, endText, false).value.missing).errors == []
    ensures var first := PlanRun(ds, bucket, objects, startText, endText, false).value;
      var after := Run(ds, source, bucket, objects, first.missing).objects;
      PlanRun(ds, bucket, after, startText, endText, false).Ok?
      && PlanRun(ds, bucket, after, startText, endText, false).value.missing == []
  {
    var first := PlanRun(ds, bucket, objects, startText, endText, false).value;
    SecondRunRetriesOnlyFailures(ds, source, bucket, objects, startText, endText);
    RunErrors(ds, source, bucket, objects, first.missing);
  }

  /** A single date that one run processed or found present is skipped by the
      next unforced run, without a fetch, whatever the source would answer. */
  lemma SingleDateIdempotent(ds: Dataset, source: Source, bucket: Bucket, objects: map<string, nat>,
                             target: string, force: bool, again: Source)
    requires IsBase(ds.base) && IsKey(target) && bucket.listingError.None?
    requires SingleDate(ds, source, bucket, objects, target, force).0.Ok?
    ensures var after := SingleDate(ds, source, bucket, objects, target, force).1;
      !Fetches(ds, bucket, after, target, false)
      && SingleDate(ds, again, bucket, after, target, false)
         == (Ok(DateReport(target, false, None, if ds.countsRows then Some(0) else None)), after)
  {
    var after := SingleDate(ds, source, bucket, objects, target, force).1;
    if SingleDate(ds, source, bucket, objects, target, force).0.value.processed {
      var path := PartitionPath(ds.base, target);
      assert after.Keys == objects.Keys + {path};
      assert (set d | d in {target} :: PartitionPath(ds.base, d)) == {path};
      ExistingAfterWrites(ds.base, objects.Keys, {target});
    }
  }

  /** Partial failure over three dates: when only the middle one fails, the
      other two are written, the run is a partial success and the error list
      names the middle date alone. */
  lemma MiddleDateFails(ds: Dataset, source: Source, bucket: Bucket, objects: map<string, nat>,
                        bucketName: string, startText: string, endText: string,
                        d1: string, d2: string, d3: string)
    requires AttemptOf(ds, source, bucket, d1).Written? && AttemptOf(ds, source, bucket, d3).Written?
    requires !AttemptOf(ds, source, bucket, d2).Written?
    ensures var dates := [d1, d2, d3];
      var rep := ReportOf(ds, bucketName, startText, endText, Plan({}, dates, dates),
                          Run(ds, source, bucket, objects, dates));
      rep.Ingested? && rep.status == PartialSuccess && rep.newDatesProcessed == 2
      && rep.errors == Some([DateError(d2, AttemptOf(ds, source, bucket, d2).failure)])
    ensures Run(ds, source, bucket, objects, [d1, d2, d3]).objects
         == objects[PartitionPath(ds.base, d1) := AttemptOf(ds, source, bucket, d1).rows]
                   [PartitionPath(ds.base, d3) := AttemptOf(ds, source, bucket, d3).rows]
    ensures PartitionPath(ds.base, d2) !in objects && d2 != d1 && d2 != d3 ==>
      PartitionPath(ds.base, d2) !in Run(ds, source, bucket, objects, [d1, d2, d3]).objects
  {
    var dates := [d1, d2, d3];
    assert dates[..2] == [d1, d2] && [d1, d2][..1] == [d1] && [d1][..0] == [];
    var t0 := Run(ds, source, bucket, objects, []);
    assert t0 == Tally(0, 0, [], objects);
    var t1 := Run(ds, source, bucket, objects, [d1]);
    assert t1 == Step(ds, t0, d1, AttemptOf(ds, source, bucket, d1));
    assert t1.processed == 1 && t1.errors == [];
    var t2 := Run(ds, source, bucket, objects, [d1, d2]);
    assert t2 == Step(ds, t1, d2, AttemptOf(ds, source, bucket, d2));
    assert t2.processed == 1 && t2.errors == [DateError(d2, AttemptOf(ds, source, bucket, d2).failure)];
    var t3 := Run(ds, source, bucket, objects, dates);
    assert t3 == Step(ds, t2, d3, AttemptOf(ds, source, bucket, d3));
    assert t3.processed == 2 && t3.errors == t2.errors;
    if d2 != d1 && d2 != d3 {
      PathInjective(ds.base, d2, d1);
      PathInjective(ds.base, d2, d3);
    }
  }
}
