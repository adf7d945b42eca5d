/** The Hive-style partition layout of a dataset in the bucket: one object
    `<base>/date=<key>/data.parquet` per day, and the reading of partition keys
    back out of object names. */
module Partitions {
  import opened Results
  import opened Text
  import opened Calendar
  import opened DateText

  const DateKey := "date="
  const FileName := "data.parquet"
  const Scheme := "gs://"

  /** The object path `write_daily_parquet` uploads the partition of `date` to. */
  function PartitionPath(base: string, date: string): string {
    base + "/" + DateKey + date + "/" + FileName
  }

  /** The URI `write_daily_parquet` returns for an uploaded object. */
  function GcsUri(bucket: string, path: string): string {
    Scheme + bucket + "/" + path
  }

  /** The listing prefix of a dataset: every partition path starts with it. */
  function ListPrefix(base: string): string {
    base + "/" + DateKey
  }

  /** The `gcs_path` a range run reports: a glob over all partitions. */
  function GlobPath(bucket: string, base: string): string {
    Scheme + bucket + "/" + base + "/" + DateKey + "*/"
  }

  /** Text the layout can carry as a partition key: it stays inside one path
      segment and its `date=` marker is the only one in that segment. */
  predicate IsKey(date: string) {
    '/' !in date && !Occurs(DateKey, date)
  }

  /** A base path of one segment that is not itself taken for a partition key. */
  predicate IsBase(base: string) {
    '/' !in base && !StartsWith(base, DateKey)
  }

  /** The key the first segment marked `date=` carries, with every `date=`
      removed from it; None when no segment is marked. */
  function KeyOfSegments(parts: seq<string>): Option<string> {
    if parts == [] then None
    else if StartsWith(parts[0], DateKey) then Some(RemoveAll(parts[0], DateKey))
    else KeyOfSegments(parts[1..])
  }

  /** The partition key one object name contributes, if any. */
  function KeyOfName(name: string): Option<string> {
    KeyOfSegments(Split(name, '/'))
  }

  /** The names among `keys` that a prefix listing returns. */
  function Listing(keys: set<string>, prefix: string): set<string> {
    set p | p in keys && StartsWith(p, prefix)
  }

  /** The set of keys a collection of object names carries. */
  function KeysOf(names: set<string>): set<string> {
    set n | n in names && KeyOfName(n).Some? :: KeyOfName(n).value
  }

  /** The dates a dataset already has in a bucket holding objects `keys`. */
  function ExistingIn(base: string, keys: set<string>): set<string> {
    KeysOf(Listing(keys, ListPrefix(base)))
  }

  /** Splits `gs://<bucket>/<path>` into its bucket and its object path. */
  function ObjectOf(uri: string): Option<(string, string)> {
    if !StartsWith(uri, Scheme) then None
    else
      var rest := uri[|Scheme|..];
      var parts := Split(rest, '/');
      if |parts| < 2 then None else Some((parts[0], rest[|parts[0]| + 1..]))
  }

  /** The extraction loop of `get_existing_dates`: each listed name contributes
      at most one key, and the result is a set. */
  method ExistingDates(names: set<string>) returns (dates: set<string>)
    ensures dates == KeysOf(names)
  {
    dates := {};
    var remaining := names;
    while remaining != {}
      invariant remaining <= names
      invariant dates == KeysOf(names - remaining)
      decreases remaining
    {
      var name :| name in remaining;
      ghost var before := dates;
      var parts := Split(name, '/');
      var j := 0;
      while j < |parts|
        invariant 0 <= j <= |parts|
        invariant dates == before
        invariant KeyOfSegments(parts[j..]) == KeyOfName(name)
      {
        if StartsWith(parts[j], DateKey) {
          dates := dates + {RemoveAll(parts[j], DateKey)};
          break;
        }
        assert parts[j..][1..] == parts[j + 1..];
        j := j + 1;
      }
      assert dates == before + (if KeyOfName(name).Some? then {KeyOfName(name).value} else {});
      KeysOfInsert(names - remaining, name);
      assert names - (remaining - {name}) == (names - remaining) + {name};
      remaining := remaining - {name};
    }
  }

  // ---------------------------------------------------------------------------

  lemma KeysOfInsert(names: set<string>, name: string)
    ensures KeysOf(names + {name})
         == KeysOf(names) + (if KeyOfName(name).Some? then {KeyOfName(name).value} else {})
  {
  }

  /** The key of a name is that of its first `date=` segment, when one is marked. */
  lemma {:induction false} KeyOfFirstMarked(parts: seq<string>, i: int)
    requires 0 <= i < |parts| && StartsWith(parts[i], DateKey)
    requires forall k :: 0 <= k < i ==> !StartsWith(parts[k], DateKey)
    ensures KeyOfSegments(parts) == Some(RemoveAll(parts[i], DateKey))
    decreases i
  {
    if i > 0 {
      KeyOfFirstMarked(parts[1..], i - 1);
    }
  }

  /** A name contributes no key exactly when none of its segments is marked. */
  lemma {:induction false} KeyOfUnmarked(parts: seq<string>)
    ensures KeyOfSegments(parts).None? <==> forall k :: 0 <= k < |parts| ==> !StartsWith(parts[k], DateKey)
    decreases |parts|
  {
    if parts != [] {
      KeyOfUnmarked(parts[1..]);
      if !StartsWith(parts[0], DateKey) {
        assert forall k :: 1 <= k < |parts| ==> parts[k] == parts[1..][k - 1];
      }
    }
  }

  /** Path and key round-trip: the partition written for `date` lies under the
      dataset's listing prefix and reads back as exactly `date`. */
  lemma PathRoundTrip(base: string, date: string)
    requires IsBase(base) && IsKey(date)
    ensures StartsWith(PartitionPath(base, date), ListPrefix(base))
    ensures KeyOfName(PartitionPath(base, date)) == Some(date)
  {
    var path := PartitionPath(base, date);
    assert path[..|ListPrefix(base)|] == ListPrefix(base);
    var parts := [base, DateKey + date, FileName];
    assert Join(parts[1..], '/') == DateKey + date + "/" + FileName by {
      assert parts[1..][1..] == [FileName];
    }
    assert path == Join(parts, '/');
    assert '/' !in DateKey + date && '/' !in FileName;
    SplitJoin(parts, '/');
    assert (DateKey + date)[..|DateKey|] == DateKey;
    KeyOfFirstMarked(parts, 1);
    RemoveAllLeading(DateKey, date);
    RemoveAllAbsent(date, DateKey);
  }

  /** Different dates of one dataset are written to different paths. */
  lemma PathInjective(base: string, date: string, other: string)
    requires date != other
    ensures PartitionPath(base, date) != PartitionPath(base, other)
  {
    var n := |base| + 1 + |DateKey|;
    var p, q := PartitionPath(base, date), PartitionPath(base, other);
    assert |p| == n + |date| + 1 + |FileName| && |q| == n + |other| + 1 + |FileName|;
    assert p[n..n + |date|] == date && q[n..n + |other|] == other;
  }

  /** Formatted dates are keys: digits and hyphens only. */
  lemma FormattedIsKey(d: Date)
    requires Valid(d)
    ensures IsKey(Format(d))
  {
    FormatCharacters(d);
    AbsentFirstCharacter(DateKey, Format(d));
  }

  /** The URI names the bucket and the object path it was built from. */
  lemma UriRoundTrip(bucket: string, path: string)
    requires '/' !in bucket
    ensures ObjectOf(GcsUri(bucket, path)) == Some((bucket, path))
  {
    var uri := GcsUri(bucket, path);
    assert uri[..|Scheme|] == Scheme;
    var rest := uri[|Scheme|..];
    assert rest == bucket + ['/'] + path;
    SplitPrefix(bucket, '/', path);
    assert rest[|bucket| + 1..] == path;
  }

  /** Namespaces do not see each other: a partition path is listed under a
      single-segment base exactly when it was written under that base. */
  lemma ListedUnderOwnBase(base: string, other: string, date: string)
    requires '/' !in base && '/' !in other
    ensures StartsWith(PartitionPath(other, date), ListPrefix(base)) <==> base == other
  {
    var path := PartitionPath(other, date);
    if StartsWith(path, ListPrefix(base)) {
      var rest := path[|base| + 1..];
      assert path == base + ['/'] + rest by {
        assert path[..|base| + 1] == base + ['/'];
      }
      assert path == other + ['/'] + (DateKey + date + "/" + FileName);
      FirstSegment(base, rest, other, DateKey + date + "/" + FileName);
    }
    if base == other {
      assert path[..|ListPrefix(base)|] == ListPrefix(base);
    }
  }

  /** Two paths that are equal have the same first segment. */
  lemma FirstSegment(a: string, x: string, b: string, y: string)
    requires '/' !in a && '/' !in b && a + ['/'] + x == b + ['/'] + y
    ensures a == b
  {
    SplitPrefix(a, '/', x);
    SplitPrefix(b, '/', y);
  }

  /** Writing the partitions of keys `written` adds exactly those keys to the
      dataset's existing set. */
  lemma ExistingAfterWrites(base: string, keys: set<string>, written: set<string>)
    requires IsBase(base)
    requires forall d :: d in written ==> IsKey(d)
    ensures ExistingIn(base, keys + set d | d in written :: PartitionPath(base, d))
         == ExistingIn(base, keys) + written
  {
    var paths := set d | d in written :: PartitionPath(base, d);
    var prefix := ListPrefix(base);
    assert Listing(keys + paths, prefix) == Listing(keys, prefix) + paths by {
      forall d | d in written ensures StartsWith(PartitionPath(base, d), prefix) {
        PathRoundTrip(base, d);
      }
    }
    forall d | d in written ensures d in ExistingIn(base, keys + paths) {
      PathRoundTrip(base, d);
      assert PartitionPath(base, d) in Listing(keys + paths, prefix);
    }
    forall x | x in ExistingIn(base, keys + paths)
      ensures x in ExistingIn(base, keys) + written
    {
      var n :| n in Listing(keys + paths, prefix) && KeyOfName(n) == Some(x);
      if n !in Listing(keys, prefix) {
        var d :| d in written && n == PartitionPath(base, d);
        PathRoundTrip(base, d);
      }
    }
  }

  /** Writing a partition of another dataset leaves this dataset's existing set alone. */
  lemma ExistingIgnoresOtherBases(base: string, other: string, keys: set<string>, date: string)
    requires '/' !in base && '/' !in other && base != other
    ensures ExistingIn(base, keys + {PartitionPath(other, date)}) == ExistingIn(base, keys)
  {
    ListedUnderOwnBase(base, other, date);
    assert Listing(keys + {PartitionPath(other, date)}, ListPrefix(base)) == Listing(keys, ListPrefix(base));
  }
}
