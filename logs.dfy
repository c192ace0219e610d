/**
 * The persisted daily records (`LogData`) and `LogHistory`, which rebuilds an ordered
 * history from the per-day log files and derives read-views from it.
 */
module Logs {
  import opened Basics
  import opened ErrorCounts
  import opened JsonObject
  import opened LogNames

  datatype LogOverview = LogOverview(totalRequests: int, totalErrors: int, errorPercentage: real)

  /** A `[min, max]` pair as written to disk; either end may be `null`. */
  datatype MinMax = MinMax(min: Option<real>, max: Option<real>)

  datatype LogTimings = LogTimings(
    averageTotalTime: real, minMaxTotalTime: Option<MinMax>,
    averageHandleTime: real, minMaxHandleTime: Option<MinMax>,
    averageProcessTime: real, minMaxProcessTime: Option<MinMax>)

  /** A daily record; the engine's own records carry no error map. */
  datatype LogData = LogData(overview: LogOverview, timings: LogTimings, errorMap: Option<ErrorMap>)

  /** One label of a log file: timestamp-range key to a record, or `null` for no traffic. */
  type Section = Obj<Option<LogData>>

  /** A parsed log file: label (`hourly`, `overview`) to section. */
  type Document = Obj<Section>

  /** The all-zero record that stands for a `null` entry. */
  function EmptyLogData(): LogData {
    LogData(LogOverview(0, 0, 0.0), LogTimings(0.0, None, 0.0, None, 0.0, None), Some(map[]))
  }

  /**
   * `if (!data[group]) data[group] = {}; data[group][key] = entry`: the entry is stored
   * under its key, the rest of the document is kept, and a missing group is appended.
   */
  function WriteEntry(data: Document, group: string, key: string, entry: Option<LogData>): (r: Document)
    ensures Lookup(r, group).Some? && Lookup(Lookup(r, group).value, key) == Some(entry)
    ensures forall g :: g != group ==> Lookup(r, g) == Lookup(data, g)
    ensures forall k :: k != key ==>
      Lookup(Lookup(r, group).value, k) == Lookup(Lookup(data, group).OrElse([]), k)
    ensures Keys(r) == if group in Keys(data) then Keys(data) else Keys(data) + [group]
    ensures UniqueKeys(data) && UniqueKeys(Lookup(data, group).OrElse([])) ==>
      UniqueKeys(r) && UniqueKeys(Lookup(r, group).value)
  {
    var section := Lookup(data, group).OrElse([]);
    PutLookup(section, key, entry);
    PutLookup(data, group, Put(section, key, entry));
    PutKeys(data, group, Put(section, key, entry));
    PutUnique(section, key, entry);
    PutUnique(data, group, Put(section, key, entry));
    Put(data, group, Put(section, key, entry))
  }

  // ---------------------------------------------------------------- the history

  /** `date.getDay()`: 0 is Sunday. */
  type Weekday = d: nat | d < 7

  function WeekdayNames(): seq<string> {
    ["Sunday", "Monday", "Tuesday", "Wednesday", "Thursday", "Friday", "Saturday"]
  }

  function WeekdayName(d: Weekday): string {
    WeekdayNames()[d]
  }

  lemma WeekdayNamesDistinct(d1: Weekday, d2: Weekday)
    ensures WeekdayName(d1) == WeekdayName(d2) <==> d1 == d2
  {
    if d1 != d2 {
      var a, b := WeekdayName(d1), WeekdayName(d2);
      assert a[0] != b[0] || a[1] != b[1];
    }
  }

  /**
   * A `Date` object. The calendar is not modelled: the weekday comes with the file; what
   * matters is that `requestsPerDay` compares dates by identity.
   */
  class DateObj {
    /** The text given to `new Date`. */
    const text: string
    const weekday: Weekday

    constructor(text: string, weekday: Weekday)
      ensures this.text == text && this.weekday == weekday
    {
      this.text := text;
      this.weekday := weekday;
    }
  }

  /**
   * A directory entry: its name, the weekday its date falls on, and the parsed content
   * (`None` when `JSON.parse` throws).
   */
  datatype DirEntry = DirEntry(name: string, weekday: Weekday, content: Option<Document>)

  datatype HistoryEntry = HistoryEntry(date: DateObj, data: LogData)

  /** A record `generate` reads, with the index of the file it comes from. */
  datatype Origin = Origin(file: nat, data: LogData)

  /** The records of an `overview` section in key order, `null` read as the all-zero record. */
  function SectionRecords(section: Section): (ds: seq<LogData>)
    ensures |ds| == |section|
    ensures forall k :: 0 <= k < |section| && section[k].1.None? ==> ds[k] == EmptyLogData()
    ensures forall k :: 0 <= k < |section| && section[k].1.Some? ==> ds[k] == section[k].1.value
  {
    seq(|section|, k requires 0 <= k < |section| => section[k].1.OrElse(EmptyLogData()))
  }

  /** What one file contributes: nothing unless it is `.json`, parses, and has an `overview`. */
  function FileRecords(f: DirEntry): seq<LogData> {
    if !Contains(f.name, ".json") || f.content.None? then []
    else
      match Lookup(f.content.value, "overview")
      case None => []
      case Some(section) => SectionRecords(section)
  }

  function Tagged(i: nat, ds: seq<LogData>): (os: seq<Origin>)
    ensures |os| == |ds|
    ensures forall k :: 0 <= k < |ds| ==> os[k] == Origin(i, ds[k])
  {
    seq(|ds|, k requires 0 <= k < |ds| => Origin(i, ds[k]))
  }

  /** The records `generate` reads from `files`, in order. */
  function Generated(files: seq<DirEntry>): (os: seq<Origin>)
    ensures forall k :: 0 <= k < |os| ==> os[k].file < |files|
  {
    if |files| == 0 then []
    else Generated(Init(files)) + Tagged(|files| - 1, FileRecords(Last(files)))
  }

  function Dated(date: DateObj, ds: seq<LogData>): (es: seq<HistoryEntry>)
    ensures |es| == |ds|
    ensures forall k :: 0 <= k < |ds| ==> es[k] == HistoryEntry(date, ds[k])
  {
    seq(|ds|, k requires 0 <= k < |ds| => HistoryEntry(date, ds[k]))
  }

  lemma GeneratedStep(files: seq<DirEntry>, i: nat)
    requires i < |files|
    ensures Generated(files[..i + 1]) == Generated(files[..i]) + Tagged(i, FileRecords(files[i]))
  {
    assert Init(files[..i + 1]) == files[..i];
  }

  /** The `Date` objects of the files: one per `.json` file, with that file's date. */
  ghost predicate DatesOf(files: seq<DirEntry>, dates: map<nat, DateObj>, i: nat) {
    forall a :: a in dates ==>
      a < i && a < |files| && dates[a].text == DateText(files[a].name) && dates[a].weekday == files[a].weekday
  }

  /** No two files share a `Date` object. */
  ghost predicate Distinct(dates: map<nat, DateObj>) {
    forall a, b :: a in dates && b in dates && a != b ==> dates[a] != dates[b]
  }

  lemma DatesExtend(files: seq<DirEntry>, dates: map<nat, DateObj>, i: nat, date: DateObj)
    requires DatesOf(files, dates, i) && Distinct(dates) && i < |files|
    requires date.text == DateText(files[i].name) && date.weekday == files[i].weekday
    requires forall a :: a in dates ==> dates[a] != date
    ensures DatesOf(files, dates[i := date], i + 1) && Distinct(dates[i := date])
  {
  }

  /** From position `n0` on, `h` holds the records `g` under the `Date` of their file. */
  ghost predicate Stamped(h: seq<HistoryEntry>, n0: nat, g: seq<Origin>, dates: map<nat, DateObj>) {
    && |h| == n0 + |g|
    && forall k :: 0 <= k < |g| ==>
      g[k].file in dates && h[n0 + k] == HistoryEntry(dates[g[k].file], g[k].data)
  }

  lemma StampedExtend(h: seq<HistoryEntry>, n0: nat, g: seq<Origin>, dates: map<nat, DateObj>,
                      i: nat, date: DateObj, ds: seq<LogData>)
    requires Stamped(h, n0, g, dates) && i !in dates
    ensures Stamped(h + Dated(date, ds), n0, g + Tagged(i, ds), dates[i := date])
  {
    var h', g' := h + Dated(date, ds), g + Tagged(i, ds);
    forall k | 0 <= k < |g'|
      ensures g'[k].file in dates[i := date]
      ensures h'[n0 + k] == HistoryEntry(dates[i := date][g'[k].file], g'[k].data)
    {
      if k >= |g| {
        assert g'[k] == Origin(i, ds[k - |g|]);
        assert h'[n0 + k] == HistoryEntry(date, ds[k - |g|]);
      } else {
        assert g'[k] == g[k] && h'[n0 + k] == h[n0 + k];
      }
    }
  }

  // ---------------------------------------------------------------- grouping by weekday

  function WeekdayOf(e: HistoryEntry): Weekday {
    e.date.weekday
  }

  /** The records of the entries falling on weekday `d`, in history order. */
  function Bucket(h: seq<HistoryEntry>, d: Weekday): seq<LogData> {
    if |h| == 0 then []
    else Bucket(Init(h), d) + (if WeekdayOf(Last(h)) == d then [Last(h).data] else [])
  }

  /** The weekdays of the history in the order each first appears. */
  function FirstSeen(h: seq<HistoryEntry>): seq<Weekday> {
    if |h| == 0 then []
    else if WeekdayOf(Last(h)) in FirstSeen(Init(h)) then FirstSeen(Init(h))
    else FirstSeen(Init(h)) + [WeekdayOf(Last(h))]
  }

  function Names(ws: seq<Weekday>): (ns: seq<string>)
    ensures |ns| == |ws|
    ensures forall i :: 0 <= i < |ws| ==> ns[i] == WeekdayName(ws[i])
  {
    seq(|ws|, i requires 0 <= i < |ws| => WeekdayName(ws[i]))
  }

  /**
   * The object `mapByWeekday` builds: for each entry, `if (!map[name]) map[name] = []`
   * and then the record pushed onto `map[name]`.
   */
  function ByWeekday(h: seq<HistoryEntry>): Obj<seq<LogData>> {
    if |h| == 0 then []
    else
      var m := ByWeekday(Init(h));
      var name := WeekdayName(WeekdayOf(Last(h)));
      Put(m, name, Lookup(m, name).OrElse([]) + [Last(h).data])
  }

  /** Under each weekday's name is exactly that weekday's bucket, and nothing when it is empty. */
  lemma {:induction false} ByWeekdayLookup(h: seq<HistoryEntry>, d: Weekday)
    ensures Lookup(ByWeekday(h), WeekdayName(d)) ==
      if |Bucket(h, d)| > 0 then Some(Bucket(h, d)) else None
  {
    if |h| > 0 {
      ByWeekdayLookup(Init(h), d);
      var m := ByWeekday(Init(h));
      var e := WeekdayOf(Last(h));
      var v := Lookup(m, WeekdayName(e)).OrElse([]) + [Last(h).data];
      assert ByWeekday(h) == Put(m, WeekdayName(e), v);
      PutLookup(m, WeekdayName(e), v);
      if e == d {
        assert Bucket(h, d) == Bucket(Init(h), d) + [Last(h).data];
      } else {
        WeekdayNamesDistinct(d, e);
        assert Bucket(h, d) == Bucket(Init(h), d);
      }
    }
  }

  /** A weekday has been seen exactly when its bucket is non-empty. */
  lemma {:induction false} FirstSeenBuckets(h: seq<HistoryEntry>, d: Weekday)
    ensures d in FirstSeen(h) <==> |Bucket(h, d)| > 0
  {
    if |h| > 0 {
      FirstSeenBuckets(Init(h), d);
    }
  }

  lemma NamesIn(ws: seq<Weekday>, d: Weekday)
    ensures WeekdayName(d) in Names(ws) <==> d in ws
  {
    if WeekdayName(d) in Names(ws) {
      var i :| 0 <= i < |ws| && Names(ws)[i] == WeekdayName(d);
      WeekdayNamesDistinct(d, ws[i]);
    }
  }

  /**
   * The keys of `mapByWeekday` are the weekday names in the order the weekdays first
   * appear in the history, each once.
   */
  lemma {:induction false} ByWeekdayKeys(h: seq<HistoryEntry>)
    ensures Keys(ByWeekday(h)) == Names(FirstSeen(h))
    ensures UniqueKeys(ByWeekday(h))
  {
    if |h| > 0 {
      ByWeekdayKeys(Init(h));
      var ws := FirstSeen(Init(h));
      var d := WeekdayOf(Last(h));
      NamesIn(ws, d);
      assert Names(ws + [d]) == Names(ws) + [WeekdayName(d)];
      var m := ByWeekday(Init(h));
      var v := Lookup(m, WeekdayName(d)).OrElse([]) + [Last(h).data];
      PutKeys(m, WeekdayName(d), v);
      PutUnique(m, WeekdayName(d), v);
    }
  }

  /** Summed over the seven weekdays, the buckets hold every entry once. */
  function BucketSizes(h: seq<HistoryEntry>): nat {
    |Bucket(h, 0)| + |Bucket(h, 1)| + |Bucket(h, 2)| + |Bucket(h, 3)|
      + |Bucket(h, 4)| + |Bucket(h, 5)| + |Bucket(h, 6)|
  }

  lemma {:induction false} BucketsPartition(h: seq<HistoryEntry>)
    ensures BucketSizes(h) == |h|
  {
    if |h| > 0 {
      BucketsPartition(Init(h));
    }
  }

  // ---------------------------------------------------------------- requests per weekday

  function RequestCounts(ds: seq<LogData>): (xs: seq<real>)
    ensures |xs| == |ds|
    ensures forall j :: 0 <= j < |ds| ==> xs[j] == ds[j].overview.totalRequests as real
  {
    seq(|ds|, j requires 0 <= j < |ds| => ds[j].overview.totalRequests as real)
  }

  predicate NonEmptyLists(m: Obj<seq<LogData>>) {
    forall i :: 0 <= i < |m| ==> |m[i].1| > 0
  }

  /** Each list of the object replaced by the mean of its requests. */
  function MeanRequests(m: Obj<seq<LogData>>): (r: Obj<real>)
    requires NonEmptyLists(m)
    ensures Keys(r) == Keys(m)
  {
    seq(|m|, i requires 0 <= i < |m| => (m[i].0, Mean(RequestCounts(m[i].1))))
  }

  lemma {:induction false} MeanRequestsLookup(m: Obj<seq<LogData>>, k: string)
    requires NonEmptyLists(m)
    ensures Lookup(m, k).Some? ==> |Lookup(m, k).value| > 0
    ensures Lookup(MeanRequests(m), k) ==
      if Lookup(m, k).Some? then Some(Mean(RequestCounts(Lookup(m, k).value))) else None
  {
    if |m| > 0 {
      assert NonEmptyLists(m[1..]) by {
        forall i | 0 <= i < |m[1..]|
          ensures |m[1..][i].1| > 0
        {
          assert m[1..][i] == m[i + 1];
        }
      }
      assert MeanRequests(m)[1..] == MeanRequests(m[1..]);
      MeanRequestsLookup(m[1..], k);
    }
  }

  /** The loop step of `requestsPerWeekday`: a new key, whose mean is appended. */
  lemma MeanRequestsStep(m: Obj<seq<LogData>>, i: nat)
    requires NonEmptyLists(m) && UniqueKeys(m) && i < |m|
    ensures NonEmptyLists(m[..i]) && NonEmptyLists(m[..i + 1])
    ensures m[i].0 !in Keys(MeanRequests(m[..i]))
    ensures MeanRequests(m[..i + 1]) == MeanRequests(m[..i]) + [(m[i].0, Mean(RequestCounts(m[i].1)))]
  {
    assert NonEmptyLists(m[..i]) && NonEmptyLists(m[..i + 1]) by {
      forall j | 0 <= j < i + 1
        ensures m[..i + 1][j] == m[j]
      {
      }
    }
    assert Keys(MeanRequests(m[..i])) == Keys(m[..i]);
    forall j | 0 <= j < i
      ensures Keys(m[..i])[j] != m[i].0
    {
      assert Keys(m[..i])[j] == m[j].0;
    }
  }

  /** Every list `mapByWeekday` produces holds at least one record. */
  lemma ByWeekdayNonEmpty(h: seq<HistoryEntry>)
    ensures NonEmptyLists(ByWeekday(h))
  {
    var m := ByWeekday(h);
    ByWeekdayKeys(h);
    forall i | 0 <= i < |m|
      ensures |m[i].1| > 0
    {
      var d := FirstSeen(h)[i];
      assert m[i].0 == WeekdayName(d);
      LookupAt(m, i);
      ByWeekdayLookup(h, d);
    }
  }

  /**
   * `requestsPerWeekday`: under each weekday on which there are entries, the mean of their
   * `totalRequests`; no other keys, in the order the weekdays first appear.
   */
  lemma RequestsPerWeekdayMeans(h: seq<HistoryEntry>, d: Weekday)
    ensures NonEmptyLists(ByWeekday(h))
    ensures Keys(MeanRequests(ByWeekday(h))) == Names(FirstSeen(h))
    ensures Lookup(MeanRequests(ByWeekday(h)), WeekdayName(d)) ==
      if |Bucket(h, d)| > 0 then Some(Mean(RequestCounts(Bucket(h, d)))) else None
  {
    ByWeekdayNonEmpty(h);
    ByWeekdayKeys(h);
    ByWeekdayLookup(h, d);
    MeanRequestsLookup(ByWeekday(h), WeekdayName(d));
  }

  // ---------------------------------------------------------------- requests per day

  /** An element of `requestsPerDay`. */
  datatype DayTotal = DayTotal(date: DateObj, totalRequests: int)

  /** `data.date == date` on `Date` objects compares identities. */
  function ByObject(d: DateObj): DateObj {
    d
  }

  /** Comparing the dates themselves, as `getTime()` would. */
  function ByText(d: DateObj): string {
    d.text
  }

  /** `result.find(data => key(data.date) == key(date))`: the first element with this key. */
  function Find<K(==)>(r: seq<DayTotal>, date: DateObj, key: DateObj -> K): (a: Option<DayTotal>)
    ensures a.Some? ==> key(a.value.date) == key(date)
    ensures a.None? ==> forall i :: 0 <= i < |r| ==> key(r[i].date) != key(date)
  {
    if |r| == 0 then None
    else if key(r[0].date) == key(date) then Some(r[0])
    else Find(r[1..], date, key)
  }

  /** `result.filter(data => key(data.date) != key(date))`. */
  function Without<K(==)>(r: seq<DayTotal>, date: DateObj, key: DateObj -> K): seq<DayTotal> {
    if |r| == 0 then []
    else Without(Init(r), date, key) + (if key(Last(r).date) != key(date) then [Last(r)] else [])
  }

  /**
   * One `forEach` step of `requestsPerDay`, dates compared under `key`. A merged element
   * carries the entry's date where `{...a}` keeps `a.date`: under `ByObject` the two are the
   * same object, and under `ByText` the merged day is dated by its newest `Date`.
   */
  function AddDay<K(==)>(r: seq<DayTotal>, e: HistoryEntry, key: DateObj -> K): seq<DayTotal> {
    match Find(r, e.date, key)
    case Some(a) =>
      Without(r, e.date, key) + [DayTotal(e.date, a.totalRequests + e.data.overview.totalRequests)]
    case None => r + [DayTotal(e.date, e.data.overview.totalRequests)]
  }

  /** The list `requestsPerDay` builds when dates are compared under `key`. */
  function PerDay<K(==)>(h: seq<HistoryEntry>, key: DateObj -> K): seq<DayTotal> {
    if |h| == 0 then [] else AddDay(PerDay(Init(h), key), Last(h), key)
  }

  /** The requests of all entries whose date has key `k`. */
  function KeyTotal<K(==)>(h: seq<HistoryEntry>, k: K, key: DateObj -> K): int {
    if |h| == 0 then 0
    else KeyTotal(Init(h), k, key) + (if key(Last(h).date) == k then Last(h).data.overview.totalRequests else 0)
  }

  function HistoryRequests(h: seq<HistoryEntry>): int {
    if |h| == 0 then 0 else HistoryRequests(Init(h)) + Last(h).data.overview.totalRequests
  }

  function DayRequests(r: seq<DayTotal>): int {
    if |r| == 0 then 0 else DayRequests(Init(r)) + Last(r).totalRequests
  }

  predicate DistinctKeys<K(==)>(r: seq<DayTotal>, key: DateObj -> K) {
    forall i, j :: 0 <= i < j < |r| ==> key(r[i].date) != key(r[j].date)
  }

  function DayKeys<K(==)>(r: seq<DayTotal>, key: DateObj -> K): set<K> {
    set i | 0 <= i < |r| :: key(r[i].date)
  }

  function HistoryKeys<K(==)>(h: seq<HistoryEntry>, key: DateObj -> K): set<K> {
    set i | 0 <= i < |h| :: key(h[i].date)
  }

  /** Every element holds the requests of all entries of `h` under its key. */
  predicate Totals<K(==)>(r: seq<DayTotal>, h: seq<HistoryEntry>, key: DateObj -> K) {
    forall i :: 0 <= i < |r| ==> r[i].totalRequests == KeyTotal(h, key(r[i].date), key)
  }

  /** The filter keeps exactly the elements under other keys. */
  lemma {:induction false} WithoutMembers<K>(r: seq<DayTotal>, date: DateObj, key: DateObj -> K)
    ensures forall i :: 0 <= i < |Without(r, date, key)| ==>
      Without(r, date, key)[i] in r && key(Without(r, date, key)[i].date) != key(date)
    ensures forall i :: 0 <= i < |r| && key(r[i].date) != key(date) ==> r[i] in Without(r, date, key)
  {
    if |r| > 0 {
      WithoutMembers(Init(r), date, key);
      var w := Without(Init(r), date, key);
      forall i | 0 <= i < |w|
        ensures w[i] in r
      {
        var j :| 0 <= j < |Init(r)| && Init(r)[j] == w[i];
        assert r[j] == w[i];
      }
      forall i | 0 <= i < |r| - 1 && key(r[i].date) != key(date)
        ensures r[i] in w
      {
        assert Init(r)[i] == r[i];
      }
    }
  }

  lemma {:induction false} WithoutDistinct<K>(r: seq<DayTotal>, date: DateObj, key: DateObj -> K)
    requires DistinctKeys(r, key)
    ensures DistinctKeys(Without(r, date, key), key)
  {
    if |r| > 0 {
      assert DistinctKeys(Init(r), key);
      WithoutDistinct(Init(r), date, key);
      WithoutMembers(Init(r), date, key);
      var w := Without(Init(r), date, key);
      forall k | 0 <= k < |w|
        ensures key(w[k].date) != key(Last(r).date)
      {
        var i :| 0 <= i < |Init(r)| && Init(r)[i] == w[k];
        assert r[i] == w[k];
      }
    }
  }

  /** With distinct keys, the element found is the only one the filter drops. */
  lemma {:induction false} WithoutRequests<K>(r: seq<DayTotal>, date: DateObj, key: DateObj -> K)
    requires DistinctKeys(r, key)
    ensures DayRequests(r) == DayRequests(Without(r, date, key)) +
      match Find(r, date, key) case Some(a) => a.totalRequests case None => 0
  {
    if |r| > 0 {
      assert DistinctKeys(Init(r), key);
      WithoutRequests(Init(r), date, key);
      FindLast(r, date, key);
      if key(Last(r).date) == key(date) {
        forall i | 0 <= i < |Init(r)|
          ensures key(Init(r)[i].date) != key(date)
        {
          assert Init(r)[i] == r[i];
        }
        FindNone(Init(r), date, key);
        assert Without(r, date, key) == Without(Init(r), date, key);
      } else {
        assert Init(Without(r, date, key)) == Without(Init(r), date, key);
      }
    }
  }

  lemma {:induction false} FindNone<K>(r: seq<DayTotal>, date: DateObj, key: DateObj -> K)
    requires forall i :: 0 <= i < |r| ==> key(r[i].date) != key(date)
    ensures Find(r, date, key).None?
  {
    if |r| > 0 {
      assert forall i :: 0 <= i < |r[1..]| ==> r[1..][i] == r[i + 1];
      FindNone(r[1..], date, key);
    }
  }

  /** Under distinct keys, finding in `r` is finding in `Init(r)` unless the last element matches. */
  lemma {:induction false} FindLast<K>(r: seq<DayTotal>, date: DateObj, key: DateObj -> K)
    requires |r| > 0 && DistinctKeys(r, key)
    ensures Find(r, date, key) ==
      if key(Last(r).date) == key(date) then Some(Last(r)) else Find(Init(r), date, key)
  {
    if |r| > 1 {
      assert Init(r)[1..] == Init(r[1..]);
      assert DistinctKeys(r[1..], key);
      if key(r[0].date) != key(date) {
        FindLast(r[1..], date, key);
      }
    }
  }

  /** A step for a key already listed: its element moves to the end with the new total. */
  lemma AddDayFound<K>(h: seq<HistoryEntry>, r: seq<DayTotal>, key: DateObj -> K)
    requires |h| > 0 && DistinctKeys(r, key) && Totals(r, Init(h), key)
    requires Find(r, Last(h).date, key).Some?
    ensures DistinctKeys(AddDay(r, Last(h), key), key) && Totals(AddDay(r, Last(h), key), h, key)
    ensures DayKeys(AddDay(r, Last(h), key), key) == DayKeys(r, key) + {key(Last(h).date)}
    ensures Last(AddDay(r, Last(h), key)).date == Last(h).date
  {
    var e := Last(h);
    var a := Find(r, e.date, key).value;
    var w := Without(r, e.date, key);
    var r' := w + [DayTotal(e.date, a.totalRequests + e.data.overview.totalRequests)];
    assert AddDay(r, e, key) == r';
    FindIn(r, e.date, key);
    WithoutMembers(r, e.date, key);
    WithoutDistinct(r, e.date, key);
    forall i | 0 <= i < |w|
      ensures r'[i].totalRequests == KeyTotal(h, key(r'[i].date), key)
      ensures key(r'[i].date) in DayKeys(r, key)
    {
      var j :| 0 <= j < |r| && r[j] == w[i];
      assert r'[i] == r[j];
    }
    assert DayKeys(r, key) <= DayKeys(r', key) by {
      forall j | 0 <= j < |r|
        ensures key(r[j].date) in DayKeys(r', key)
      {
        if key(r[j].date) != key(e.date) {
          var k :| 0 <= k < |w| && w[k] == r[j];
          assert r'[k] == r[j];
        } else {
          assert r'[|w|].date == e.date;
        }
      }
    }
  }

  lemma {:induction false} FindIn<K>(r: seq<DayTotal>, date: DateObj, key: DateObj -> K)
    requires Find(r, date, key).Some?
    ensures exists j :: 0 <= j < |r| && r[j] == Find(r, date, key).value
  {
    if r[0] != Find(r, date, key).value {
      FindIn(r[1..], date, key);
      var j :| 0 <= j < |r[1..]| && r[1..][j] == Find(r, date, key).value;
      assert r[j + 1] == Find(r, date, key).value;
    }
  }

  /** A step for a new key: a new element at the end. */
  lemma AddDayNew<K>(h: seq<HistoryEntry>, r: seq<DayTotal>, key: DateObj -> K)
    requires |h| > 0 && DistinctKeys(r, key) && Totals(r, Init(h), key)
    requires Find(r, Last(h).date, key).None? && DayKeys(r, key) == HistoryKeys(Init(h), key)
    ensures DistinctKeys(AddDay(r, Last(h), key), key) && Totals(AddDay(r, Last(h), key), h, key)
    ensures DayKeys(AddDay(r, Last(h), key), key) == DayKeys(r, key) + {key(Last(h).date)}
    ensures Last(AddDay(r, Last(h), key)).date == Last(h).date
  {
    var e := Last(h);
    var r' := r + [DayTotal(e.date, e.data.overview.totalRequests)];
    assert AddDay(r, e, key) == r';
    assert key(e.date) !in DayKeys(r, key);
    KeyTotalAbsent(Init(h), key(e.date), key);
    forall i | 0 <= i < |r|
      ensures r'[i].totalRequests == KeyTotal(h, key(r'[i].date), key)
    {
      assert r'[i] == r[i];
    }
    assert DayKeys(r', key) == DayKeys(r, key) + {key(e.date)} by {
      forall i | 0 <= i < |r|
        ensures key(r[i].date) in DayKeys(r', key)
      {
        assert r'[i] == r[i];
      }
      assert r'[|r|].date == e.date;
    }
  }

  lemma HistoryKeysStep<K>(h: seq<HistoryEntry>, key: DateObj -> K)
    requires |h| > 0
    ensures HistoryKeys(h, key) == HistoryKeys(Init(h), key) + {key(Last(h).date)}
  {
    forall i | 0 <= i < |h| - 1
      ensures key(h[i].date) in HistoryKeys(Init(h), key)
    {
      assert Init(h)[i] == h[i];
    }
  }

  /** A key under which there is no entry totals nothing. */
  lemma {:induction false} KeyTotalAbsent<K>(h: seq<HistoryEntry>, k: K, key: DateObj -> K)
    requires k !in HistoryKeys(h, key)
    ensures KeyTotal(h, k, key) == 0
  {
    if |h| > 0 {
      HistoryKeysStep(h, key);
      KeyTotalAbsent(Init(h), k, key);
    }
  }

  /**
   * The per-day list: one element per distinct key among the history's dates, each with
   * the requests of all entries under that key; the date updated last comes last.
   */
  lemma {:induction false} PerDayTotals<K>(h: seq<HistoryEntry>, key: DateObj -> K)
    ensures DistinctKeys(PerDay(h, key), key) && Totals(PerDay(h, key), h, key)
    ensures DayKeys(PerDay(h, key), key) == HistoryKeys(h, key)
    ensures |h| > 0 ==> |PerDay(h, key)| > 0 && Last(PerDay(h, key)).date == Last(h).date
  {
    if |h| > 0 {
      PerDayTotals(Init(h), key);
      var r := PerDay(Init(h), key);
      if Find(r, Last(h).date, key).Some? {
        AddDayFound(h, r, key);
      } else {
        AddDayNew(h, r, key);
      }
      HistoryKeysStep(h, key);
    }
  }

  /** Merging loses no request: the per-day totals add up to the history's. */
  lemma {:induction false} PerDayGrandTotal<K>(h: seq<HistoryEntry>, key: DateObj -> K)
    ensures DayRequests(PerDay(h, key)) == HistoryRequests(h)
  {
    if |h| > 0 {
      PerDayGrandTotal(Init(h), key);
      var r := PerDay(Init(h), key);
      assert DistinctKeys(r, key) by {
        PerDayTotals(Init(h), key);
      }
      WithoutRequests(r, Last(h).date, key);
      var t := Last(h).data.overview.totalRequests;
      var w := Without(r, Last(h).date, key);
      match Find(r, Last(h).date, key)
      case Some(a) =>
        var r' := w + [DayTotal(Last(h).date, a.totalRequests + t)];
        assert PerDay(h, key) == r';
        assert Init(r') == w;
        assert DayRequests(r') == DayRequests(w) + a.totalRequests + t;
      case None =>
        var r' := r + [DayTotal(Last(h).date, t)];
        assert PerDay(h, key) == r';
        assert Init(r') == r;
    }
  }

  /**
   * A day's hourly file and its rollup file are given the same date text, but `generate`
   * makes a separate `Date` for each file.
   */
  lemma SameDayFiles(d: string, m: string, y: string)
    requires Digits(d) && Digits(m) && Digits(y)
    ensures DateText(d + "-" + m + "-" + y + ".json") == DateText(d + "-" + m + "-" + y + "-overview.json")
  {
    DailyNameParses(d, m, y);
    OverviewNameParses(d, m, y);
  }

  /**
   * Compared by object, two `Date`s of the same calendar day stay apart: `requestsPerDay`
   * lists that day twice.
   */
  lemma SameDayListedTwice(d1: DateObj, d2: DateObj, x: LogData, y: LogData)
    requires d1 != d2 && d1.text == d2.text
    ensures PerDay([HistoryEntry(d1, x), HistoryEntry(d2, y)], ByObject) ==
      [DayTotal(d1, x.overview.totalRequests), DayTotal(d2, y.overview.totalRequests)]
    ensures PerDay([HistoryEntry(d1, x), HistoryEntry(d2, y)], ByText) ==
      [DayTotal(d2, x.overview.totalRequests + y.overview.totalRequests)]
  {
    var h := [HistoryEntry(d1, x), HistoryEntry(d2, y)];
    assert Init(h) == [HistoryEntry(d1, x)];
    assert Init(Init(h)) == [];
    var r := [DayTotal(d1, x.overview.totalRequests)];
    assert PerDay(Init(h), ByObject) == r;
    assert PerDay(Init(h), ByText) == r;
    assert Find(r, d2, ByObject).None? by {
      assert ByObject(r[0].date) != ByObject(d2);
      assert r[1..] == [];
    }
    assert PerDay(h, ByObject) == AddDay(r, HistoryEntry(d2, y), ByObject);
    assert Find(r, d2, ByText) == Some(r[0]);
    assert Without(r, d2, ByText) == [] by {
      assert Init(r) == [];
    }
  }

  /**
   * Merging by the date itself: one element per calendar day of the history, each with
   * all requests of that day, and no request lost.
   */
  lemma PerCalendarDayTotals(h: seq<HistoryEntry>)
    ensures forall i, j :: 0 <= i < j < |PerDay(h, ByText)| ==>
      PerDay(h, ByText)[i].date.text != PerDay(h, ByText)[j].date.text
    ensures forall i :: 0 <= i < |PerDay(h, ByText)| ==>
      PerDay(h, ByText)[i].totalRequests == KeyTotal(h, PerDay(h, ByText)[i].date.text, ByText)
    ensures DayKeys(PerDay(h, ByText), ByText) == HistoryKeys(h, ByText)
    ensures DayRequests(PerDay(h, ByText)) == HistoryRequests(h)
  {
    PerDayTotals(h, ByText);
    PerDayGrandTotal(h, ByText);
  }

  // ---------------------------------------------------------------- average timings

  /** `averageTimings`, without the min/max pairs it never sets. */
  datatype AverageTimes = AverageTimes(averageTotalTime: real, averageHandleTime: real, averageProcessTime: real)

  function TotalTimesOf(h: seq<HistoryEntry>): (xs: seq<real>)
    ensures |xs| == |h|
  {
    seq(|h|, i requires 0 <= i < |h| => h[i].data.timings.averageTotalTime)
  }

  function HandleTimesOf(h: seq<HistoryEntry>): (xs: seq<real>)
    ensures |xs| == |h|
  {
    seq(|h|, i requires 0 <= i < |h| => h[i].data.timings.averageHandleTime)
  }

  function ProcessTimesOf(h: seq<HistoryEntry>): (xs: seq<real>)
    ensures |xs| == |h|
  {
    seq(|h|, i requires 0 <= i < |h| => h[i].data.timings.averageProcessTime)
  }

  class LogHistory {
    var historyMap: seq<HistoryEntry>

    constructor()
      ensures historyMap == []
    {
      historyMap := [];
    }

    /** The `Object.keys(overview).map(...)` of one file, all under one `Date`. */
    method AppendSection(date: DateObj, section: Section)
      modifies this
      ensures historyMap == old(historyMap) + Dated(date, SectionRecords(section))
    {
      var k := 0;
      while k < |section|
        invariant 0 <= k <= |section|
        invariant historyMap == old(historyMap) + Dated(date, SectionRecords(section)[..k])
      {
        var overviewData := section[k].1;
        if overviewData.None? {
          historyMap := historyMap + [HistoryEntry(date, EmptyLogData())];
        } else {
          historyMap := historyMap + [HistoryEntry(date, overviewData.value)];
        }
        assert SectionRecords(section)[..k + 1] == SectionRecords(section)[..k] + [SectionRecords(section)[k]];
        k := k + 1;
      }
      assert SectionRecords(section)[..k] == SectionRecords(section);
    }

    /** The body of `generate` for one `.json` file: a new `Date`, then its records. */
    method ReadFile(f: DirEntry) returns (date: DateObj)
      requires Contains(f.name, ".json")
      modifies this
      ensures fresh(date) && date.text == DateText(f.name) && date.weekday == f.weekday
      ensures historyMap == old(historyMap) + Dated(date, FileRecords(f))
    {
      date := new DateObj(DateText(f.name), f.weekday);
      if f.content.Some? {
        var overview := Lookup(f.content.value, "overview");
        if overview.Some? {
          AppendSection(date, overview.value);
        }
      }
    }

    /**
     * `generate` over the listed directory: it only appends, one entry per record read,
     * each under the `Date` of its file; every `.json` file gets a new `Date` of its own.
     */
    method Generate(files: seq<DirEntry>) returns (ghost dates: map<nat, DateObj>)
      modifies this
      ensures Stamped(historyMap, |old(historyMap)|, Generated(files), dates)
      ensures historyMap[..|old(historyMap)|] == old(historyMap)
      ensures DatesOf(files, dates, |files|) && Distinct(dates)
      ensures forall a :: a in dates ==> fresh(dates[a])
    {
      ghost var n0 := |historyMap|;
      dates := map[];
      var i := 0;
      while i < |files|
        invariant 0 <= i <= |files|
        invariant Stamped(historyMap, n0, Generated(files[..i]), dates)
        invariant historyMap[..n0] == old(historyMap)
        invariant DatesOf(files, dates, i) && Distinct(dates)
        invariant forall a :: a in dates ==> fresh(dates[a])
      {
        var f := files[i];
        GeneratedStep(files, i);
        if Contains(f.name, ".json") {
          ghost var before := historyMap;
          var date := ReadFile(f);
          StampedExtend(before, n0, Generated(files[..i]), dates, i, date, FileRecords(f));
          DatesExtend(files, dates, i, date);
          dates := dates[i := date];
        } else {
          assert Tagged(i, FileRecords(f)) == [];
        }
        i := i + 1;
      }
      assert files[..i] == files;
    }

    /** `mapByWeekday`. */
    method MapByWeekday() returns (map_: Obj<seq<LogData>>)
      ensures map_ == ByWeekday(historyMap)
    {
      map_ := [];
      var i := 0;
      while i < |historyMap|
        invariant 0 <= i <= |historyMap|
        invariant map_ == ByWeekday(historyMap[..i])
      {
        var e := historyMap[i];
        var name := WeekdayName(e.date.weekday);
        // `if (!map[name]) map[name] = []`, then the push
        var list := Lookup(map_, name);
        if list.None? {
          list := Some([]);
        }
        map_ := Put(map_, name, list.value + [e.data]);
        assert Init(historyMap[..i + 1]) == historyMap[..i];
        i := i + 1;
      }
      assert historyMap[..i] == historyMap;
    }

    /** The `list.forEach` of `requestsPerWeekday`. */
    static method SumRequests(list: seq<LogData>) returns (total: real)
      ensures total == Sum(RequestCounts(list))
    {
      total := 0.0;
      var j := 0;
      while j < |list|
        invariant 0 <= j <= |list|
        invariant total == Sum(RequestCounts(list)[..j])
      {
        SumPrefix(RequestCounts(list), j);
        total := total + list[j].overview.totalRequests as real;
        j := j + 1;
      }
      assert RequestCounts(list)[..j] == RequestCounts(list);
    }

    /**
     * `requestsPerWeekday`. Each weekday key of `map` is new to `result`, so its slot
     * starts at 0 before the sum and the division.
     */
    method RequestsPerWeekday() returns (result: Obj<real>)
      ensures NonEmptyLists(ByWeekday(historyMap))
      ensures result == MeanRequests(ByWeekday(historyMap))
    {
      var map_ := MapByWeekday();
      ByWeekdayNonEmpty(historyMap);
      ByWeekdayKeys(historyMap);
      result := [];
      var i := 0;
      while i < |map_|
        invariant 0 <= i <= |map_|
        invariant NonEmptyLists(map_[..i]) && result == MeanRequests(map_[..i])
      {
        var weekday := map_[i].0;
        var list := map_[i].1;
        var total := SumRequests(list);
        MeanRequestsStep(map_, i);
        PutNew(result, weekday, total / (|list| as real));
        result := Put(result, weekday, total / (|list| as real));
        i := i + 1;
      }
      assert map_[..i] == map_;
    }

    /** `requestsPerDay`, which compares the `Date` objects themselves. */
    method RequestsPerDay() returns (result: seq<DayTotal>)
      ensures result == PerDay(historyMap, ByObject)
    {
      result := [];
      var i := 0;
      while i < |historyMap|
        invariant 0 <= i <= |historyMap|
        invariant result == PerDay(historyMap[..i], ByObject)
      {
        var e := historyMap[i];
        assert Init(historyMap[..i + 1]) == historyMap[..i] && Last(historyMap[..i + 1]) == e;
        assert PerDay(historyMap[..i + 1], ByObject) == AddDay(result, e, ByObject);
        var a := Find(result, e.date, ByObject);
        var next;
        if a.Some? {
          next := Without(result, e.date, ByObject) + [DayTotal(e.date, a.value.totalRequests + e.data.overview.totalRequests)];
        } else {
          next := result + [DayTotal(e.date, e.data.overview.totalRequests)];
        }
        assert next == AddDay(result, e, ByObject);
        result := next;
        i := i + 1;
      }
      assert historyMap[..i] == historyMap;
    }

    /**
     * `averageTimings`: the mean of each of the three averages over all entries; with no
     * entries the division by zero gives `NaN`, here `None`.
     */
    method AverageTimings() returns (result: Option<AverageTimes>)
      ensures result.None? <==> |historyMap| == 0
      ensures result.Some? ==> result.value == AverageTimes(
        Mean(TotalTimesOf(historyMap)), Mean(HandleTimesOf(historyMap)), Mean(ProcessTimesOf(historyMap)))
    {
      var total, handle, process := 0.0, 0.0, 0.0;
      var i := 0;
      while i < |historyMap|
        invariant 0 <= i <= |historyMap|
        invariant total == Sum(TotalTimesOf(historyMap)[..i])
        invariant handle == Sum(HandleTimesOf(historyMap)[..i])
        invariant process == Sum(ProcessTimesOf(historyMap)[..i])
      {
        var t := historyMap[i].data.timings;
        SumPrefix(TotalTimesOf(historyMap), i);
        SumPrefix(HandleTimesOf(historyMap), i);
        SumPrefix(ProcessTimesOf(historyMap), i);
        total := total + t.averageTotalTime;
        handle := handle + t.averageHandleTime;
        process := process + t.averageProcessTime;
        i := i + 1;
      }
      assert TotalTimesOf(historyMap)[..i] == TotalTimesOf(historyMap);
      assert HandleTimesOf(historyMap)[..i] == HandleTimesOf(historyMap);
      assert ProcessTimesOf(historyMap)[..i] == ProcessTimesOf(historyMap);
      if |historyMap| == 0 {
        result := None;
      } else {
        var n := |historyMap| as real;
        result := Some(AverageTimes(total / n, handle / n, process / n));
      }
    }
  }
}
