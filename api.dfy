/**
 * The API facade: turns an hour count or calendar dates into scan bounds,
 * runs the scan on the bound `Reading` object, and reshapes the list of
 * readings into a frame whose column names drop the `readings.` prefix.
 *
 * The clock and the local time zone are parameters: `nowMs` is the rounded
 * current time in milliseconds and a date is given by the epoch milliseconds
 * of its local midnight. `json_normalize` is a parameter too.
 */
module Api {
  import opened Wrappers
  import opened Aws
  import Iot
  import opened ReadingStore

  const TableName := "device_energy-first"
  const ThingGroup := "device_energy_sensors"

  const MillisPerHour := 3_600_000
  const MillisPerDay := 86_400_000

  /** `datetime.max.time()`, 23:59:59.999999, in milliseconds after midnight. */
  const EndOfDayOffset: real := 86399999.999

  // ---------------------------------------------------------------------------
  // Time windows

  /** `past_hrs_millis`: the instant `pastHours` hours before now. */
  function PastHrsMillis(nowMs: int, pastHours: int): (instantMs: int)
  {
    nowMs - pastHours * MillisPerHour
  }

  /** Zero hours is now, and every further hour moves the instant back by exactly one hour. */
  lemma PastHrsMillisMovesBack(nowMs: int, h1: int, h2: int)
    ensures PastHrsMillis(nowMs, 0) == nowMs
    ensures h1 < h2 ==> PastHrsMillis(nowMs, h2) < PastHrsMillis(nowMs, h1)
    ensures PastHrsMillis(nowMs, h1) - PastHrsMillis(nowMs, h2) == (h2 - h1) * MillisPerHour
  {
  }

  /** `date_to_bounds`: the day's first instant and its last microsecond, in milliseconds. */
  function DateToBounds(midnightMs: int): (bounds: (real, real))
    ensures bounds.0 == midnightMs as real
    ensures bounds.0 <= bounds.1 < bounds.0 + MillisPerDay as real
  {
    (midnightMs as real, midnightMs as real + EndOfDayOffset)
  }

  /**
   * After the scan's `int()`, the day runs from midnight to the last whole
   * millisecond before the next midnight. For days that end at or before the
   * epoch, truncation toward zero rounds the end up to the next midnight.
   */
  lemma {:induction false} DayBoundsTruncated(midnightMs: int)
    ensures Trunc(DateToBounds(midnightMs).0) == midnightMs
    ensures Trunc(DateToBounds(midnightMs).1) ==
      if midnightMs + MillisPerDay > 0 then midnightMs + MillisPerDay - 1 else midnightMs + MillisPerDay
  {
    TruncIntegral(midnightMs);
    var end := DateToBounds(midnightMs).1;
    if midnightMs + MillisPerDay > 0 {
      assert end >= 0.0;
      assert (midnightMs + MillisPerDay - 1) as real <= end < (midnightMs + MillisPerDay) as real;
    } else {
      assert end < 0.0;
      assert (midnightMs + MillisPerDay - 1) as real < end <= (midnightMs + MillisPerDay) as real;
    }
  }

  /** The filter of `getReadingsInPastHrs`. */
  function PastHoursFilter(nowMs: int, pastHours: int): Condition
  {
    AtLeast(Trunc(PastHrsMillis(nowMs, pastHours) as real))
  }

  /** The filter of `getReadingsInDay`: midnight to end of the same day. */
  function DayFilter(midnightMs: int): Condition
  {
    var bounds := DateToBounds(midnightMs);
    Between(Trunc(bounds.0), Trunc(bounds.1))
  }

  /** The filter of `getReadingsInDatePeriod`: midnight of the first date to midnight of the last. */
  function DatePeriodFilter(startMidnightMs: int, endMidnightMs: int): Condition
  {
    Between(Trunc(DateToBounds(startMidnightMs).0), Trunc(DateToBounds(endMidnightMs).0))
  }

  /** The hour query keeps exactly the readings at or after `past_hrs_millis`. */
  lemma PastHoursWindow(nowMs: int, pastHours: int, item: Item)
    requires SampleTime(item).Some?
    ensures PastHoursFilter(nowMs, pastHours).Admits(item) <==>
      SampleTime(item).value >= (nowMs - pastHours * MillisPerHour) as real
  {
    TruncIntegral(PastHrsMillis(nowMs, pastHours));
  }

  /**
   * The day query keeps the readings from midnight through the last
   * millisecond of the day: one at midnight is kept, one at the next midnight
   * is not (for days after the epoch's eve).
   */
  lemma DayWindow(midnightMs: int, item: Item)
    requires midnightMs + MillisPerDay > 0 && SampleTime(item).Some?
    ensures DayFilter(midnightMs) == Between(midnightMs, midnightMs + MillisPerDay - 1)
    ensures DayFilter(midnightMs).Admits(item) <==>
      midnightMs as real <= SampleTime(item).value <= (midnightMs + MillisPerDay - 1) as real
    ensures SampleTime(item).value == midnightMs as real ==> DayFilter(midnightMs).Admits(item)
    ensures SampleTime(item).value == (midnightMs + MillisPerDay) as real ==> !DayFilter(midnightMs).Admits(item)
  {
    DayBoundsTruncated(midnightMs);
  }

  /**
   * The date-range query runs from midnight to midnight: for one date it is a
   * single instant, narrower than that date's day query, and readings of the
   * last date after its midnight are never kept.
   */
  lemma DatePeriodWindow(startMidnightMs: int, endMidnightMs: int, item: Item)
    requires SampleTime(item).Some?
    ensures DatePeriodFilter(startMidnightMs, endMidnightMs) == Between(startMidnightMs, endMidnightMs)
    ensures startMidnightMs == endMidnightMs ==>
      (DatePeriodFilter(startMidnightMs, endMidnightMs).Admits(item) <==> SampleTime(item).value == startMidnightMs as real)
    ensures SampleTime(item).value > endMidnightMs as real ==> !DatePeriodFilter(startMidnightMs, endMidnightMs).Admits(item)
    ensures startMidnightMs + MillisPerDay > 0 ==> DatePeriodFilter(startMidnightMs, startMidnightMs) != DayFilter(startMidnightMs)
  {
    TruncIntegral(startMidnightMs);
    TruncIntegral(endMidnightMs);
    DayBoundsTruncated(startMidnightMs);
  }

  /** The date scanned, as the docstring intends: the given date, else today at the time of the call. */
  function DayArgument(date: Option<int>, callMidnightMs: int): (midnightMs: int)
    ensures date.Some? ==> midnightMs == date.value
    ensures date.None? ==> midnightMs == callMidnightMs
  {
    date.GetOr(callMidnightMs)
  }

  /**
   * The date `getReadingsInDay` scans as written, on a call made on the day
   * of `callMidnightMs`: the default `dt.today()` is evaluated once, when the
   * method is defined, so an omitted date is the day the module was imported.
   */
  function DayArgumentAsWritten(date: Option<int>, importMidnightMs: int, callMidnightMs: int): (midnightMs: int)
    ensures date.Some? ==> midnightMs == DayArgument(date, callMidnightMs)
    ensures date.None? ==> midnightMs == importMidnightMs
  {
    date.GetOr(importMidnightMs)
  }

  /** A process that runs past midnight keeps scanning its first day instead of the day of the call. */
  lemma StaleDefaultDay(importMidnightMs: int, callMidnightMs: int)
    requires importMidnightMs != callMidnightMs
    ensures DayArgumentAsWritten(None, importMidnightMs, callMidnightMs) != DayArgument(None, callMidnightMs)
    ensures DayArgumentAsWritten(None, importMidnightMs, callMidnightMs) != callMidnightMs
    ensures forall d :: DayArgumentAsWritten(Some(d), importMidnightMs, callMidnightMs) == DayArgument(Some(d), callMidnightMs)
  {
  }

  // ---------------------------------------------------------------------------
  // Column names and `list_to_df`

  /** Whether `pat` occurs in `s` at index i. */
  ghost predicate OccursAt(pat: string, s: string, i: nat)
  {
    i + |pat| <= |s| && s[i..i + |pat|] == pat
  }

  /** Whether `pat` occurs anywhere in `s`. */
  ghost predicate Occurs(pat: string, s: string)
  {
    exists i: nat :: OccursAt(pat, s, i)
  }

  /** Python's `s.replace(pat, rep)` for a non-empty `pat`: every non-overlapping occurrence, left to right. */
  function Replace(s: string, pat: string, rep: string): (r: string)
    requires |pat| > 0
    decreases |s|
  {
    if |s| < |pat| then s
    else if s[..|pat|] == pat then rep + Replace(s[|pat|..], pat, rep)
    else [s[0]] + Replace(s[1..], pat, rep)
  }

  /** A string without the pattern is left as it is. */
  lemma {:induction false} ReplaceAbsent(s: string, pat: string, rep: string)
    requires |pat| > 0 && !Occurs(pat, s)
    ensures Replace(s, pat, rep) == s
    decreases |s|
  {
    if |s| >= |pat| {
      assert !OccursAt(pat, s, 0);
      assert !Occurs(pat, s[1..]) by {
        forall i: nat | i + |pat| <= |s[1..]| ensures !OccursAt(pat, s[1..], i) {
          assert s[1..][i..i + |pat|] == s[i + 1..i + 1 + |pat|];
          assert !OccursAt(pat, s, i + 1);
        }
      }
      ReplaceAbsent(s[1..], pat, rep);
      assert [s[0]] + s[1..] == s;
    }
  }

  const Prefix := "readings."

  /** The rename applied to each column: `x.replace('readings.', '')`. */
  function RenameColumn(name: string): (column: string)
  {
    Replace(name, Prefix, "")
  }

  /** A name without the prefix is unchanged; the prefix before such a name is removed. */
  lemma {:induction false} RenameStripsPrefix(s: string)
    requires !Occurs(Prefix, s)
    ensures RenameColumn(s) == s
    ensures RenameColumn(Prefix + s) == s
  {
    ReplaceAbsent(s, Prefix, "");
    var t := Prefix + s;
    assert t[..|Prefix|] == Prefix && t[|Prefix|..] == s;
  }

  /** A name without a dot holds no "readings.". */
  lemma NoPrefixWithoutDot(s: string)
    requires '.' !in s
    ensures !Occurs(Prefix, s)
  {
    forall i: nat | i + |Prefix| <= |s| ensures !OccursAt(Prefix, s, i) {
      assert s[i..i + |Prefix|][8] == s[i + 8];
    }
  }

  /** The top-level and the nested `readings` fields the scans project. */
  const TopLevelFields := ["sample_time", "device_id"]
  const ReadingFields := ["reading_time", "power", "rms_current", "watt_hours"]

  /**
   * After normalisation the projected fields become plain columns: the
   * top-level ones keep their names and `readings.f` becomes `f`.
   */
  lemma ProjectedColumnNames()
    ensures forall f :: f in TopLevelFields ==> RenameColumn(f) == f
    ensures forall f :: f in ReadingFields ==> RenameColumn(Prefix + f) == f
  {
    forall f | f in TopLevelFields + ReadingFields ensures RenameColumn(f) == f && RenameColumn(Prefix + f) == f {
      assert '.' !in f;
      StripNested(f);
    }
  }

  /** The columns `json_normalize` gives the projected items: the top-level fields, then `readings.f` for each nested one. */
  const ProjectedColumns := TopLevelFields + seq(|ReadingFields|, i requires 0 <= i < |ReadingFields| => Prefix + ReadingFields[i])

  lemma ProjectedFrameColumns(columns: seq<string>)
    requires columns == ProjectedColumns
    ensures seq(|columns|, i requires 0 <= i < |columns| => RenameColumn(columns[i])) == TopLevelFields + ReadingFields
  {
    ProjectedColumnNames();
    var renamed := seq(|columns|, i requires 0 <= i < |columns| => RenameColumn(columns[i]));
    forall i | 0 <= i < |columns| ensures renamed[i] == (TopLevelFields + ReadingFields)[i] {
      if i < |TopLevelFields| {
        assert columns[i] == TopLevelFields[i] && TopLevelFields[i] in TopLevelFields;
      } else {
        var j := i - |TopLevelFields|;
        assert columns[i] == Prefix + ReadingFields[j] && ReadingFields[j] in ReadingFields;
      }
    }
  }

  lemma StripNested(field: string)
    requires '.' !in field
    ensures RenameColumn(field) == field
    ensures RenameColumn(Prefix + field) == field
  {
    NoPrefixWithoutDot(field);
    RenameStripsPrefix(field);
  }

  /** A table as `json_normalize` produces it: column names and row cells. */
  datatype Frame = Frame(columns: seq<string>, rows: seq<seq<Option<AttrValue>>>)

  /** The value a wrapped method returns: a list of items, or anything else. */
  datatype Returned<T> = ReturnedList(items: seq<Item>) | ReturnedOther(value: T)

  /** What the `list_to_df` wrapper hands back. */
  datatype Wrapped<T> = DataFrame(frame: Frame) | Unchanged(value: T)

  /**
   * `list_to_df`: a list is normalised into a frame whose columns are
   * renamed one by one, cells untouched; any other value is returned as it is.
   */
  function ListToDf<T>(result: Returned<T>, jsonNormalize: seq<Item> -> Frame): (w: Wrapped<T>)
    ensures result.ReturnedOther? ==> w == Unchanged(result.value)
    ensures result.ReturnedList? ==>
      var normalized := jsonNormalize(result.items);
      && w.DataFrame?
      && w.frame.rows == normalized.rows
      && |w.frame.columns| == |normalized.columns|
      && forall i :: 0 <= i < |normalized.columns| ==> w.frame.columns[i] == RenameColumn(normalized.columns[i])
    ensures result.ReturnedList? && jsonNormalize(result.items).columns == ProjectedColumns ==>
      w.DataFrame? && w.frame.columns == TopLevelFields + ReadingFields
  {
    match result
    case ReturnedList(items) =>
      var normalized := jsonNormalize(items);
      var renamed := seq(|normalized.columns|, i requires 0 <= i < |normalized.columns| => RenameColumn(normalized.columns[i]));
      assert normalized.columns == ProjectedColumns ==> renamed == TopLevelFields + ReadingFields by {
        if normalized.columns == ProjectedColumns {
          ProjectedFrameColumns(normalized.columns);
        }
      }
      DataFrame(normalized.(columns := renamed))
    case ReturnedOther(v) => Unchanged(v)
  }

  /** The scan methods always return lists, so a query either fails or yields a frame. */
  ghost function Framed(readings: Result<seq<Item>, ScanError>, jsonNormalize: seq<Item> -> Frame): Result<Frame, ScanError>
  {
    match readings
    case Success(items) => Success(ListToDf<()>(ReturnedList(items), jsonNormalize).frame)
    case Failure(e) => Failure(e)
  }

  // ---------------------------------------------------------------------------
  // The API's query methods; `db` is the API's bound `Reading` object.

  /** `getdevicelist`: the registry listing for the dashboard's thing group. */
  method GetDeviceList(responses: seq<Iot.ListResponse>)
    returns (devices: Result<seq<string>, ClientError>, ghost requests: seq<Iot.ListRequest>)
    requires Iot.Finite(responses)
    ensures devices == Iot.Listing(responses)
    ensures forall k :: 0 <= k < |requests| ==>
      requests[k].thingGroupName == ThingGroup && !requests[k].recursive && requests[k].maxResults == 100
  {
    devices, requests := Iot.GetDevices(responses, ThingGroup);
  }

  /** `istableset`: bind the dashboard's table. */
  method IsTableSet(db: Reading, load: LoadOutcome) returns (found: Result<bool, ClientError>)
    modifies db`table
    ensures load.Loaded? ==> found == Success(true) && db.table == Some(Table(TableName))
    ensures load.LoadRaised? ==>
      && db.table == old(db.table)
      && found == (if load.error.code == ResourceNotFound then Success(false) else Failure(load.error))
  {
    found := db.SetTable(TableName, load);
  }

  /** `getReadingsInPastHrs`: the readings since `past_hrs_millis(pastHours)`, as a frame. */
  method GetReadingsInPastHrs(db: Reading, nowMs: int, pastHours: int, pages: seq<ScanResponse>,
                              jsonNormalize: seq<Item> -> Frame)
    returns (readings: Result<Frame, ScanError>, ghost requests: seq<ScanRequest>)
    requires Finite(pages)
    ensures readings == Framed(db.Query(pages), jsonNormalize)
    ensures db.table.Some? <==> |requests| == LastCall(pages) + 1
    ensures forall k :: 0 <= k < |requests| ==>
      requests[k].filterExpression == AtLeast(nowMs - pastHours * MillisPerHour)
  {
    var items;
    items, requests := db.GetLatestReadings(PastHrsMillis(nowMs, pastHours) as real, pages);
    TruncIntegral(PastHrsMillis(nowMs, pastHours));
    readings := if items.Success? then Success(ListToDf<()>(ReturnedList(items.value), jsonNormalize).frame)
                else Failure(items.error);
  }

  /** `getReadingsInDay`: the readings of one local day, the day of the call when no date is given. */
  method GetReadingsInDay(db: Reading, date: Option<int>, callMidnightMs: int, pages: seq<ScanResponse>,
                          jsonNormalize: seq<Item> -> Frame)
    returns (readings: Result<Frame, ScanError>, ghost requests: seq<ScanRequest>)
    requires Finite(pages)
    ensures readings == Framed(db.Query(pages), jsonNormalize)
    ensures db.table.Some? <==> |requests| == LastCall(pages) + 1
    ensures forall k :: 0 <= k < |requests| ==>
      requests[k].filterExpression == DayFilter(DayArgument(date, callMidnightMs))
  {
    var bounds := DateToBounds(DayArgument(date, callMidnightMs));
    var items;
    items, requests := db.GetPeriodReadings(bounds.0, bounds.1, pages);
    readings := if items.Success? then Success(ListToDf<()>(ReturnedList(items.value), jsonNormalize).frame)
                else Failure(items.error);
  }

  /** `getReadingsInDatePeriod`: the readings from midnight of one date to midnight of another. */
  method GetReadingsInDatePeriod(db: Reading, startMidnightMs: int, endMidnightMs: int, pages: seq<ScanResponse>,
                                 jsonNormalize: seq<Item> -> Frame)
    returns (readings: Result<Frame, ScanError>, ghost requests: seq<ScanRequest>)
    requires Finite(pages)
    ensures readings == Framed(db.Query(pages), jsonNormalize)
    ensures db.table.Some? <==> |requests| == LastCall(pages) + 1
    ensures forall k :: 0 <= k < |requests| ==>
      requests[k].filterExpression == Between(startMidnightMs, endMidnightMs)
  {
    var start := DateToBounds(startMidnightMs).0;
    var end := DateToBounds(endMidnightMs).0;
    var items;
    items, requests := db.GetPeriodReadings(start, end, pages);
    TruncIntegral(startMidnightMs);
    TruncIntegral(endMidnightMs);
    readings := if items.Success? then Success(ListToDf<()>(ReturnedList(items.value), jsonNormalize).frame)
                else Failure(items.error);
  }
}
