/**
 * The readings table: the `Reading` class binds a DynamoDB table once, then
 * answers time-window queries by a filtered, paginated scan.
 *
 * The table is a foreign service. `table.load()` is modelled by its outcome,
 * and the successive `scan` calls of one query by the sequence of answers the
 * store gives to them: the k-th call is answered by `pages[k]`.
 */
module ReadingStore {
  import opened Wrappers
  import opened Aws

  /** Python's int() on a float: truncation toward zero. */
  function Trunc(x: real): (i: int)
    ensures 0.0 <= x ==> i as real <= x < i as real + 1.0
    ensures x < 0.0 ==> i as real - 1.0 < x <= i as real
  {
    if x >= 0.0 then x.Floor else -((-x).Floor)
  }

  lemma TruncIntegral(i: int)
    ensures Trunc(i as real) == i
  {
  }

  /** The numeric `sample_time` of an item, if it has one. */
  function SampleTime(item: Item): (t: Option<real>)
  {
    if "sample_time" in item && item["sample_time"].N? then Some(item["sample_time"].num) else None
  }

  /** The two filter expressions the scans use, over `sample_time`. */
  datatype Condition =
    | Between(low: int, high: int)
    | AtLeast(low: int)
  {
    /** Whether the store's filter keeps an item; one without a numeric sample_time fails any comparison. */
    predicate Admits(item: Item)
    {
      match SampleTime(item)
      case None => false
      case Some(t) =>
        match this
        case Between(lo, hi) => lo as real <= t <= hi as real
        case AtLeast(lo) => lo as real <= t
    }
  }

  /** DynamoDB's ExclusiveStartKey / LastEvaluatedKey: a primary-key map. */
  type Key = map<string, AttrValue>

  /** Python truthiness of a key dict: an empty dict is false. */
  predicate Truthy(key: Key)
  {
    |key| > 0
  }

  const Projection := "sample_time, device_id, readings.reading_time, readings.power, readings.rms_current, readings.watt_hours"

  /** The keyword arguments of one `table.scan` call. */
  datatype ScanRequest = ScanRequest(
    filterExpression: Condition,
    projectionExpression: string,
    returnConsumedCapacity: string,
    consistentRead: bool,
    exclusiveStartKey: Option<Key>)

  /** The `scan_kwargs` a query starts from: its filter, the fixed projection, no start key. */
  function ScanKwargs(filter: Condition): (kwargs: ScanRequest)
  {
    ScanRequest(filter, Projection, "TOTAL", true, None)
  }

  /** The kwargs of the k-th scan call of a query that starts from `kwargs`. */
  ghost function RequestAt(kwargs: ScanRequest, pages: seq<ScanResponse>, k: nat): ScanRequest
    requires k <= |pages|
  {
    kwargs.(exclusiveStartKey := StartKeyAt(pages, k))
  }

  /** The kwargs of the first k scan calls, in order. */
  ghost function RequestsUpTo(kwargs: ScanRequest, pages: seq<ScanResponse>, k: nat): (rs: seq<ScanRequest>)
    requires k <= |pages|
    ensures |rs| == k
  {
    if k == 0 then [] else RequestsUpTo(kwargs, pages, k - 1) + [RequestAt(kwargs, pages, k - 1)]
  }

  lemma {:induction false} RequestsUpToAt(kwargs: ScanRequest, pages: seq<ScanResponse>, k: nat)
    requires k <= |pages|
    ensures forall j :: 0 <= j < k ==> RequestsUpTo(kwargs, pages, k)[j] == RequestAt(kwargs, pages, j)
  {
    if k > 0 {
      RequestsUpToAt(kwargs, pages, k - 1);
    }
  }

  /** The answer to one scan call: `Items` and `LastEvaluatedKey`, each possibly absent, or a raised ClientError. */
  datatype ScanResponse =
    | ScanPage(items: Option<seq<Item>>, lastEvaluatedKey: Option<Key>)
    | ScanRaised(error: ClientError)

  /** `response.get("Items", [])`. */
  function ItemsOf(r: ScanResponse): (items: seq<Item>)
  {
    if r.ScanPage? && r.items.Some? then r.items.value else []
  }

  /**
   * How a query fails: the store's ClientError propagates, the table was
   * never bound, or (as written) the `except` branch's logging call raises.
   */
  datatype ScanError =
    | StoreError(error: ClientError)
    | TableNotSet
    | LogFormattingError

  /** An answer after which the scan loop is done. */
  predicate Ends(r: ScanResponse)
  {
    r.ScanRaised? || r.lastEvaluatedKey.None?
  }

  /** The store's answers form a finite chain: some call ends the scan. */
  predicate Finite(pages: seq<ScanResponse>)
  {
    exists k :: 0 <= k < |pages| && Ends(pages[k])
  }

  lemma FiniteTail(pages: seq<ScanResponse>)
    requires Finite(pages) && !Ends(pages[0])
    ensures Finite(pages[1..])
  {
    var k :| 0 <= k < |pages| && Ends(pages[k]);
    assert k > 0 && Ends(pages[1..][k - 1]);
  }

  /** The index of the first answer that ends the scan: the last call made. */
  ghost function LastCall(pages: seq<ScanResponse>): (k: nat)
    requires Finite(pages)
    ensures k < |pages| && Ends(pages[k])
    ensures forall j :: 0 <= j < k ==> !Ends(pages[j])
    decreases |pages|
  {
    if Ends(pages[0]) then 0
    else
      FiniteTail(pages);
      1 + LastCall(pages[1..])
  }

  /** The items of the answers among `rs`, concatenated in order. */
  ghost function AllItems(rs: seq<ScanResponse>): seq<Item>
  {
    if rs == [] then [] else AllItems(rs[..|rs| - 1]) + ItemsOf(rs[|rs| - 1])
  }

  /** What one scan loop yields, following the chain one call at a time. */
  ghost function Scanned(pages: seq<ScanResponse>): Result<seq<Item>, ScanError>
    requires Finite(pages)
    decreases |pages|
  {
    match pages[0]
    case ScanRaised(e) => Failure(StoreError(e))
    case ScanPage(_, None) => Success(ItemsOf(pages[0]))
    case ScanPage(_, Some(_)) =>
      FiniteTail(pages);
      match Scanned(pages[1..])
      case Success(rest) => Success(ItemsOf(pages[0]) + rest)
      case Failure(e) => Failure(e)
  }

  /**
   * The ExclusiveStartKey of the k-th scan call. `scan_kwargs` is updated in
   * place only when the previous LastEvaluatedKey is truthy, so an empty key
   * leaves the one set before (or none) in place.
   */
  ghost function StartKeyAt(pages: seq<ScanResponse>, k: nat): Option<Key>
    requires k <= |pages|
  {
    if k == 0 then None
    else
      match pages[k - 1]
      case ScanPage(_, Some(key)) => if Truthy(key) then Some(key) else StartKeyAt(pages, k - 1)
      case _ => StartKeyAt(pages, k - 1)
  }

  /**
   * The start key of a call is the key of the latest earlier page whose key
   * was truthy; when every key so far was truthy, it is the previous page's.
   */
  lemma {:induction false} StartKeyFromEarlierPage(pages: seq<ScanResponse>, k: nat)
    requires k <= |pages|
    ensures k == 0 ==> StartKeyAt(pages, k).None?
    ensures k > 0 && pages[k - 1].ScanPage? && pages[k - 1].lastEvaluatedKey.Some? && Truthy(pages[k - 1].lastEvaluatedKey.value) ==>
      StartKeyAt(pages, k) == pages[k - 1].lastEvaluatedKey
    ensures StartKeyAt(pages, k).Some? ==>
      exists j :: 0 <= j < k && pages[j].ScanPage? && pages[j].lastEvaluatedKey == StartKeyAt(pages, k) && Truthy(StartKeyAt(pages, k).value)
    ensures (forall j :: 0 <= j < k ==> !(pages[j].ScanPage? && pages[j].lastEvaluatedKey.Some? && Truthy(pages[j].lastEvaluatedKey.value))) ==>
      StartKeyAt(pages, k).None?
  {
    if k > 0 && !(pages[k - 1].ScanPage? && pages[k - 1].lastEvaluatedKey.Some? && Truthy(pages[k - 1].lastEvaluatedKey.value)) {
      StartKeyFromEarlierPage(pages, k - 1);
    }
  }

  /** The scan's result is the in-order concatenation of every fetched page's items, or the first error alone. */
  lemma {:induction false} ScannedIsConcatenation(pages: seq<ScanResponse>)
    requires Finite(pages)
    ensures var n := LastCall(pages);
      Scanned(pages) ==
        if pages[n].ScanRaised? then Failure(StoreError(pages[n].error))
        else Success(AllItems(pages[..n + 1]))
  {
    var n := LastCall(pages);
    if n == 0 {
      assert pages[..1] == [pages[0]];
      AllItemsCons(pages[0], []);
      assert [pages[0]] + [] == [pages[0]];
      if pages[0].ScanPage? {
        assert Scanned(pages) == Success(ItemsOf(pages[0]));
        assert AllItems(pages[..1]) == ItemsOf(pages[0]);
      }
    } else {
      FiniteTail(pages);
      var tail := pages[1..];
      ScannedIsConcatenation(tail);
      assert LastCall(tail) == n - 1;
      AllItemsCons(pages[0], tail[..n]);
      assert [pages[0]] + tail[..n] == pages[..n + 1];
    }
  }

  lemma {:induction false} AllItemsCons(r: ScanResponse, rs: seq<ScanResponse>)
    ensures AllItems([r] + rs) == ItemsOf(r) + AllItems(rs)
    decreases |rs|
  {
    if rs == [] {
      assert [r] + rs == [r];
      assert AllItems([r]) == AllItems([]) + ItemsOf(r);
    } else {
      assert ([r] + rs)[..|[r] + rs| - 1] == [r] + rs[..|rs| - 1];
      AllItemsCons(r, rs[..|rs| - 1]);
    }
  }

  /** Every page the store returns honours the filter. */
  ghost predicate Honours(filter: Condition, pages: seq<ScanResponse>)
  {
    forall k :: 0 <= k < |pages| ==> forall item :: item in ItemsOf(pages[k]) ==> filter.Admits(item)
  }

  /** If the store evaluates the filter, every reading a scan returns satisfies it. */
  lemma {:induction false} ScanRespectsFilter(filter: Condition, pages: seq<ScanResponse>)
    requires Finite(pages) && Honours(filter, pages)
    ensures Scanned(pages).Success? ==> forall item :: item in Scanned(pages).value ==> filter.Admits(item)
    decreases |pages|
  {
    if !Ends(pages[0]) {
      FiniteTail(pages);
      assert Honours(filter, pages[1..]) by {
        forall k | 0 <= k < |pages[1..]| ensures forall item :: item in ItemsOf(pages[1..][k]) ==> filter.Admits(item) {
          assert pages[1..][k] == pages[k + 1];
        }
      }
      ScanRespectsFilter(filter, pages[1..]);
    }
  }

  /** A wider window keeps every item a narrower one keeps. */
  lemma WiderWindowKeepsMore(low1: int, high1: int, low2: int, high2: int, item: Item)
    requires low2 <= low1 && high1 <= high2
    ensures Between(low1, high1).Admits(item) ==> Between(low2, high2).Admits(item)
  {
  }

  /** The table handle `dyn_resource.Table(name)` yields. */
  datatype Table = Table(name: string)

  /** The outcome of `table.load()`: the table is described, or a ClientError is raised. */
  datatype LoadOutcome = Loaded | LoadRaised(error: ClientError)

  const ResourceNotFound := "ResourceNotFoundException"

  /** The state of the scan loop before its call number i, all earlier calls having returned a key. */
  ghost predicate Scanning(kwargs: ScanRequest, pages: seq<ScanResponse>, i: nat, acc: seq<Item>,
                           startKey: Option<Key>, scanKwargs: ScanRequest, requests: seq<ScanRequest>)
  {
    && i < |pages|
    && (forall j :: 0 <= j < i ==> !Ends(pages[j]))
    && acc == AllItems(pages[..i])
    && startKey == (if i == 0 then None else pages[i - 1].lastEvaluatedKey)
    && scanKwargs == RequestAt(kwargs, pages, if i == 0 then 0 else i - 1)
    && requests == RequestsUpTo(kwargs, pages, i)
  }

  /** The kwargs of the next call: `scan_kwargs` with ExclusiveStartKey set when `start_key` is truthy. */
  function NextKwargs(startKey: Option<Key>, scanKwargs: ScanRequest): (next: ScanRequest)
  {
    if startKey.Some? && Truthy(startKey.value) then scanKwargs.(exclusiveStartKey := startKey) else scanKwargs
  }

  /** The update of `scan_kwargs` before call i yields the kwargs `RequestAt` gives that call. */
  lemma NextRequest(kwargs: ScanRequest, pages: seq<ScanResponse>, i: nat, startKey: Option<Key>, scanKwargs: ScanRequest)
    requires kwargs.exclusiveStartKey.None? && i < |pages|
    requires i > 0 ==> !Ends(pages[i - 1])
    requires startKey == (if i == 0 then None else pages[i - 1].lastEvaluatedKey)
    requires scanKwargs == RequestAt(kwargs, pages, if i == 0 then 0 else i - 1)
    ensures NextKwargs(startKey, scanKwargs) == RequestAt(kwargs, pages, i)
  {
  }

  /** One pass of the scan loop over a page that carries a LastEvaluatedKey. */
  lemma ScanStep(kwargs: ScanRequest, pages: seq<ScanResponse>, i: nat, acc: seq<Item>,
                 startKey: Option<Key>, scanKwargs: ScanRequest, requests: seq<ScanRequest>)
    requires Scanning(kwargs, pages, i, acc, startKey, scanKwargs, requests)
    requires Finite(pages) && kwargs.exclusiveStartKey.None?
    ensures var next := NextKwargs(startKey, scanKwargs);
      && next == RequestAt(kwargs, pages, i)
      && requests + [next] == RequestsUpTo(kwargs, pages, i + 1)
      && acc + ItemsOf(pages[i]) == AllItems(pages[..i + 1])
      && (!Ends(pages[i]) ==> Scanning(kwargs, pages, i + 1, acc + ItemsOf(pages[i]), pages[i].lastEvaluatedKey, next, requests + [next]))
  {
    if i > 0 {
      assert !Ends(pages[i - 1]);
    }
    NextRequest(kwargs, pages, i, startKey, scanKwargs);
    assert pages[..i + 1][..i] == pages[..i];
    if !Ends(pages[i]) {
      var k :| 0 <= k < |pages| && Ends(pages[k]);
      assert k > i;
    }
  }

  /** What the scan loop has produced once its last call returns. */
  lemma ScanFinished(kwargs: ScanRequest, pages: seq<ScanResponse>, acc: seq<Item>, requests: seq<ScanRequest>)
    requires Finite(pages) && requests == RequestsUpTo(kwargs, pages, LastCall(pages) + 1)
    requires pages[LastCall(pages)].ScanPage? ==> acc == AllItems(pages[..LastCall(pages) + 1])
    ensures pages[LastCall(pages)].ScanRaised? ==> Scanned(pages) == Failure(StoreError(pages[LastCall(pages)].error))
    ensures pages[LastCall(pages)].ScanPage? ==> Scanned(pages) == Success(acc)
    ensures |requests| == LastCall(pages) + 1
    ensures forall k :: 0 <= k < |requests| ==> requests[k] == RequestAt(kwargs, pages, k)
  {
    ScannedIsConcatenation(pages);
    RequestsUpToAt(kwargs, pages, LastCall(pages) + 1);
  }

  /** The scan loop's state: still running before call i, or done after the chain's last call. */
  ghost predicate ScanInv(kwargs: ScanRequest, pages: seq<ScanResponse>, i: nat, done: bool, acc: seq<Item>,
                          startKey: Option<Key>, scanKwargs: ScanRequest, requests: seq<ScanRequest>)
  {
    && Finite(pages)
    && (done ==>
          && 0 < i == LastCall(pages) + 1
          && pages[i - 1].ScanPage?
          && acc == AllItems(pages[..i])
          && requests == RequestsUpTo(kwargs, pages, i))
    && (!done ==> i <= LastCall(pages) && Scanning(kwargs, pages, i, acc, startKey, scanKwargs, requests))
  }

  /** One pass of the scan loop: the call it sends, and the state or the result it leads to. */
  lemma ScanAdvance(kwargs: ScanRequest, pages: seq<ScanResponse>, i: nat, acc: seq<Item>,
                    startKey: Option<Key>, scanKwargs: ScanRequest, requests: seq<ScanRequest>)
    requires kwargs.exclusiveStartKey.None?
    requires ScanInv(kwargs, pages, i, false, acc, startKey, scanKwargs, requests)
    ensures i < |pages|
    ensures var sent := NextKwargs(startKey, scanKwargs);
      && (pages[i].ScanRaised? ==>
            && Scanned(pages) == Failure(StoreError(pages[i].error))
            && |requests + [sent]| == LastCall(pages) + 1
            && forall k :: 0 <= k < |requests + [sent]| ==> (requests + [sent])[k] == RequestAt(kwargs, pages, k))
      && (pages[i].ScanPage? ==>
            ScanInv(kwargs, pages, i + 1, pages[i].lastEvaluatedKey.None?, acc + ItemsOf(pages[i]),
                    pages[i].lastEvaluatedKey, sent, requests + [sent]))
  {
    ScanStep(kwargs, pages, i, acc, startKey, scanKwargs, requests);
    var sent := NextKwargs(startKey, scanKwargs);
    if pages[i].ScanRaised? || pages[i].lastEvaluatedKey.None? {
      assert i == LastCall(pages);
      if pages[i].ScanRaised? {
        ScanFinished(kwargs, pages, acc, requests + [sent]);
      }
    }
  }

  /** When the loop is done, its accumulated items are the scan's result. */
  lemma ScanDone(kwargs: ScanRequest, pages: seq<ScanResponse>, i: nat, acc: seq<Item>,
                 startKey: Option<Key>, scanKwargs: ScanRequest, requests: seq<ScanRequest>)
    requires ScanInv(kwargs, pages, i, true, acc, startKey, scanKwargs, requests)
    ensures Scanned(pages) == Success(acc)
    ensures |requests| == LastCall(pages) + 1
    ensures forall k :: 0 <= k < |requests| ==> requests[k] == RequestAt(kwargs, pages, k)
  {
    ScanFinished(kwargs, pages, acc, requests);
  }

  /**
   * The scan loop both queries run: call `scan` with the current kwargs,
   * extend with the page's items, and repeat while a LastEvaluatedKey comes
   * back. `requests` records the kwargs of each call.
   */
  method ScanAll(kwargs: ScanRequest, pages: seq<ScanResponse>)
    returns (readings: Result<seq<Item>, ScanError>, ghost requests: seq<ScanRequest>)
    requires Finite(pages) && kwargs.exclusiveStartKey.None?
    ensures readings == Scanned(pages)
    ensures |requests| == LastCall(pages) + 1
    ensures forall k :: 0 <= k < |requests| ==> requests[k] == RequestAt(kwargs, pages, k)
  {
    var acc: seq<Item> := [];
    var scanKwargs := kwargs;
    var done := false;
    var startKey: Option<Key> := None;
    var i := 0;
    requests := [];
    ghost var n := LastCall(pages);
    while !done
      invariant i <= n + 1
      invariant ScanInv(kwargs, pages, i, done, acc, startKey, scanKwargs, requests)
      decreases n + 1 - i
    {
      ScanAdvance(kwargs, pages, i, acc, startKey, scanKwargs, requests);
      if startKey.Some? && Truthy(startKey.value) {
        scanKwargs := scanKwargs.(exclusiveStartKey := startKey);
      }
      requests := requests + [scanKwargs];
      var response := pages[i];
      if response.ScanRaised? {
        readings := Failure(StoreError(response.error));
        return;
      }
      acc := acc + ItemsOf(response);
      startKey := response.lastEvaluatedKey;
      done := startKey.None?;
      i := i + 1;
    }
    readings := Success(acc);
    ScanDone(kwargs, pages, i, acc, startKey, scanKwargs, requests);
  }

  /** POSIX seconds of 0001-01-01 and of 10000-01-01 (UTC): the range `datetime` can represent. */
  const MinDatetimeSeconds: real := -62135596800.0
  const MaxDatetimeSeconds: real := 253402300800.0

  /** `datetime.fromtimestamp(t)` returns only when the local time of t falls in years 1 to 9999. */
  predicate FromTimestampSucceeds(t: real, utcOffsetSeconds: int)
  {
    MinDatetimeSeconds <= t + utcOffsetSeconds as real < MaxDatetimeSeconds
  }

  /** Whether `datetime.fromtimestamp` converts every time an `except` branch logs. */
  predicate LogTimesConvert(loggedTimes: seq<real>, utcOffsetSeconds: int)
  {
    forall t :: t in loggedTimes ==> FromTimestampSucceeds(t, utcOffsetSeconds)
  }

  /**
   * A scan's `except ClientError` branch as written, applied to what its
   * loop produced: the log line formats `datetime.fromtimestamp` of each
   * logged time before `raise`, so a time that does not convert raises from
   * the logging call instead. Outcomes other than a store ClientError never
   * enter the branch.
   */
  function ExceptAsWritten(r: Result<seq<Item>, ScanError>, loggedTimes: seq<real>, utcOffsetSeconds: int)
    : Result<seq<Item>, ScanError>
  {
    match r
    case Failure(StoreError(_)) => if LogTimesConvert(loggedTimes, utcOffsetSeconds) then r else Failure(LogFormattingError)
    case _ => r
  }

  /**
   * The times logged are milliseconds, which `fromtimestamp` reads as
   * seconds. When the first logged time is 1978-01-12 or later
   * (253402387200 ms), it is past year 9999 in any time zone, so the store's
   * ClientError is replaced by the logging error; every other outcome passes.
   */
  lemma StoreErrorMaskedByLogging(r: Result<seq<Item>, ScanError>, loggedTimes: seq<real>, utcOffsetSeconds: int)
    requires -86400 <= utcOffsetSeconds <= 86400
    requires |loggedTimes| > 0 && loggedTimes[0] >= 253402387200.0
    ensures !(ExceptAsWritten(r, loggedTimes, utcOffsetSeconds).Failure? && ExceptAsWritten(r, loggedTimes, utcOffsetSeconds).error.StoreError?)
    ensures r.Failure? && r.error.StoreError? ==> ExceptAsWritten(r, loggedTimes, utcOffsetSeconds) == Failure(LogFormattingError)
    ensures !(r.Failure? && r.error.StoreError?) ==> ExceptAsWritten(r, loggedTimes, utcOffsetSeconds) == r
  {
    assert loggedTimes[0] in loggedTimes && !FromTimestampSucceeds(loggedTimes[0], utcOffsetSeconds);
  }

  /** As long as every logged time converts, the branch re-raises the store's ClientError unchanged. */
  lemma StoreErrorReraisedWhenLogged(r: Result<seq<Item>, ScanError>, loggedTimes: seq<real>, utcOffsetSeconds: int)
    requires forall i :: 0 <= i < |loggedTimes| ==> FromTimestampSucceeds(loggedTimes[i], utcOffsetSeconds)
    ensures ExceptAsWritten(r, loggedTimes, utcOffsetSeconds) == r
  {
    assert LogTimesConvert(loggedTimes, utcOffsetSeconds) by {
      forall t | t in loggedTimes ensures FromTimestampSucceeds(t, utcOffsetSeconds) {
        var i :| 0 <= i < |loggedTimes| && loggedTimes[i] == t;
      }
    }
  }

  /** The table object: `table` is None until `SetTable` binds it. */
  class Reading {
    var table: Option<Table>

    constructor ()
      ensures table.None?
    {
      table := None;
    }

    /**
     * `set_table`: bind the table when it loads and report True; report
     * False on ResourceNotFoundException; re-raise any other ClientError.
     * Only a successful load changes the binding.
     */
    method SetTable(tableName: string, load: LoadOutcome) returns (found: Result<bool, ClientError>)
      modifies this`table
      ensures load.Loaded? ==> found == Success(true) && table == Some(Table(tableName))
      ensures load.LoadRaised? && load.error.code == ResourceNotFound ==>
        found == Success(false) && table == old(table)
      ensures load.LoadRaised? && load.error.code != ResourceNotFound ==>
        found == Failure(load.error) && table == old(table)
    {
      var t := Table(tableName);
      match load
      case Loaded =>
        table := Some(t);
        found := Success(true);
      case LoadRaised(err) =>
        if err.code == ResourceNotFound {
          found := Success(false);
        } else {
          found := Failure(err);
        }
    }

    /** What a query on this object yields for given store answers. */
    ghost function Query(pages: seq<ScanResponse>): Result<seq<Item>, ScanError>
      reads this
      requires Finite(pages)
    {
      if table.None? then Failure(TableNotSet) else Scanned(pages)
    }

    /**
     * `get_period_readings`: scan with `sample_time BETWEEN int(start) AND
     * int(end)`. With no table bound, the scan call raises before any request.
     */
    method GetPeriodReadings(start: real, end: real, pages: seq<ScanResponse>)
      returns (readings: Result<seq<Item>, ScanError>, ghost requests: seq<ScanRequest>)
      requires Finite(pages)
      ensures readings == Query(pages)
      ensures table.None? ==> requests == []
      ensures table.Some? ==> |requests| == LastCall(pages) + 1
      ensures forall k :: 0 <= k < |requests| ==>
        requests[k] == ScanKwargs(Between(Trunc(start), Trunc(end))).(exclusiveStartKey := StartKeyAt(pages, k))
    {
      var kwargs := ScanKwargs(Between(Trunc(start), Trunc(end)));
      if table.None? {
        readings, requests := Failure(TableNotSet), [];
        return;
      }
      readings, requests := ScanAll(kwargs, pages);
    }

    /** `get_latest_readings`: scan with `sample_time >= int(stop_time)`. */
    method GetLatestReadings(stopTime: real, pages: seq<ScanResponse>)
      returns (readings: Result<seq<Item>, ScanError>, ghost requests: seq<ScanRequest>)
      requires Finite(pages)
      ensures readings == Query(pages)
      ensures table.None? ==> requests == []
      ensures table.Some? ==> |requests| == LastCall(pages) + 1
      ensures forall k :: 0 <= k < |requests| ==>
        requests[k] == ScanKwargs(AtLeast(Trunc(stopTime))).(exclusiveStartKey := StartKeyAt(pages, k))
    {
      var kwargs := ScanKwargs(AtLeast(Trunc(stopTime)));
      if table.None? {
        readings, requests := Failure(TableNotSet), [];
        return;
      }
      readings, requests := ScanAll(kwargs, pages);
    }

    /**
     * `get_period_readings` as written: the corrected scan, whose store
     * ClientError then passes through the `except` branch that logs
     * `fromtimestamp(start)` and `fromtimestamp(end)`.
     */
    method GetPeriodReadingsAsWritten(start: real, end: real, utcOffsetSeconds: int, pages: seq<ScanResponse>)
      returns (readings: Result<seq<Item>, ScanError>, ghost requests: seq<ScanRequest>)
      requires Finite(pages)
      ensures readings == ExceptAsWritten(Query(pages), [start, end], utcOffsetSeconds)
      ensures -86400 <= utcOffsetSeconds <= 86400 && start >= 253402387200.0 ==>
        && !(readings.Failure? && readings.error.StoreError?)
        && (Query(pages).Failure? && Query(pages).error.StoreError? ==> readings == Failure(LogFormattingError))
        && (Query(pages).Success? ==> readings == Query(pages))
      ensures table.None? ==> requests == []
      ensures table.Some? ==> |requests| == LastCall(pages) + 1
      ensures forall k :: 0 <= k < |requests| ==>
        requests[k] == ScanKwargs(Between(Trunc(start), Trunc(end))).(exclusiveStartKey := StartKeyAt(pages, k))
    {
      readings, requests := GetPeriodReadings(start, end, pages);
      ghost var scanned := readings;
      readings := ExceptAsWritten(readings, [start, end], utcOffsetSeconds);
      if -86400 <= utcOffsetSeconds <= 86400 && start >= 253402387200.0 {
        StoreErrorMaskedByLogging(scanned, [start, end], utcOffsetSeconds);
      }
    }

    /** `get_latest_readings` as written: its `except` branch logs `fromtimestamp(stop_time)`. */
    method GetLatestReadingsAsWritten(stopTime: real, utcOffsetSeconds: int, pages: seq<ScanResponse>)
      returns (readings: Result<seq<Item>, ScanError>, ghost requests: seq<ScanRequest>)
      requires Finite(pages)
      ensures readings == ExceptAsWritten(Query(pages), [stopTime], utcOffsetSeconds)
      ensures -86400 <= utcOffsetSeconds <= 86400 && stopTime >= 253402387200.0 ==>
        && !(readings.Failure? && readings.error.StoreError?)
        && (Query(pages).Failure? && Query(pages).error.StoreError? ==> readings == Failure(LogFormattingError))
        && (Query(pages).Success? ==> readings == Query(pages))
      ensures table.None? ==> requests == []
      ensures table.Some? ==> |requests| == LastCall(pages) + 1
      ensures forall k :: 0 <= k < |requests| ==>
        requests[k] == ScanKwargs(AtLeast(Trunc(stopTime))).(exclusiveStartKey := StartKeyAt(pages, k))
    {
      readings, requests := GetLatestReadings(stopTime, pages);
      ghost var scanned := readings;
      readings := ExceptAsWritten(readings, [stopTime], utcOffsetSeconds);
      if -86400 <= utcOffsetSeconds <= 86400 && stopTime >= 253402387200.0 {
        StoreErrorMaskedByLogging(scanned, [stopTime], utcOffsetSeconds);
      }
    }
  }
}
