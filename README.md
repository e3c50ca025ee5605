# Device energy dashboard: data-access layer in Dafny

This project models the data-access layer of the device energy dashboard. It covers:

- the device-registry listing (`get_devices`), which pages through `list_things_in_thing_group` by continuation token;
- the readings table object (`Reading`), which binds a DynamoDB table once and answers time-window queries by a filtered, paginated `scan`;
- the API facade, which turns an hour count or calendar dates into scan bounds and reshapes the result into a frame whose columns drop the `readings.` prefix.

Modules: `Wrappers` holds `Option` and `Result`. `Aws` holds `ClientError`, the attribute values and the items. Then `Iot`, `ReadingStore` and `Api` follow the three source files.

How foreign parts are modelled:

- **The registry and the table.** Each is a finite, scripted sequence of answers. The k-th call of one listing or scan gets the k-th answer: a page, or a raised `ClientError`. `Finite` says that some answer ends the loop. Each loop method is proved against a recursive specification function (`Iot.Listing`, `ReadingStore.Scanned`). The method also returns, as a ghost value, the exact keyword arguments of every call it made.
- **`table.load()`.** It is represented by its outcome.
- **The clock (`time.time()`) and local time zone conversion.** These are parameters. `nowMs` is the rounded current time in milliseconds. A date is the epoch milliseconds of its local midnight.
- **`json_normalize`.** This is a function parameter. Only the column rename done by `list_to_df` is modelled.
- **Python `int()` on a float.** This truncates toward zero (`ReadingStore.Trunc`).
- **`if start_key:`.** This is Python truthiness: an empty key dict is false, and then the ExclusiveStartKey of the in-place-mutated `scan_kwargs` stays as it was (`ReadingStore.StartKeyAt`).
- **A scan on an unbound table.** `self.table.scan` on `None` raises an AttributeError before any request. That error is not caught by `except ClientError`, so it propagates (`TableNotSet`).

## Model

| member | source | states |
|---|---|---|
| `Iot.GetDevices` | device_energy_dashboard/data/iot.py:3-20 | The listing result equals `Listing` of the registry's answers. Exactly `LastCall + 1` calls are made, so the loop stops after the first page without `nextToken` or the first raised error. The first request carries the empty token. Request k+1 carries page k's `nextToken`. Every request has the same group, `recursive=False` and `maxResults=100`. |
| `Iot.LastCall` | device_energy_dashboard/data/iot.py:15-18 | The index of the first answer that ends the listing: that answer ends it, and none before it does. |
| `Iot.ListingIsConcatenation` | device_energy_dashboard/data/iot.py:9-20 | The listing is the in-order concatenation of the `things` of every page fetched, the last page included. If the last call raised, the result is that error and no partial list. |
| `Iot.ListingIgnoresLaterAnswers` | device_energy_dashboard/data/iot.py:15-18 | Answers after the one that ends the listing never affect the result: no further request is made. |
| `Iot.EmptyGroup` | device_energy_dashboard/data/iot.py:9-20 | A single page with empty `things` and no token yields an empty list. |
| `Api.GetDeviceList` | device_energy_dashboard/data/api.py:61-67 | `getdevicelist` lists the `device_energy_sensors` group. Every request names that group, with `recursive=False` and `maxResults=100` (iot.py:23-37). |
| `ReadingStore.Reading.constructor` | device_energy_dashboard/data/reading.py:15-22 | A new `Reading` has no table bound. |
| `ReadingStore.Reading.SetTable` | device_energy_dashboard/data/reading.py:31-56 | On a successful load it binds `Table(name)` and returns True. On ResourceNotFoundException it returns False and leaves the binding as it was. Any other ClientError is re-raised and leaves the binding as it was. |
| `Api.IsTableSet` | device_energy_dashboard/data/api.py:69-70 | Binds the table `device_energy-first`, with the three outcomes of `set_table`. |
| `ReadingStore.ScanAll` | device_energy_dashboard/data/reading.py:77-86 | The scan result equals `Scanned` of the store's answers. Exactly `LastCall + 1` calls are made. Call k uses the query's kwargs with `ExclusiveStartKey` set to `StartKeyAt(pages, k)`. |
| `ReadingStore.LastCall` | device_energy_dashboard/data/reading.py:85-86 | The index of the first answer without `LastEvaluatedKey`, or the first raised error, where the scan stops. |
| `ReadingStore.ScannedIsConcatenation` | device_energy_dashboard/data/reading.py:80-95 | A scan's result is the in-order concatenation of each fetched page's `Items`, where a page without `Items` contributes nothing. If a call raised, the result is that ClientError alone, with no partial readings. |
| `ReadingStore.StartKeyFromEarlierPage` | device_energy_dashboard/data/reading.py:79-82 | The first call has no ExclusiveStartKey. After a page with a truthy LastEvaluatedKey, the next call uses exactly that key. Any start key is a truthy key an earlier page returned. If no earlier key was truthy, there is none. |
| `ReadingStore.Reading.GetPeriodReadings` | device_energy_dashboard/data/reading.py:58-100 | Every request filters `sample_time BETWEEN int(start) AND int(end)` with the fixed projection, `ReturnConsumedCapacity='TOTAL'` and `ConsistentRead=True`. The result is the table's scan, or `TableNotSet` with no request when no table is bound. |
| `ReadingStore.Reading.GetLatestReadings` | device_energy_dashboard/data/reading.py:102-142 | The same as the period scan, with the filter `sample_time >= int(stop_time)`. |
| `ReadingStore.Trunc` | device_energy_dashboard/data/reading.py:71 | `int()` of a float truncates toward zero: the result is within one below a non-negative argument and within one above a negative one. |
| `ReadingStore.TruncIntegral` | device_energy_dashboard/data/reading.py:114 | `int()` leaves an integral time unchanged. |
| `ReadingStore.ScanRespectsFilter` | device_energy_dashboard/data/reading.py:71 | If the store returns only items its filter admits, every reading of a successful scan satisfies that filter. |
| `ReadingStore.WiderWindowKeepsMore` | device_energy_dashboard/data/reading.py:71 | An inclusive window inside another keeps a subset of what the wider one keeps. |
| `ReadingStore.Reading.GetPeriodReadingsAsWritten` | device_energy_dashboard/data/reading.py:58-100 | `get_period_readings` as written: the scan's outcome passes through the `except` branch, which logs `fromtimestamp(start)` and `fromtimestamp(end)` before `raise`. In any time zone within a day of UTC, with `start` at or after 253,402,387,200 ms (1978-01-12), no store ClientError reaches the caller: a store failure becomes the logging error. A successful scan is unchanged. The requests are those of the corrected scan. |
| `ReadingStore.Reading.GetLatestReadingsAsWritten` | device_energy_dashboard/data/reading.py:102-142 | `get_latest_readings` as written: the same, with `fromtimestamp(stop_time)` logged and `stop_time` at or after 253,402,387,200 ms. |
| `ReadingStore.StoreErrorMaskedByLogging` | device_energy_dashboard/data/reading.py:87-95 | When the first logged time is at or after 253,402,387,200 ms, the as-written `except` branch turns every store ClientError into the logging error. Every other outcome (success, unbound table) passes unchanged. No store ClientError comes out of it (also at reading.py:130-137). |
| `ReadingStore.StoreErrorReraisedWhenLogged` | device_energy_dashboard/data/reading.py:87-95 | When every logged time converts with `fromtimestamp`, the branch re-raises the store's ClientError unchanged, as the corrected scans do. |
| `Api.PastHrsMillisMovesBack` | device_energy_dashboard/data/api.py:141 | `past_hrs_millis(0)` is now. More hours give a strictly earlier instant, exactly 3,600,000 ms per hour. |
| `Api.DateToBounds` | device_energy_dashboard/data/api.py:130-139 | The bounds start at midnight, and the end of day is at or after midnight and before the next midnight. |
| `Api.DayBoundsTruncated` | device_energy_dashboard/data/api.py:136-139 | After `int()`, the day query covers midnight through midnight + 86,399,999. For a day that ends at or before the epoch, the end rounds up to the next midnight. |
| `Api.PastHoursWindow` | device_energy_dashboard/data/api.py:80 | `getReadingsInPastHrs(h)` keeps exactly the readings with `sample_time >= now - h*3,600,000`. |
| `Api.DayWindow` | device_energy_dashboard/data/api.py:93-95 | For a day that ends after the epoch, the day query is `BETWEEN midnight AND midnight + 86,399,999`. A reading exactly at midnight is kept; one at the next midnight is not. For earlier days see `Api.DayBoundsTruncated`. |
| `Api.DatePeriodWindow` | device_energy_dashboard/data/api.py:108-110 | The date-range query runs from the first date's midnight to the last date's midnight. With one date, it keeps only readings at that instant, which differs from the day query. Later readings of the last date are never kept. |
| `Api.StaleDefaultDay` | device_energy_dashboard/data/api.py:84 | As written, an omitted date is the date at import, since `dt.today()` is evaluated when the method is defined. When that differs from the day of the call, the day scanned is not the day of the call, while a given date is scanned as in the corrected version. |
| `Api.ReplaceAbsent` | device_energy_dashboard/data/api.py:53 | `str.replace` leaves a string without the pattern unchanged. |
| `Api.RenameStripsPrefix` | device_energy_dashboard/data/api.py:53 | The rename leaves a name without `readings.` unchanged and turns `readings.` + such a name into the name. |
| `Api.ProjectedColumnNames` | device_energy_dashboard/data/api.py:53-55 | The projected top-level fields keep their column names. Each nested `readings.f` column becomes `f`: `reading_time`, `power`, `rms_current`, `watt_hours` (projection at reading.py:72). |
| `Api.ListToDf` | device_energy_dashboard/data/api.py:50-59 | A list becomes the normalised frame, with its cells untouched and each column renamed. When normalisation yields the projected columns (`sample_time`, `device_id`, then `readings.f` for each nested field), the frame's columns are `sample_time`, `device_id`, `reading_time`, `power`, `rms_current`, `watt_hours`. Any other result is returned unchanged. |
| `Api.ProjectedFrameColumns` | device_energy_dashboard/data/api.py:53-55 | Renaming the projected columns one by one gives the six plain field names, in projection order (reading.py:72). |
| `Api.GetReadingsInPastHrs` | device_energy_dashboard/data/api.py:72-80 | Every scan request filters `sample_time >= now - h*3,600,000`. The result is the scan's readings as a renamed frame, or the scan's error. |
| `Api.GetReadingsInDay` | device_energy_dashboard/data/api.py:83-95 | Every scan request uses the day filter of the chosen date, from midnight to the end of that same day. The chosen date is the given one, or else the date at the time of the call: the corrected default. The result is the renamed frame or the error. |
| `Api.GetReadingsInDatePeriod` | device_energy_dashboard/data/api.py:97-110 | Every scan request filters `BETWEEN` the two dates' midnights. The result is the renamed frame or the error. |

## Findings

| source | as written | input that shows it | evidently intended | confidence | as-written member | corrected member |
|---|---|---|---|---|---|---|
| device_energy_dashboard/data/reading.py:87-95 | The `except ClientError` branches log `datetime.fromtimestamp(start)`, `(end)` and `(stop_time)`. These are millisecond times, which `fromtimestamp` reads as seconds, so it raises before `raise` runs (also at 130-137). | Any scan failure with `start = 1700000000000.0` (2023-11-14 in ms). The time maps to a year past 9999, and a conversion error replaces the store's ClientError. | Log the times, then re-raise the store's ClientError with its code and message. | not executed; high | `ReadingStore.Reading.GetPeriodReadingsAsWritten` | `ReadingStore.Reading.GetPeriodReadings` |
| device_energy_dashboard/data/api.py:84 | `getReadingsInDay(self, date=dt.today())`: Python evaluates the default once, when the method is defined at import. | The module is imported on day D and `getReadingsInDay()` is called on day D+1: day D is scanned. | The docstring's "Defaults to dt.today()": the day of the call. | not executed; high | `Api.StaleDefaultDay` | `Api.GetReadingsInDay` |

In the rest of the model, a failed scan yields `StoreError(e)` with the store's own error (`ReadingStore.Reading.GetPeriodReadings`, `GetLatestReadings`). A day query without a date uses the midnight of the day of the call (`Api.DayArgument`, used by `Api.GetReadingsInDay`).

## Left out

- `getRealtimeKWh` (api.py:113-125): it refers to an undefined `@stop` inside the query string, so it fails whenever it runs, and it is a Decimal/float sum. No intended meaning is invented for it.
- Logging: the `logger.info` call in the success path (item count, consumed capacity) and `log_error` are not modelled. The failure-path logging appears only in `ReadingStore.ExceptAsWritten`, for the finding above, and only as whether its `fromtimestamp` calls succeed.
- `response['Count']` and `response['ConsumedCapacity']`: they are read only by that logging, so the answers to a scan carry neither.
- What the store does inside: a scan answer is any page. Whether the store applies the filter is an explicit hypothesis (`ReadingStore.Honours`) of `ScanRespectsFilter`, not a guarantee. Strong consistency and the projection's effect on items are not modelled; the requests only carry them.
- The registry and the store determine each answer from the token or key sent. The model scripts the answers by call number. A token's value therefore affects only the request log, not the page returned.
- Exceptions other than `ClientError`: every failure of the registry, of `table.load()` and of `table.scan` is modelled as a `ClientError`. botocore's other exceptions, such as `EndpointConnectionError` for a network failure or `NoCredentialsError` for missing credentials, are not caught by `set_table` (reading.py:43) or by the scans' handlers (reading.py:87, 130). As written they propagate unchanged and unlogged, so the logging failure above does not replace them. The model does not represent them.
- Loops over a registry or store that never ends the chain: `Finite` is a precondition of every listing and scan.
- Floating point: times are exact reals. `date_to_bounds`'s float multiplication by 1000 and its rounding are not modelled, and neither is `round(time.time() * 1000)`: the rounded `nowMs` is a parameter.
- Local time zones: a date is its local midnight in ms, and the end of day is always midnight + 86,399,999.999 ms. Days lengthened or shortened by a daylight-saving change are not modelled. `Api.DateToBounds` states its bound under this fixed day length.
- `json_normalize` flattening and the DataFrame itself: normalisation is a function parameter. Only the column rename and the list/non-list split of `list_to_df` are modelled.
- The API's constructor and property setters (boto3 client creation; the `db` setter calling `istableset`) are wiring. The query methods take the bound `Reading` object as a parameter.
- `dash_app.py`, the Arduino sketch and `test.py` are not part of this model.
