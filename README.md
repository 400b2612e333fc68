# Hourly weather ETL: a verified model of extract, normalize and load

This project models the decision logic of an hourly OpenWeatherMap-to-PostgreSQL pipeline:

- **Fetcher** (`Extract`, from `weather_pipeline/extract.py`): one "current weather" request for one
  location, with bounded retries and exponential backoff. Four kinds of outcome are handled:
  - a transient status (429, 500, 502, 503, 504);
  - any other status of 400 or more;
  - a timeout, connection or HTTP error, which is retried;
  - any other exception from the request, which escapes at once.

  `Fetch` is a loop over a scripted sequence of outcomes, one per request. It returns the list of
  delays it would have slept.
- **Normalizer** (`Transform`, from `weather_pipeline/transform.py`): a map from a JSON
  payload to the thirteen curated fields that fails only when the payload is not an object or its
  `dt` is missing, null or cannot be converted to an instant. Every other field
  falls back to null. This module also holds the `_safe_get` key-path walk.
- **Repository** (`Load`, from `weather_pipeline/load.py`): a class holding the four tables in memory:
  - `dim.location`, read-only;
  - `raw.weather_api_responses`, append-only;
  - `mart.weather_observation`, upserted on `(location_id, observed_at)` with last write wins;
  - `mart.weather_latest`, refreshed with the newest observation per location and never shrunk.

  The data-quality gate is a method that reads the tables and then calls a pure decision function.

Shared pieces:
- `JsonModel` holds the payload type: null, booleans, integers, opaque non-integral numbers,
  strings, lists and objects.
- `Timestamps` converts a `dt` value to epoch seconds the way `int()` and
  `datetime.fromtimestamp(..., tz=utc)` do.

Instants are integer epoch seconds. Weather values pass through as the JSON values they are.

## Model

| member | source | states |
|---|---|---|
| `Timestamps.UtcFromUnix` | weather_pipeline/transform.py:8-11 | null gives no timestamp; any other value is an instant exactly when `int(ts)` succeeds and lies inside the datetime range (years 1 to 9999), and then the instant is `int(ts)`; otherwise an error; lists and objects are errors |
| `Timestamps.DigitsValue` | weather_pipeline/transform.py:11 | `int()` on a string of digits: it has a value exactly when the string is non-empty and all ASCII digits |
| `Timestamps.ParseIntLiteral` | weather_pipeline/transform.py:11 | `int()` on a string: a value exactly when the digits after an optional `+` or `-` parse, and then the value is that of the digits, negated after a `-` |
| `Timestamps.PyInt` | weather_pipeline/transform.py:11 | `int(v)` raises exactly on None, a list, a dict or a string that does not parse; a boolean is 0 or 1 |
| `Timestamps.DigitsRoundTrip` | weather_pipeline/transform.py:11 | `int(str(n)) == n` for every natural `n`: reading back the decimal form gives the number |
| `Timestamps.LeadingZero` | weather_pipeline/transform.py:11 | leading zeros do not change the value (`int("007") == 7`); with `DigitsRoundTrip` this fixes the value of every digit string |
| `Timestamps.LeadingZeros` | weather_pipeline/transform.py:11 | any number of leading zeros leaves the value of a digit string unchanged |
| `Timestamps.SignedDigits` | weather_pipeline/transform.py:11 | a digit string of value `n` parses to `n` bare or after `+`, and to `-n` after `-` |
| `Timestamps.PaddedRoundTrip` | weather_pipeline/transform.py:11 | `int("000" + str(n)) == n`, `int("+000" + str(n)) == n` and `int("-000" + str(n)) == -n`, for any number of zeros, none included |
| `Timestamps.NumericStringDt` | weather_pipeline/transform.py:8-11 | a numeric `dt` string in range is accepted as that instant: bare, after `+` or after `-`, with any number of leading zeros |
| `Timestamps.FloatAndBoolDt` | weather_pipeline/transform.py:8-11 | a float `dt` in range is accepted as its truncation toward zero; a boolean `dt` is the instant 0 or 1 |
| `Transform.WalkAppend` | weather_pipeline/transform.py:14-20 | walking the path `a + b` is walking `a`, then `b` from where `a` stopped; a stuck walk stays stuck |
| `Transform.WalkFirstStep` | weather_pipeline/transform.py:16-19 | the first step descends into an object under the first key; any other value or a missing key stops the walk |
| `Transform.SafeGet` | weather_pipeline/transform.py:14-20 | the value at the end of the key path when every step meets an object holding the next key; the default otherwise |
| `Transform.SafeGetEmptyPath` | weather_pipeline/transform.py:15-20 | an empty key path returns the input itself |
| `Transform.PathOfTwo` | weather_pipeline/transform.py:14-20 | a two-key `_safe_get` from an object is the value under the second key of the object under the first, or null |
| `Transform.SafeGetStuck` | weather_pipeline/transform.py:17-18 | once any prefix of the path is stuck, the answer is the default, whatever follows |
| `Transform.Normalize` | weather_pipeline/transform.py:23-59 | a non-object payload fails; an object fails with MissingDt exactly when `dt` is absent or null; on success `observed_at` is the converted `dt` and lies in the datetime range |
| `Transform.DtIsTheOnlyRequirement` | weather_pipeline/transform.py:28-30 | an object payload fails exactly when `dt` is missing, null or not convertible; every `dt` in range that `int()` converts (integers, 0 included, numeric strings, floats, booleans) is accepted, and `observed_at` is `int(dt)` |
| `Transform.MainFieldsDefaultToNull` | weather_pipeline/transform.py:32-48 | `main` absent or not an object: temperature, feels-like, humidity and pressure are null; otherwise each is the value under its key, or null |
| `Transform.WindAndCloudsDefaultToNull` | weather_pipeline/transform.py:33-51 | the same rule for wind speed and direction and for cloud cover |
| `Transform.PrecipitationPassesThrough` | weather_pipeline/transform.py:40-41 | 1-hour rain and snow are null unless `rain` or `snow` is an object holding `1h`, and then they are that value unchanged, not zero |
| `Transform.ContainerFieldsAreSafeGetPaths` | weather_pipeline/transform.py:32-51 | all seven fields read through the `main`, `wind` and `clouds` containers (temperature, feels-like, humidity, pressure, wind speed, wind direction, cloud cover) equal a `_safe_get` walk along the same two keys |
| `Transform.WeatherFromFirstElement` | weather_pipeline/transform.py:35-37 | weather category and description come from the head of `weather` when it is a non-empty list headed by an object; otherwise both are null |
| `Transform.VisibilityUnchanged` | weather_pipeline/transform.py:52 | visibility is the top-level value unchanged, or null when absent |
| `Transform.SingleTemperatureExample` | weather_pipeline/transform.py:23-59 | a payload with only `dt` = 1700000000 and `main.temp` = 10.5 gives that instant and that temperature, and every other field is null |
| `Extract.DataTimestamp` | weather_pipeline/extract.py:76-78 | no timestamp exactly when the payload is not an object or its `dt` is absent or null; otherwise an instant exactly when `int(dt)` succeeds within the datetime range, and then it is `int(dt)`; an error in every other case |
| `Extract.DataTimestampRule` | weather_pipeline/extract.py:74-78 | `data_timestamp` is absent unless the payload is an object with a non-null `dt`; an integer `dt` in range becomes that instant; a bad `dt` is an error |
| `Extract.Conclude` | weather_pipeline/extract.py:61-93 | for a request that is not retried: a caught transport error is re-raised and any other exception escapes; a non-transient status of 400 or more returns at once with its parsed body or `{"raw_text": …}` and no timestamp; otherwise an unparseable body raises (BodyNotJson), a `dt` that cannot be converted raises (BadTimestamp), these are the only failures, and a JSON body whose `dt` is good or absent returns that body with `data_timestamp` the instant of `dt`, or None; every result echoes the status and the request parameters |
| `Extract.Fetch` | weather_pipeline/extract.py:17-96 | with a retry budget of `max_retries` ≥ 0: between 1 and `max_retries + 1` requests and one sleep fewer; sleep k lasts `backoff * 2^k` and follows a retryable outcome k (a transient status or a caught transport error); the loop stops early on an outcome it does not retry, whose result is returned, or, with a negative backoff, on the first retryable outcome, where the sleep raises; after the last attempt the result is that of its outcome. A negative budget makes no request and raises |
| `Extract.BackoffTotal` | weather_pipeline/extract.py:55-58 | delays that follow the schedule add up to `backoff * (2^n - 1)` |
| `Extract.SleepBudget` | weather_pipeline/extract.py:49-58 | one fetch sleeps at most `backoff * (2^max_retries - 1)` in all |
| `Load.FindRaw` | weather_pipeline/load.py:79-83 | the lookup by ingestion id returns a row of the table with that id; absence means that no row carries the id |
| `Load.Upserted` | weather_pipeline/load.py:119-150 | read back the raw row, normalize it, insert or overwrite under `(location_id, observed_at)`: it fails exactly when the row is missing or does not normalize; on success no key is lost, at most one is added, a row from this ingestion id is present and every other row is unchanged (see `UpsertErrors`, `UpsertLastWriteWins`) |
| `Load.FindRawUnique` | weather_pipeline/load.py:121-124 | with increasing ids, looking up a row's id finds exactly that row |
| `Load.UpsertErrors` | weather_pipeline/load.py:121-130 | an id with no raw row is RawNotFound; a raw payload that does not normalize propagates its normalization error |
| `Load.UpsertLastWriteWins` | weather_pipeline/load.py:102-117 | after an upsert the key `(location_id, observed_at)` holds the normalized fields, the raw row's `ingested_at` and the source id; other keys keep their rows and no row is removed |
| `Load.UpsertIdempotent` | weather_pipeline/load.py:85-117 | repeating an upsert with the same ingestion id leaves the table as the first one did |
| `Load.UpsertSameKeyTwice` | weather_pipeline/load.py:102-116 | two raw rows that normalize to the same key leave one row under it, from the second upsert |
| `Load.UpsertKeepsKeying` | weather_pipeline/load.py:85-117 | every observation stays under the key made of its own location and `observed_at` |
| `Load.DqDecide` | weather_pipeline/load.py:220-229 | passes exactly when the latest count is at least max(1, expected), an observation exists and the lag is at most the limit; the row-count failure wins over the others, and "no observations" comes next |
| `Load.DqExamples` | weather_pipeline/load.py:220-229 | with 3 expected locations and a 180-minute limit: 2 latest rows fail; a lag of exactly 180 minutes passes; one second more is stale; 0 expected still needs 1 row |
| `Load.Smallest` | weather_pipeline/load.py:29 | the smallest id of a non-empty set, used to emit rows in `location_id` order |
| `Load.Repository.ActiveLocations` | weather_pipeline/load.py:24-35 | exactly the active locations, in strictly ascending `location_id` order |
| `Load.Repository.InsertRaw` | weather_pipeline/load.py:38-70 | appends one row with a fresh id and keeps every earlier row as it was; there is no deduplication; the new id finds the new row |
| `Load.Repository.UpsertObservation` | weather_pipeline/load.py:73-152 | the observation table becomes `Upserted` of the old one and the affected count is 1; on an error it is unchanged and the error is `Upserted`'s |
| `Load.Repository.RefreshLatest` | weather_pipeline/load.py:155-196 | each location with observations gets the row of its greatest `observed_at`, stamped with the refresh time; locations without observations keep their old latest row; nothing is deleted |
| `Load.Repository.MaxObservedAt` | weather_pipeline/load.py:210-218 | None exactly on an empty observation table; otherwise the greatest `observed_at` present |
| `Load.Repository.CheckDataQuality` | weather_pipeline/load.py:199-229 | fails on the row count exactly when there are fewer than max(1, expected) latest rows; fails on "no observations" exactly when the count is fine and the table is empty; passes exactly when the count is fine and some observation lies within the lag limit |

Where the code does less or more than its own docstrings and messages say, the model follows the code:
- **Normalizing `dt`.** The error message "Payload missing 'dt'" (transform.py:30) suggests that a
  missing timestamp is the only failure. `normalize_current_weather_payload` also fails in three more
  cases:
  - the payload is not an object;
  - `int(dt)` raises;
  - the epoch is outside `datetime`'s range.

  So an integer `dt` is accepted only within -62135596800 to 253402300799.
- **Refreshing the latest table.** The docstring of `pg_refresh_latest` says "Rebuild/refresh"
  (load.py:157). The statement upserts and deletes nothing, so a location whose observations are
  gone keeps its old latest row.
- **Retries.** The docstring of `fetch_current_weather` says it "Retries on transient errors
  (429/5xx/network)" (extract.py:36). Only timeouts, connection errors and HTTP errors are caught;
  any other exception from the request escapes on the first attempt. A `dt` that is present and
  cannot be converted makes `_utc_from_unix` raise, and the fetch raises with it.

## Left out

- Configuration lookup (`weather_pipeline/config.py`) and the Airflow DAG
  (`dags/weather_ingestion_hourly.py`): these are environment and secret lookups and scheduling.
  That includes the order in which the DAG runs the data-quality check and the refresh.
- Connections, cursors and transactions (`_connect`): the tables live in memory. Each method is one
  atomic step, and concurrent runs are not modelled.
- The HTTP request: `requests.get`, the URL built from `endpoint`, `timeout_seconds` and real JSON
  decoding. An outcome sequence replaces them. `Extract.Fetch` requires one scripted outcome for
  every request the loop may make (`max_retries < |net|`).
- `time.sleep`: replaced by the list of requested delays. The backoff base is a whole number of
  some unit (milliseconds, say), not a float of seconds; a negative base is modelled as the error
  `time.sleep` raises.
- `datetime.now` and SQL `NOW()`: `now` is a parameter.
- ISO-8601 formatting: timestamps are integer epoch seconds, and sub-second parts are dropped from
  the lag comparison.
- Non-finite JSON numbers: `NaN`, `Infinity` and `-Infinity`, which Python's `json` accepts, are not
  represented. Every non-integral number carries the integer `int()` gives, so the model cannot show
  `int()` raising on such a `dt`, nor the normalization failure or fetch error that follows.
- Floating-point weather values: they are opaque. A non-integral JSON number keeps its text, plus the
  integer that `int()` truncates it to. No arithmetic is done on them.
- `Timestamps.DigitsValue`: `int()` on a string accepts only an optional sign followed by ASCII
  digits. Python also accepts surrounding whitespace, underscores between digits and non-ASCII
  digits; those forms are not modelled.
- The store-generated `ingestion_id`: a counter stands in for it. The model relies on ids growing
  with insertion order (`IdsIncreasing`, kept by `Repository.Valid`), which the counter guarantees,
  and it uses an integer where the Python returns its string form.
- Database column types and constraints other than the two unique keys, such as foreign keys and
  `jsonb` normalization, are not modelled. The table definitions are not part of this model.
