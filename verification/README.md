# pvnode forecast model in Dafny

This project models the core of the pvnode Home Assistant integration, which
fetches a photovoltaic production forecast from the pvnode API. It has two
parts.

**The forecast series model (`pvnode.py`).**
- A forecast arrives as a list of records, each with a timestamp and a
  per-kWp power figure (`spec_watts`). The `Estimate` snapshot turns the list
  into two insertion-ordered dictionaries:
  - `watts`: power per timestamp, with the last write winning;
  - `wh_hours`: energy per hour, the mean of that hour's `spec_watts` times the
    installed capacity.
- The sensors' queries read those dictionaries relative to "now" with two
  linear scans:
  - a window sum with an early exit;
  - an at-or-before lookup.
- The `PVNode` client builds the API request and keeps one cached snapshot.

**The option validator (`config_flow.py`).**
- The API-key pattern `^pvn_[a-zA-Z0-9]{32}$`.
- The options step, which accepts or rejects a key.
- The user step, which splits the submitted fields into entry data and entry
  options.
- The numeric ranges of the form fields.

Modules:
- `Wrappers` (`wrappers.dfy`): `Option` and `Result`.
- `Series` (`series.dfy`): a Python dict as a sequence of entries. `Put` is
  dict assignment, so an existing key keeps its place. This module holds the
  two scans as loop methods, each proved against a specification function:
  - `IntervalValueSum` against `IntervalSum`;
  - `TimedValue` against `AtOrBefore`.
- `Forecast` (`forecast.dfy`):
  - the construction of both series, as recursive specification functions
    (`WattsOf`, `HourBuckets`, `HourlyOf`) and the two construction loops;
  - the `Estimate` class with its queries;
  - the peak-time search.
- `Client` (`client.dfy`): the `PVNode` class, its request and its cache.
- `ConfigFlow` (`config_flow.dfy`): the key pattern and the two flow steps as
  pure functions, and the range validators.

Time is modelled as integer microseconds of local time in the provider's
reporting zone. Under that model:
- truncation to the hour is `t - t % 3600000000`;
- the calendar day is `t / 86400000000`;
- the bounds `:59:59.000999` and `23:59:59.999999` are exact integers.

"Now" and the parsed response are parameters.

Most query properties hold when the snapshot is `Chronological()`, meaning
both series ascend and the hourly keys are on the hour. The constructor
proves this holds whenever the records arrive in time order.

Some behaviours of the code are kept exactly as written:
- The at-or-before lookup (`_timed_value`, pvnode.py:24-32) gives no value
  when the instant is at or after the last key. This is because the final
  `return None` runs whenever no later key exists. As a result, power "now"
  and current-hour energy read 0 during the last forecast step.
- The same lookup finds the previous entry when the current hour has none
  but lies between two entries (an hour the response skipped): current-hour
  energy then reports the hour before, not 0.
- The peak-time queries for today and tomorrow (pvnode.py:87-94) run the
  search as written, whose result can lie on another day (see "## Findings").
- The user step stores the API key without checking it against the pattern.
  Only the options step checks it.

## Model

| member | source | states |
|---|---|---|
| Series.Get | pvnode.py:58-59 | dict lookup finds a value exactly for the keys present; with unique keys it is the value stored under that key |
| Series.Put | pvnode.py:55 | dict assignment: the key set grows by the key; the key maps to the new value; every other key keeps its value; a new key goes last; an existing key keeps its position; unique keys are preserved |
| Series.PutAscending | pvnode.py:55 | assigning a key no smaller than all keys keeps the series ascending |
| Series.IntervalValueSum | pvnode.py:7-21 | the scan loop returns `IntervalSum`: keys below `begin` are skipped, and the scan stops at the first remaining key at or after `end` |
| Series.IntervalSumAscending | pvnode.py:7-21 | on an ascending series the scan sums exactly the values whose key lies in `[begin, end)` |
| Series.WindowSumEmpty | pvnode.py:7-21 | a window that holds no key sums to 0 |
| Series.IntervalSumIgnoresTail | pvnode.py:16-17 | nothing after the first key at or after both bounds is added, whatever follows it |
| Series.IntervalSumWholeSeries | pvnode.py:7-21 | over the full span of an ascending series the scan sums every value |
| Series.WindowSumSplit | pvnode.py:7-21 | splitting a window at a midpoint splits its sum |
| Series.TimedValue | pvnode.py:24-32 | the lookup loop returns `AtOrBefore`: the value just before the first key later than `at`, or nothing |
| Series.AtOrBeforeNone | pvnode.py:24-32 | on an ascending series there is no value iff the series is empty, `at` is before the first key, or `at` is at or after the last key |
| Series.AtOrBeforeBetween | pvnode.py:27-30 | an instant between two consecutive keys gets the earlier key's value |
| Forecast.HourOf | pvnode.py:56 | the truncated hour is on the hour and is the start of the hour that holds `t` |
| Forecast.DayOf | pvnode.py:136 | the date of `t` is the day whose `[00:00, 24:00)` holds `t` |
| Forecast.WattsKeys | pvnode.py:52-55 | the keys of `watts` are exactly the record timestamps, each once |
| Forecast.WattsLastWriteWins | pvnode.py:52-55 | a record that no later record overwrites leaves `spec_watts * kWp` at its timestamp |
| Forecast.WattsAscending | pvnode.py:52-55 | records in time order give an ascending power series |
| Forecast.HourBuckets | pvnode.py:56-61 | every bucket of `tmp` holds at least one `spec_watts` |
| Forecast.HourBucketsContent | pvnode.py:56-61 | the bucket of hour `h` holds exactly the `spec_watts` of the records in `h`, duplicates kept, in record order; it exists iff there is one |
| Forecast.HourBucketsShape | pvnode.py:56-61 | the bucket keys are the truncated record hours, each once, ascending when the records are in time order |
| Forecast.SpecWattsInNonEmpty | pvnode.py:56-61 | an hour has samples iff some record truncates to it |
| Forecast.MeanEntries | pvnode.py:63-64 | one energy entry per bucket, same order and key, valued mean times kWp |
| Forecast.HourlyLookup | pvnode.py:56-64 | `wh_hours[h]` exists iff some record falls in hour `h`, and then equals the mean of that hour's `spec_watts` times kWp |
| Forecast.HourlyShape | pvnode.py:56-64 | the keys of `wh_hours` are exactly the truncated record hours, on the hour, each once, ascending for records in time order |
| Forecast.HourlyMeanExample | pvnode.py:63-64 | kWp 4 and two records of one hour with 0.2 and 0.4 give 1.2 for that hour |
| Forecast.FillFromRecords | pvnode.py:51-61 | the first construction loop yields `WattsOf(records)` and `HourBuckets(records)` |
| Forecast.AverageHours | pvnode.py:63-64 | the second construction loop yields `MeanEntries(tmp)` |
| Forecast.Estimate.constructor | pvnode.py:46-64 | the snapshot holds kWp, the build time, `WattsOf` and `HourlyOf` of the records, and is chronological when the records are in time order |
| Forecast.DayScanSumsTheDay | pvnode.py:127-131 | on an ascending series with keys on the hour, the `[00:00, 23:59:59.999999)` scan of day `d` sums exactly the entries of day `d` |
| Forecast.RemainderScan | pvnode.py:72-79 | on an ascending series the scan from `now` to the next midnight sums the entries in `[now, midnight)`; with keys on the hour and `now` off the hour it starts at the next hour |
| Forecast.NextHoursScan | pvnode.py:120-124 | on an ascending series with keys on the hour, the `n`-hour scan from `:59:59.000999` of hour `H` sums exactly the keys `H+1h` to `H+nh` |
| Forecast.AtOrBeforeCases | pvnode.py:24-32 | on an ascending series, an instant between keys `j` and `j+1` gets entry `j`'s value, and an empty series, an instant before the first key or at or after the last key get no value |
| Forecast.AtOrBeforeAtKey | pvnode.py:24-32 | on an ascending series, looking up a key below the last key finds that key's own value |
| Forecast.Estimate.DayProduction | pvnode.py:127-131 | on a chronological snapshot, a day's production is exactly the sum of the entries of that day |
| Forecast.Estimate.EnergyToday | pvnode.py:67-69 | on a chronological snapshot, today's energy is the sum of the entries of the day holding `now` |
| Forecast.Estimate.EnergyTomorrow | pvnode.py:82-84 | on a chronological snapshot, tomorrow's energy is the sum of the entries of the next day |
| Forecast.Estimate.EnergyTodayRemaining | pvnode.py:72-79 | on a chronological snapshot, the remainder sums today's entries at or after `now`; today's total is the earlier part plus the remainder; off the hour, the hour under way is excluded |
| Forecast.Estimate.SumEnergyProduction | pvnode.py:120-124 | on a chronological snapshot, the sum over `n` hours covers exactly the keys `H+1h` to `H+nh`, never the current hour `H` |
| Forecast.Estimate.EnergyCurrentHour | pvnode.py:106-108 | on a chronological snapshot, the energy of the last hour at or before the current one while a later hour exists (the current hour's own entry when it has one, the previous entry when the hour was skipped); 0 before the first hour and from the last hour on |
| Forecast.Estimate.PowerProductionAtTime | pvnode.py:116-117 | on a chronological snapshot, power at `t` is the sample of the last key at or before `t` when a later key exists; otherwise 0 |
| Forecast.DayMax | pvnode.py:135-138 | the maximum over day `d`'s samples: none iff the day has no sample, otherwise attained by a sample of the day and not exceeded by any |
| Forecast.Estimate.MaxOnDay | pvnode.py:135-138 | the `max(...)` loop computes `DayMax` of `watts` |
| Forecast.Estimate.PeakProductionTimeAsWritten | pvnode.py:134-142 | fails iff day `d` has no sample; otherwise returns the first key of the whole series whose value equals the day's maximum |
| Forecast.PeakAsWrittenLeavesTheDay | pvnode.py:139-141 | for two zero samples at midnight of days 0 and 1, the search for day 1 returns day 0's timestamp, which is no peak of day 1 |
| Forecast.Estimate.PeakProductionTime | pvnode.py:134-142 | fails iff day `d` has no sample; otherwise returns a key on day `d` whose sample no sample of that day exceeds |
| Forecast.Estimate.PeakTimeToday | pvnode.py:87-89 | the search as written for the day holding `now`: fails iff that day has no sample, otherwise the first key of the whole series whose value equals that day's maximum |
| Forecast.Estimate.PeakTimeTomorrow | pvnode.py:92-94 | the search as written for the next day: fails iff that day has no sample, otherwise the first key of the whole series whose value equals that day's maximum |
| Client.BearerRoundTrip | pvnode.py:175-177 | the `Authorization` header carries exactly the configured key as a bearer token |
| Client.CacheTestAsWritten | pvnode.py:158 | the freshness test as written holds for every `last_update` |
| Client.StaleSnapshotPassesAsWritten | pvnode.py:158 | a snapshot 9 hours old passes the test as written, although it is older than the 8-hour window |
| Client.PVNode.constructor | pvnode.py:147-155 | the client holds the installation parameters and no snapshot |
| Client.PVNode.ForecastRequest | pvnode.py:164-177 | the request goes to the forecast endpoint with the key as bearer token, the configured location and geometry, no past days, one forecast day, and only `spec_watts` |
| Client.PVNode.GetEstimateAsWritten | pvnode.py:157-162 | with no snapshot it fetches once and caches the result; once a snapshot is cached it always returns it without fetching |
| Client.PVNode.GetEstimate | pvnode.py:157-162 | a snapshot younger than 8 hours is returned without a fetch; otherwise exactly one fetch builds and caches a new snapshot |
| ConfigFlow.ApiKeyPattern | config_flow.py:27 | the pattern matches iff the string is `pvn_` plus 32 ASCII letters or digits, optionally followed by one newline |
| ConfigFlow.ApiKeyOnlyOneNewline | config_flow.py:27 | any other suffix after the 32 characters is rejected |
| ConfigFlow.StepInit | config_flow.py:91-101 | no input shows the form; a non-empty key that fails the pattern re-shows it with `invalid_api_key` on the key field; otherwise an entry keeps every other submitted field and stores the key, or `None` when it is empty or missing |
| ConfigFlow.StepInitKeepsValidSubmission | config_flow.py:95-98 | a submission whose key matches is stored unchanged |
| ConfigFlow.StepInitIdempotent | config_flow.py:94-98 | resubmitting the stored options is accepted and stores the same options |
| ConfigFlow.StepUser | config_flow.py:41-58 | no input shows the form; otherwise an entry always results, titled with the name, with latitude and longitude as data and orientation, slope, kwp and api_key as options |
| ConfigFlow.UserStepSkipsKeyCheck | config_flow.py:43-56 | a key the options step rejects is stored as is by the user step |
| ConfigFlow.CoerceInt | config_flow.py:75 | `int()` keeps integers and truncates floats toward zero |
| ConfigFlow.ValidateSlope | config_flow.py:74-76 | slope is accepted iff it is 0..90 after coercion, so floats strictly between -1 and 91 |
| ConfigFlow.ValidateOrientation | config_flow.py:77-79 | orientation is accepted iff it is 0..360 after coercion, so floats strictly between -1 and 361 |
| ConfigFlow.ValidateKwp | config_flow.py:80-82 | kWp is accepted iff it is at least 1 after coercion, so floats from 1.0 up |

## Left out

- HTTP, JSON decoding and threading (pvnode.py:161, 178-179): a fetch is the record list the response parses into, passed in. `PVNodeConnectionError` is never raised by the modelled code, and no response status is checked.
- The clock, time zones, ISO-8601 parsing and daylight-saving changes (pvnode.py:48, 53-57, 102-103): "now" is a parameter, and timestamps are already microseconds of local time in the reporting zone.
- Floating-point rounding of `spec_watts * kWp` and of the hourly mean: the model uses exact real arithmetic.
- `watts` and `wh_hours` are class-level dicts shared by every `Estimate` (pvnode.py:42-43). The model gives each snapshot its own series.
- `last_update` is a read-only property that returns itself, yet `__init__` assigns it (pvnode.py:49, 111-113). As written, that assignment to a property without a setter raises `AttributeError`, so no `Estimate` is ever built; and reading the property would recurse without end. The model, and the pvnode.py:158 row of "## Findings", use the evidently intended plain build-time field.
- `power_production_now` (pvnode.py:97-99) is `PowerProductionAtTime(now)`; it has no separate member.
- Python's `or 0` after the lookups also maps a stored 0 to 0, which is the same number; it is modelled as the lookup's value or 0.
- Client.PVNode.ForecastRequest: a `None` key (stored when the options step accepts an empty key) would make the header concatenation raise; the model's key is always a string.
- The weather series, weather sensors and weather entity: the modelled `Estimate` defines none of them.
- Home Assistant glue: sensor.py, weather.py, coordinator.py, diagnostics.py and `__init__.py` are not part of this model. This includes the form schemas' default values and suggested values, and the host's storing of entries.
- `cv.latitude`, `cv.longitude` and the `str` validators of the schemas, and `vol.Coerce(int)` on strings: a numeric field is modelled as an integer or a float.
- ConfigFlow.StepInit: requires the submitted key to be a string or absent, as the schema's `str` validator guarantees.
- ConfigFlow.StepUser: requires every field the schema marks as required to be present, and the name to be a string.

## Findings

| source | as written | input that shows it | evidently intended | confidence | as-written member | corrected member |
|---|---|---|---|---|---|---|
| pvnode.py:139-141 | after computing the maximum of day `d`'s samples, the timestamp search runs over the whole series, so an earlier day's sample with the same value is returned | `watts` with a 0 W sample at midnight of day 0 and at midnight of day 1; the query for day 1 returns day 0's midnight | return a timestamp on day `d` whose sample is the day's maximum | not executed | Forecast.Estimate.PeakProductionTimeAsWritten, Forecast.PeakAsWrittenLeavesTheDay, Forecast.Estimate.PeakTimeToday, Forecast.Estimate.PeakTimeTomorrow | Forecast.Estimate.PeakProductionTime |
| pvnode.py:158 | the freshness test compares `last_update` with `last_update + 8h`, which always holds, so a cached snapshot is never refreshed | a snapshot built at time 0 and queried at 9 h is still returned | refetch when the snapshot is 8 hours old or older at the current time | not executed | Client.CacheTestAsWritten, Client.StaleSnapshotPassesAsWritten, Client.PVNode.GetEstimateAsWritten | Client.PVNode.GetEstimate |
