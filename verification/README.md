# knot conditions core, modelled in Dafny

This project models the pure decision and normalisation logic of the knot
sailing-conditions service (`main.py`): the go / marginal / no-go verdict, the
normalisation of the forecast provider's payload into a `current` record and a
truncated `hourly` series, the resolution of a request's spot or coordinates,
the parsing of National Weather Service wind text, the multi-source wind
summary, and the ten-minute TTL caches. Python's dynamically typed JSON values
are a `Json.Value` datatype; a Python exception raised inside the pure steps is
an explicit `Failure` (or an `ok == false` forecast step); speeds are `real`;
the clock is a `now` parameter.

Modules, one per concern of the source:

- `Wrappers` — `Option` and `Result`.
- `Json` — decoded JSON values, Python truthiness, `dict.get`, `isinstance(x, (int, float))` (which accepts `bool`), and the exceptions the pure code can raise.
- `Cache` — `set_cache` / `get_cache` and the map-cache twins over a `map<string, Entry>`.
- `Location` — spots, `clamp_number`, `get_spot_by_id`, and the request-location step of the conditions endpoint.
- `Sailability` — `get_sailability`.
- `Forecast` — `slice_hourly` and the current/hourly normalisation of the conditions endpoint.
- `Nws` — digit runs, `parse_wind_speed`, `mph_to_knots`, `cardinal_to_degrees`, and the decoding of the first NWS hourly period.
- `Wind` — `aggregate_wind`.

## Model

| member | source | states |
|---|---|---|
| Cache.Set | main.py:45-46 | the key now holds the value with expiry `now + ttl`; the key set grows by exactly that key; every other entry is untouched |
| Cache.Get | main.py:49-56 | an absent key misses; an entry is served while `now` is at most its expiry, leaving the cache alone; past expiry it misses and the key is evicted; no other entry changes |
| Cache.SetThenGetFresh | main.py:45-56 | in either cache (both keep entries 600 seconds) a value stored at `t` is returned by every lookup at or before `t + 600`, and the lookup changes nothing |
| Cache.SetThenGetExpired | main.py:45-56 | in either cache a lookup after `t + 600` misses and leaves the cache as it was before the store, minus the key |
| Cache.OtherKeysUnaffected | main.py:59-70 | for any ttl (so for the map cache as for the conditions cache), storing one key changes neither the answer nor the eviction for another key, and looking one key up keeps every other entry |
| Location.Clamp | main.py:73-74 | the result is at least the lower bound, at most the upper bound when the bounds are ordered, equal to the input inside the range and to the nearer bound outside it |
| Location.SpotById | main.py:77-78 | `None` exactly when no spot has the id; otherwise a configured spot with that id |
| Location.SpotByIdIsFirst | main.py:77-78 | of several spots with the id, the earliest in list order is returned |
| Location.Resolve | main.py:242-253 | an empty `spot` counts as absent; a non-empty unknown spot id fails with 404 exactly when no spot has it, and a known one always succeeds with that spot; without a spot a missing lat or lon fails with 400 and only then; no other error; on success a named spot's coordinates, and otherwise the query's, are clamped to [-90, 90] and [-180, 180] |
| Location.SpotOverridesQuery | main.py:242-248 | for every known spot the result is that spot with its own clamped coordinates, whatever lat/lon the query carried or omitted; in-range coordinates come through unchanged |
| Location.QueryCoordinatesClamped | main.py:249-253 | with no spot, in-range query coordinates pass through unchanged and out-of-range latitudes and longitudes land on the nearer bound |
| Location.EmptySpotIsAbsent | main.py:242-253 | an empty `spot` parameter resolves exactly like an absent one, to the query's clamped coordinates when both are given, even if a configured spot has the empty id |
| Sailability.GetSailability | main.py:81-92 | unknown exactly when the record is missing or its speed is not a number; go iff speed in [12, 25] and the gust (the speed when the key is absent) is a number at most 30; marginal iff speed in [8, 12) or (25, 30]; no-go otherwise; a present non-numeric gust with a go-band speed raises |
| Sailability.GustMonotone | main.py:88-92 | for a fixed speed, a stronger numeric gust never yields a better status |
| Sailability.AbsentGustUsesSpeed | main.py:85-92 | with the gust key absent the verdict depends on the speed bands alone |
| Sailability.BandExamples | main.py:88-92 | 15/20 kt is go, 9/9 marginal, 5/5 no-go, and 12 kt gusting 31 is no-go |
| Sailability.GetSailabilityNullSafe | main.py:85-92 | corrected rule: a null gust stands in for the speed, so a numeric speed with a null or numeric gust never raises, and it agrees with the as-written verdict wherever that one succeeds |
| Forecast.SliceHourly | main.py:95-104 | a falsy input, or one without a list under `time`, gives `None`; a truthy non-dictionary raises; otherwise exactly the list-valued keys survive, each as a prefix of its list of length min(len, count) |
| Forecast.SliceTwice | main.py:95-104 | slicing a sliced series again to `m` equals slicing the original to min(n, m); re-slicing with the same count is the identity |
| Forecast.SliceAligns | main.py:100-104 | if every input list has at least `count` items, every output list has exactly `count` |
| Forecast.FirstHourlyGust | main.py:283-284 | raises exactly when `hourly` is a truthy non-dictionary; a dictionary `hourly` with a non-empty `windgusts_10m` list yields its item 0, and every other non-raising input yields null |
| Forecast.Normalise | main.py:279-294 | `current` exists only for a truthy dictionary `current_weather` and copies its time, temperature, wind speed, wind direction and weather code; its gust is the live gust when non-null, else item 0 of a non-empty hourly `windgusts_10m`, else null; a falsy `current_weather` gives no `current`; the step fails exactly when the forecast is not a dictionary, or `current_weather` or `hourly` is a truthy non-dictionary (the latter read only when the live gust is null, and again by the slice); when ok, `hourly` is the 24-slot slice, otherwise absent |
| Forecast.LiveGustIgnoresHourly | main.py:281-284 | with a live gust, replacing the hourly block by anything leaves `current` unchanged |
| Forecast.BackfillMatchesHourly | main.py:282-294 | a backfilled gust equals slot 0 of the `windgusts_10m` series returned in the same response |
| Forecast.NullGustReachesSailability | main.py:285-292 | the normalised record always carries the gust key, so for a numeric speed the verdict raises iff the speed is in the go band and the gust is not a number, and a numeric gust is compared as it is |
| Forecast.StepVerdict | main.py:334 | the verdict is unknown exactly when there is no current record or its speed is not a number; for a numeric speed it raises exactly when the speed is in the go band and the gust is not a number |
| Forecast.FailedStepKeepsCurrent | main.py:275-296 | a step whose provider is recorded as failed (the slice raised) can still carry a current record and a go verdict |
| Forecast.MissingGustRaises | main.py:86 | as written, a 15-knot reading with no gust anywhere normalises to a null gust and the verdict raises; the null-safe rule gives go |
| Nws.DigitRuns | main.py:128 | every run is a non-empty block of digits; there is no run exactly when the text has no digit |
| Nws.RunsSplitAtSeparator | main.py:128 | the runs of `a + [c] + b`, for a non-digit `c`, are the runs of `a` followed by those of `b` |
| Nws.DigitBlockIsOneRun | main.py:128 | a non-empty all-digit text is one single run |
| Nws.DecimalValueOfShowNat | main.py:131 | the value of a run is the number it writes |
| Nws.MphToKnots | main.py:123-124 | a positive speed in mph is a smaller positive number of knots; zero stays zero |
| Nws.MphToKnotsMonotone | main.py:123-124 | a faster speed in mph converts to a faster speed in knots |
| Nws.ParseWindSpeed | main.py:127-134 | `None` exactly when the text has no digit; otherwise a non-negative value equal to the mean of the runs' values converted to knots (the lone-run shortcut agrees with it) |
| Nws.ParseSingleSpeed | main.py:127-134 | "n mph" parses to exactly n mph in knots |
| Nws.ParseSpeedRange | main.py:127-134 | "a to b mph" parses to the midpoint (a + b) / 2 in knots |
| Nws.CompassTableIsClockwise | main.py:138-155 | the table's keys are exactly the sixteen points and the i-th point clockwise from north maps to floor(45 i / 2) |
| Nws.CardinalToDegrees | main.py:137-156 | a result exists exactly when the upper-cased text is one of the sixteen points; the i-th point gives floor(45 i / 2); every result lies in [0, 337] |
| Nws.CardinalIgnoresCase | main.py:156 | lower-casing the text first does not change the result |
| Nws.CompassClockwiseIncreasing | main.py:138-155 | bearings strictly increase going clockwise from north |
| Nws.DecodeFirstPeriod | main.py:209-224 | an empty period list, a non-dictionary first period, a non-string `windSpeed`, or a truthy non-string `windDirection` raises, and nothing else does; on success the time is the period's `startTime` the speed is the parse of its `windSpeed` text (empty when absent), and the direction is the compass lookup of a string `windDirection` and absent otherwise |
| Nws.SkippedDirectionsAreNotPoints | main.py:213-216 | the directions the source skips, "" and any casing of "variable", are not compass points, so skipping them agrees with the lookup |
| Wind.Speeds | main.py:160-164 | a value is listed exactly when some sample carries it as its speed; empty exactly when no sample has a speed |
| Wind.SpeedsOfConcat | main.py:164 | the speed list keeps the samples' order and multiplicity: the speeds of a concatenation are the speeds of each part, in order |
| Wind.Directions | main.py:169 | empty exactly when no speed-carrying sample has a direction |
| Wind.Sources | main.py:183 | a name is listed exactly when some speed-carrying sample has it as a non-empty source |
| Wind.SourcesOfConcat | main.py:183 | the source list preserves order: the sources of `a + b` are those of `a` followed by those of `b` |
| Wind.Mean | main.py:165 | count times mean is the sum; some value lies at or below the mean and some at or above |
| Wind.Variance | main.py:166 | the population variance is non-negative and zero exactly when every value equals the mean |
| Wind.Aggregate | main.py:159-184 | `None` exactly when no sample has a speed; otherwise the mean and population variance are those of the speed list, the directions and sources are those of the samples, the mean lies between two samples' speeds, the variance is non-negative, and the direction list is empty exactly when no speed-carrying sample has a direction |
| Wind.MeanWithinBounds | main.py:164-165 | any bounds on the valid speeds also bound the mean |
| Wind.VarianceZeroIffAgreement | main.py:166 | the variance is zero exactly when all speed-carrying samples report the same speed |
| Wind.SingleSample | main.py:164-167 | a single sample is summarised as its own speed with zero spread |
| Wind.NoSamplesNoSummary | main.py:160-162 | an empty sample list gives no summary at all |

## Left out

- `fetch_json`, `fetch_json_with_headers`, `fetch_open_meteo_wind` and the network half of `fetch_nws_wind` (lines 202-208): HTTP I/O; their decoded results are inputs to the pure steps. In particular the lookup of `properties.periods` at line 208 is not modelled: `Nws.DecodeFirstPeriod` takes the periods as a list, so a null `properties` (which raises) and a null `periods` (read as empty) are not covered.
- The FastAPI app, CORS middleware, route decorators, `JSONResponse` / `HTTPException` and the static-file mount: web plumbing; errors are `Result` values.
- `load_spots`: file I/O and JSON decoding; the spot list is a parameter, and each spot's `lat` / `lon` are assumed to be numbers.
- `time.time` and `time.strftime`: the clock is the `now` parameter; `updated_at` is not modelled.
- The rest of `api_conditions` and `api_map`: the cache-key string (float formatting), the marine and tide fetches, the assembly of the response envelope and of the wind samples (lines 335-357, 370-409), and `asyncio.gather`; the per-spot work of the map endpoint is `Wind.Aggregate` over given samples.
- Wind.Aggregate: keeps the population variance and the list of directions instead of `std_dev`, the circular-mean direction and `round(.., 2)`, because `sqrt`, `sin`/`cos`/`atan2`, rounding and `int` truncation are floating-point steps; the mean direction is modelled only as present or absent.
- Wind.Sources: sources are strings, so Python truthiness of a source is "non-empty"; samples are typed records whose speeds are numbers or null.
- Nws.DigitRuns: only ASCII digits; Python's `\d` also matches other Unicode decimal digits.
- Nws.CardinalToDegrees: only ASCII case mapping; Python's `str.upper` also maps some non-ASCII letters onto ASCII ones (U+017F, long s, becomes "S").
- Nws.ParseWindSpeed: run values are exact; `float(val)` rounding of very long digit runs is not modelled.
- Numbers are exact reals throughout: float rounding, NaN and infinities (which Python's JSON decoder accepts) are not modelled.
- The caller's `if cached:` test, which also treats a cached empty dictionary as a miss, is outside the cache functions and not modelled.

## Findings

| source | as written | input that shows it | evidently intended | confidence | as-written member | corrected member |
|---|---|---|---|---|---|---|
| main.py:86 | `current.get("wind_gust_knots", speed)` falls back to the speed only when the key is absent, but the conditions endpoint always sets the key (line 290), possibly to `None`; `None <= 30` then raises `TypeError` and the request fails | a forecast whose `current_weather` is `{"windspeed": 15}` and whose hourly block has a `time` list but no `windgusts_10m` | a missing gust is read as the speed, giving "go" | medium, not executed | Forecast.MissingGustRaises | Sailability.GetSailabilityNullSafe |
