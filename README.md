# Weather widget: classifier and submission model

This project models the logic core of a browser weather widget (`src/App.jsx`).
The user enters a city. The widget geocodes the city, fetches the forecast for
the first candidate, and either shows a snapshot or an error. The model has two parts:

- **The weather-code classifier** (`classifier.dfy`, module `Classifier`). The
  forecast's integer weather code picks a text label (`getWeatherDescription`),
  an icon (`getWeatherIcon`) and a layer of decorative particles
  (`renderWeatherElements`). Each of the three has its own threshold ladder:
  code ≤ 1, ≤ 3, ≤ 21, ≤ 32, otherwise, and the first match wins. The model
  writes each ladder as the source does. `Classify` is an independent reference
  ladder, and the contracts prove that all three ladders factor through it.
- **The `fetchWeather` submission** (`fetch.dfy`, module `FetchWeather`). The
  `useState` slots `weatherData`, `loading` and `error` are the fields of the
  class `WeatherState`. `Submit` runs the source's assignments in order:
  `setLoading(true)` and `setError("")` (method `Start`), then either the
  snapshot or the `catch` clearing, then the `finally` reset (method `Finish`).
  The results of the two network calls are inputs of type `Fetched<T>`. Each is
  either the parsed JSON value or the message of the thrown error. The local
  hour is an input too (`0 <= hour < 24`). The pure functions `Resolve` (the
  `try` block) and `Settled` (the resulting state) are the specification of
  `Submit`.

While a submission is in flight, the previous snapshot stays on screen (`Start` keeps
`weatherData`). It is cleared only when a failure reaches the `catch`.

`wrappers.dfy` holds the `Option` type. It stands for JavaScript's `null`
and `undefined`.

`precipitation_probability[currentHourIndex]` is read without a bounds check.
In JavaScript an index past the end gives `undefined` and does not throw, so
the snapshot is still built and shown. `Snapshot.precipitationProbability` is
therefore an `Option`, `None` past the end of the series, and the model puts no
precondition on the series length.

The snapshot's `hourlyTemperatures` (src/App.jsx:175-178) is built and stored
but never rendered: the result panel shows only the icon, location,
temperature, label, wind speed and precipitation.

## Model

| member | source | states |
|---|---|---|
| Classifier.Classify | src/App.jsx:195-206 | every integer code is in exactly one bucket: ≤1 Clear Skies, 2..3 Partly Cloudy, 4..21 Rainy, 22..32 Snowy, >32 Mixed Conditions (each as an if-and-only-if; no gap, no failure for out-of-range codes) |
| Classifier.ClassifyMonotone | src/App.jsx:195-206 | the ladder is ascending: a higher code never falls into a lower bucket |
| Classifier.Description | src/App.jsx:194-207 | the label ladder gives, for every code, the label of the bucket `Classify` picks |
| Classifier.CategoryLabelInjective | src/App.jsx:196-205 | the five labels are pairwise distinct |
| Classifier.DescriptionSameIffSameBucket | src/App.jsx:194-207 | two codes get the same label exactly when they are in the same bucket |
| Classifier.WeatherIcon | src/App.jsx:209-215 | the icon ladder gives, for every code, the icon of the bucket `Classify` picks, always at size 96 |
| Classifier.WeatherIconSameIff | src/App.jsx:210-214 | two codes get the same icon exactly when they share a bucket, or when both are Partly Cloudy or Mixed Conditions (the gray Cloud is reused for codes > 32) |
| Classifier.Spawn | src/App.jsx:13-15 | `[...Array(n)].map((_, i) => …)` yields exactly n particles, and particle i has the given kind and index (key) i |
| Classifier.SpawnKeysDistinct | src/App.jsx:13-15 | the spawned particles' keys are pairwise distinct |
| Classifier.WeatherElements | src/App.jsx:8-123 | the particle ladder renders `null` exactly for Mixed Conditions; otherwise it renders the bucket's particle kind, with the bucket's count, indexed 0..n-1 |
| Classifier.ParticleCountByBucket | src/App.jsx:9-121 | 20 rays, 15 clouds, 100 raindrops, 50 snowflakes, or 0, by bucket; never more than 100; the count is 0 exactly when the label is "Mixed Conditions" |
| Classifier.LaddersAgree | src/App.jsx:9-121 | codes with the same label get the same icon and the same particle layer |
| FetchWeather.SliceJS | src/App.jsx:175-178 | JavaScript `slice`: never fails and is never longer than the array; for non-negative bounds its length is min(end,len) - min(start,len), element i is `s[start+i]`, and it is empty when end ≤ start |
| FetchWeather.SliceNegativeStart | src/App.jsx:175-178 | a negative start counts from the end of the array, as JavaScript `slice` does |
| FetchWeather.BuildSnapshot | src/App.jsx:169-179 | location is the candidate's `display_name`; temperature, code and wind come from `current_weather`; precipitation is `precipitation_probability[hour]` when the hour is in range and `undefined` otherwise; the hourly temperatures hold at most 6 entries, entry i being `temperature_2m[hour+i]` |
| FetchWeather.HourlyTemperaturesLength | src/App.jsx:175-178 | the snapshot holds min(6, max(0, \|temperature_2m\| - hour)) hourly temperatures: fewer near the end of the series, with no padding and no failure |
| FetchWeather.Resolve | src/App.jsx:149-179 | the `try` block throws exactly when geocoding fails, finds no candidate, or the forecast fails; the first failure's message wins; an empty list throws "City not found"; otherwise it builds the snapshot from the first candidate |
| FetchWeather.Settled | src/App.jsx:145-191 | after a submission `loading` is false; the snapshot is cleared exactly when the `try` threw, and the error is then its message; on success the error is "" and the snapshot is the fresh one; an empty geocode list gives "City not found" with no snapshot |
| FetchWeather.LondonExample | src/App.jsx:169-179 | a London lookup at hour 9 with 24 hours of data gives a snapshot with "London", 15 degrees, label "Clear Skies", no error, `precipitation_probability[9]`, and whose hourly temperatures are exactly the six values `temperature_2m[9..15]` |
| FetchWeather.WeatherState.constructor | src/App.jsx:140-142 | initial state: no snapshot, not loading, empty error |
| FetchWeather.WeatherState.Start | src/App.jsx:146-147 | before the first `await`: loading is shown, the error is cleared, and the previous snapshot is kept |
| FetchWeather.WeatherState.Finish | src/App.jsx:169-191 | success stores the snapshot; a thrown error stores its message and clears the snapshot; `finally` always clears `loading` |
| FetchWeather.WeatherState.Submit | src/App.jsx:145-192 | one submission leaves the slots equal to `Settled` of its inputs, whatever they held before |
| FetchWeather.FailureAfterSuccess | src/App.jsx:186-188 | a forecast failure after a successful lookup clears the earlier snapshot and shows the failure's message |
| FetchWeather.LastSubmissionWins | src/App.jsx:169-188 | after two submissions in a row, the state is that of the second one alone |

## Left out

- `sw.js`: the service worker only opens a cache and pre-caches fixed paths. That is browser I/O with no logic to state.
- Network I/O: `fetch`, URL construction (including the use of `lat` and `lon`) and `.json()` parsing. Their results are the `Fetched` inputs. Malformed JSON, and a field missing so that reading it throws, count as a `Failed` result with that error's message.
- Missing or `null` fields whose read does not throw: the inputs are typed records, so a forecast without `current_weather.weathercode` (every `<=` of the ladders is then false, giving "Mixed Conditions", the gray Cloud and no particles), a candidate without `display_name`, or `null` entries in `precipitation_probability` are not modelled.
- Hourly series the widget requests but never reads (`weathercode`, `windspeed_10m`): not modelled.
- `new Date().getHours()`: the wall clock is the `hour` parameter, with `hour < 24`.
- `Math.random()` sizes, positions, durations and delays, `window.innerHeight`, and every `motion` or `controls.start` animation parameter: randomness, floating point and a foreign animation library. Only each particle's kind and index remain. The key string `ray-${i}` is modelled by the index alone.
- JSX rendering and the lucide icon components: an icon is a value (glyph, colour class, size), not a rendered element.
- Overlapping submissions: each submission is modelled as one atomic transition. The submit button is `disabled={loading}` (src/App.jsx:249), which keeps a second submission from starting while `loading` is true; that guard is what makes the one-step model fit. If two submissions did interleave, the outcome would not simply be the last response's: a failed first submission that resolves after the second one's `setError("")` leaves its error message beside the second one's snapshot, and its `finally` clears `loading` while the second is still in flight. Interleaved executions are not modelled.
- Temperatures, wind speed and precipitation are JavaScript numbers. The model uses `real`, and the weather code is an `int`.
