# Weather dashboard core, modelled in Dafny

This project models the logic core of a React weather dashboard, which is
built on the OpenWeatherMap API:

- **Day grouping of the five-day forecast** (`groupForecastByDay`). A flat
  list of three-hourly forecast items is folded into one bucket per date
  label, in order of first appearance. Each bucket is then summarised: its
  minimum and maximum temperature, its most frequent weather category, and
  an icon. The "Rain Expected" chip comes from the same items.
- **Display formatters of the weather service.** They cover temperature,
  wind speed, pressure and visibility. They always print metric units: °C,
  km/h and km. `getWindDirection` maps every bearing from -11.25° upward to one of 16
  compass points. Below that, some bearings give `undefined`.
- **The unit-system preference.** This covers the closed enumeration
  `metric | imperial | standard` and its label and display-name tables.
  It also covers the provider state: it is initialised from local storage
  with a fallback to metric, set by `setUnitSystem`, and written back to
  storage by an effect.

Module layout, one module per file:

| file | module | models |
|---|---|---|
| `wrappers.dfy` | `Wrappers` | `Option`, for `null`/`undefined` |
| `seqs.dfy` | `Seqs` | counting, first-appearance deduplication (the key order of a JavaScript object filled key by key), first index |
| `number_text.dfy` | `NumberText` | `Math.round`, stated by the interval it returns; integer rendering and `toFixed(1)`, the two renderings each with a parser and a round-trip lemma |
| `weather_api.dfy` | `WeatherApi` | `src/services/weatherApi.ts` formatters and `getWindDirection` |
| `weather_forecast.dfy` | `WeatherForecast` | `groupForecastByDay` and the "Rain Expected" test, as specification functions and imperative methods proved equal to them |
| `forecast_properties.dfy` | `ForecastProperties` | what the grouping and the summary promise, as lemmas |
| `units.dfy` | `Units` | `src/context/UnitsContextTypes.ts` |
| `units_context.dfy` | `UnitsContext` | `src/context/UnitsContext.tsx`: the class `UnitsProvider` with the state cell and the storage |

The two `reduce` calls that fill a `Record` are methods with loops:
`WeatherForecast.GroupByDate` and `WeatherForecast.TallyWeather`.
The `map` over the record's entries is `WeatherForecast.GroupForecastByDay`.
Each method is proved equal to a specification function: `DayKeys`,
`ItemsOn`, `TallyOf` and `Forecast`. The lemmas state their meaning.

Two choices of the code decide the day summary:

- **Ties for the most frequent category.** The pairwise `reduce`
  `weatherCounts[a[0]] > weatherCounts[b[0]] ? a : b` keeps the later tally
  entry unless the earlier one is strictly larger. So among tied categories
  the one first seen last wins: `["Clouds", "Rain"]` gives "Rain".
- **Icon fallback.** `iconItem?.weather[0].icon || items[0].weather[0].icon`
  falls back to the first item's icon when no item has the chosen category,
  and also when that item's icon is the empty string.

## Model

| member | source | states |
|---|---|---|
| WeatherForecast.ItemsOn | src/components/WeatherForecast.tsx:48-55 | the bucket of a date label holds as many items as the input has with that label, and every one of them carries it |
| WeatherForecast.DayKeys | src/components/WeatherForecast.tsx:48-57 | the key order of the grouped record, `Object.entries` order: each date label once, in order of first appearance; its meaning is stated by `Seqs.DedupMembership`, `Seqs.DedupDistinct`, `Seqs.DedupFirstAppearance` and `ForecastProperties.ForecastDateOrder` |
| WeatherForecast.GroupStep | src/components/WeatherForecast.tsx:49-53 | one more item appends to its own label's bucket only, and appends its label to the key order exactly when the label is new; a new label's bucket was empty |
| WeatherForecast.GroupByDate | src/components/WeatherForecast.tsx:48-55 | the grouping `reduce` yields the record whose keys are the date labels in first-appearance order and whose entry for each key is that label's bucket |
| WeatherForecast.TallyOf | src/components/WeatherForecast.tsx:63-67 | the tally has an entry for exactly the categories that occur |
| WeatherForecast.TallyOfCounts | src/components/WeatherForecast.tsx:63-67 | each tally entry is the number of occurrences of its category, an absent entry counting as 0 before its increment |
| WeatherForecast.TallyStep | src/components/WeatherForecast.tsx:64-66 | one more category increments its entry, starting from 0 when absent, and appends it to the key order exactly when it is new |
| WeatherForecast.TallyWeather | src/components/WeatherForecast.tsx:63-67 | the tallying `reduce` yields the categories in first-appearance order and the tally map |
| WeatherForecast.MinTemp | src/components/WeatherForecast.tsx:58-59 | `Math.min(...temps)` over a non-empty bucket; its meaning is stated by `WeatherForecast.MinTempIsMinimum` |
| WeatherForecast.MaxTemp | src/components/WeatherForecast.tsx:58-60 | `Math.max(...temps)` over a non-empty bucket; its meaning is stated by `WeatherForecast.MaxTempIsMaximum` |
| WeatherForecast.MinTempIsMinimum | src/components/WeatherForecast.tsx:58-59 | `Math.min(...temps)` is at most every item's temperature and equals one of them |
| WeatherForecast.MaxTempIsMaximum | src/components/WeatherForecast.tsx:58-60 | `Math.max(...temps)` is at least every item's temperature and equals one of them |
| WeatherForecast.MostFrequentIndex | src/components/WeatherForecast.tsx:69-71 | the pairwise `reduce` over a non-empty entry list returns one of its entries |
| WeatherForecast.MostFrequentIndexIsLastMaximum | src/components/WeatherForecast.tsx:69-71 | the kept entry has the largest count, and every later entry has a strictly smaller count, so the last maximal entry wins |
| WeatherForecast.FindMain | src/components/WeatherForecast.tsx:74 | `items.find` returns a position inside the bucket or nothing |
| WeatherForecast.FindMainIsFirst | src/components/WeatherForecast.tsx:74 | `items.find` returns the first item of the category, and nothing only when no item has it |
| WeatherForecast.DayIcon | src/components/WeatherForecast.tsx:74-75 | the found item's icon unless nothing is found or that icon is the empty string, then `items[0]`'s icon; its meaning is stated by `ForecastProperties.DayIconChoice` |
| WeatherForecast.CategoriesTallied | src/components/WeatherForecast.tsx:63-71 | a non-empty bucket has at least one category, and every listed category has a tally entry, so the `reduce` without a seed is defined |
| WeatherForecast.Summary | src/components/WeatherForecast.tsx:57-85 | the `map` callback on one non-empty bucket; its fields are characterised by `ForecastProperties.SummaryTemperatures`, `ForecastProperties.MainWeatherIsMostFrequent` and `ForecastProperties.DayIconChoice` |
| WeatherForecast.SummarizeDay | src/components/WeatherForecast.tsx:57-85 | the `map` callback's imperative tally and choice produce the specified day summary |
| WeatherForecast.DaysFor | src/components/WeatherForecast.tsx:57 | one day summary per label, in label order |
| WeatherForecast.DayKeysAreDates | src/components/WeatherForecast.tsx:48-57 | every record key is the date label of some input item |
| WeatherForecast.Forecast | src/components/WeatherForecast.tsx:47-86 | one day per distinct date label |
| WeatherForecast.ForecastStep | src/components/WeatherForecast.tsx:57-85 | the entry for the `i`-th key is its non-empty bucket, and that bucket's summary is the `i`-th day |
| WeatherForecast.GroupForecastByDay | src/components/WeatherForecast.tsx:47-86 | the method (the grouping `reduce`, then the `map` with its tally) returns exactly the specified forecast |
| WeatherForecast.RainExpected | src/components/WeatherForecast.tsx:328-330 | the chip shows exactly when some item has rain, has snow, or has a positive probability of precipitation |
| ForecastProperties.Positions | src/components/WeatherForecast.tsx:48-55 | the positions of the items carrying a label: ascending, all with that label, and every such position included |
| ForecastProperties.ItemsOnPositions | src/components/WeatherForecast.tsx:48-55 | a bucket is the input filtered by label, in input order: its `i`-th item is the input item at the `i`-th such position |
| ForecastProperties.DaysForAt | src/components/WeatherForecast.tsx:57 | the `i`-th summary is the summary of the `i`-th label's bucket |
| ForecastProperties.ForecastDay | src/components/WeatherForecast.tsx:48-57 | day `i` carries the `i`-th first-appearing label and exactly that label's bucket, which is non-empty |
| ForecastProperties.ForecastDayIsSummary | src/components/WeatherForecast.tsx:57-85 | day `i` of the forecast is the summary of the `i`-th label's non-empty bucket, so the per-day lemmas apply to every day |
| ForecastProperties.EmptyForecast | src/components/WeatherForecast.tsx:48-57 | an empty forecast list yields no days |
| ForecastProperties.ForecastDateOrder | src/components/WeatherForecast.tsx:48-57 | day labels are labels of input items, are pairwise distinct, and are ordered by the position of each label's first item |
| ForecastProperties.EveryItemInOneDay | src/components/WeatherForecast.tsx:48-55 | every input item is in the day labelled with its date, in no other day, and so in exactly one day |
| ForecastProperties.TotalItemsOfDaysFor | src/components/WeatherForecast.tsx:57 | the items over the days of some labels number the occurrences of those labels |
| ForecastProperties.ForecastKeepsEveryItem | src/components/WeatherForecast.tsx:48-57 | the days together hold as many items as the input: none lost, none duplicated |
| ForecastProperties.SummaryTemperatures | src/components/WeatherForecast.tsx:58-60 | `minTemp <= temp <= maxTemp` for every item of the day, both bounds attained, equal for a one-item day |
| ForecastProperties.MainWeatherIsMostFrequent | src/components/WeatherForecast.tsx:63-71 | the day's category occurs in the day and at least as often as any other; a different category with the same count first occurs earlier |
| ForecastProperties.DayIconChoice | src/components/WeatherForecast.tsx:74-75 | the icon is that of the first item of the day's category, or the first item's icon when that icon is the empty string |
| ForecastProperties.TieExampleTwo | src/components/WeatherForecast.tsx:69-71 | two categories once each (`["Clouds", "Rain"]`): the second wins |
| ForecastProperties.MajorityExample | src/components/WeatherForecast.tsx:69-71 | `["Clouds", "Rain", "Rain"]`: the category occurring twice wins |
| ForecastProperties.TieExampleFour | src/components/WeatherForecast.tsx:69-71 | `["Rain", "Clouds", "Clouds", "Rain"]`: "Clouds", the category entered last into the tally, wins the tie |
| Seqs.Count | src/components/WeatherForecast.tsx:63-67 | an occurrence count is at most the length and positive exactly for present values |
| Seqs.DedupMembership | src/components/WeatherForecast.tsx:48-57 | the keys of a record filled key by key are exactly the keys assigned |
| Seqs.DedupDistinct | src/components/WeatherForecast.tsx:48-57 | the keys of such a record are pairwise distinct |
| Seqs.DedupFirstAppearance | src/components/WeatherForecast.tsx:48-57 | such a record's keys are ordered by the position where each is first assigned |
| Seqs.OccurrencesOfDedup | src/components/WeatherForecast.tsx:48-57 | counting the occurrences of each distinct key once counts the whole input |
| NumberText.Round | src/services/weatherApi.ts:92 | `Math.round` returns the integer within half of its argument, taking the upper one at a half |
| NumberText.NatToString | src/services/weatherApi.ts:92 | a non-negative integer renders as decimal digits without a leading zero |
| NumberText.ParseNatToString | src/services/weatherApi.ts:92 | reading back the digits of a non-negative integer gives that integer |
| NumberText.IntToString | src/services/weatherApi.ts:92 | `${n}` prints canonical text: digits without a leading zero, a minus sign exactly for negative `n` and never before a zero, so -0 prints as "0" |
| NumberText.ParseIntToString | src/services/weatherApi.ts:91-101 | reading back the rendering of any integer, with its minus sign, gives that integer |
| NumberText.ToFixed1 | src/services/weatherApi.ts:104 | `toFixed(1)` prints at least "d.d", starts with "-" exactly for negative input, and reads back within half a tenth; halves round away from zero |
| NumberText.UnsignedTenthsRoundTrip | src/services/weatherApi.ts:104 | reading back `toFixed(1)` of a non-negative number gives its rounded count of tenths |
| WeatherApi.FormatTemperature | src/services/weatherApi.ts:91-93 | the text is an integer in canonical form (no leading zero, no "-0") followed by "°C", and that integer is `Math.round(temp)`, with no unit parameter |
| WeatherApi.FormatWindSpeed | src/services/weatherApi.ts:95-97 | the text is an integer in canonical form followed by " km/h", and that integer is `Math.round(speed * 3.6)` |
| WeatherApi.FormatPressure | src/services/weatherApi.ts:99-101 | the text is the pressure unchanged, in canonical form, followed by " hPa" |
| WeatherApi.FormatVisibility | src/services/weatherApi.ts:103-105 | the text ends in " km" and carries `visibility / 1000` to one decimal |
| WeatherApi.TemperatureExamples | src/services/weatherApi.ts:91-93 | 20.4 gives "20°C", 20.6 gives "21°C", -0.5 gives "0°C", -1.5 gives "-1°C" |
| WeatherApi.WindSpeedExample | src/services/weatherApi.ts:95-97 | 10 m/s gives "36 km/h" |
| WeatherApi.PressureExample | src/services/weatherApi.ts:99-101 | 1013 gives "1013 hPa" |
| WeatherApi.VisibilityExamples | src/services/weatherApi.ts:103-105 | 10000 m gives "10.0 km" and 8050 m gives "8.1 km" |
| WeatherApi.JsRemainder16 | src/services/weatherApi.ts:109 | JavaScript's `% 16` lies in `[0, 16)` for a non-negative and in `(-16, 0]` for a negative dividend, and differs from it by a multiple of 16 |
| WeatherApi.CompassPoints | src/services/weatherApi.ts:108 | the `directions` table has 16 points, with N, E, S and W every fourth entry |
| WeatherApi.WindDirection | src/services/weatherApi.ts:107-111 | `directions[Math.round(degrees / 22.5) % 16]`, `undefined` as nothing; its meaning is stated by `WeatherApi.WindDirectionDefined` and `WeatherApi.WindDirectionSector` |
| WeatherApi.WindDirectionDefined | src/services/weatherApi.ts:107-111 | a bearing reads a compass point exactly when its rounded sector is non-negative or a multiple of 16, so every bearing from -11.25 up reads one, and it is one of the 16 |
| WeatherApi.WindDirectionSector | src/services/weatherApi.ts:109 | point `k` covers `[(k - 0.5) * 22.5, (k + 0.5) * 22.5)`, and point 16 is north |
| WeatherApi.WindDirectionPeriodic | src/services/weatherApi.ts:109 | adding a full turn to a non-negative bearing keeps its point |
| WeatherApi.WindDirectionNorthExamples | src/services/weatherApi.ts:107-111 | 0, 360 and 348.75 read "N" |
| WeatherApi.WindDirectionPointExamples | src/services/weatherApi.ts:107-111 | 202.5 reads "SSW"; the boundary 11.25 reads "NNE" |
| WeatherApi.WindDirectionNegativeExamples | src/services/weatherApi.ts:107-111 | -360 reads "N" (the index is -0), and -22.5 reads nothing (the index is -1) |
| Units.FromTag | src/context/UnitsContextTypes.ts:3 | exactly the three tags name a unit system, each a different one |
| Units.TagRoundTrip | src/context/UnitsContextTypes.ts:3 | the string tag of each unit system reads back as that system |
| Units.Tag | src/context/UnitsContextTypes.ts:3 | the three string literals of the union; `Units.FromTag` and `Units.TagRoundTrip` state that they are distinct and read back |
| Units.Labels | src/context/UnitsContextTypes.ts:21-43 | pressure is "hPa" under every system; only imperial uses "mi" and "in"; the temperature and wind-speed labels each identify their system |
| Units.LabelsDistinct | src/context/UnitsContextTypes.ts:21-49 | different systems have different temperature labels, wind-speed labels and display names |
| Units.LabelValues | src/context/UnitsContextTypes.ts:21-49 | the temperature labels are "°C", "°F" and "K", the wind-speed labels "km/h", "mph" and "m/s", and standard is shown as "Scientific" |
| Units.DisplayName | src/context/UnitsContextTypes.ts:45-49 | the display-name table; `Units.LabelsDistinct` and `Units.LabelValues` state that the names are distinct and that standard is "Scientific" |
| UnitsContext.GetItem | src/context/UnitsContext.tsx:12 | reading storage gives the stored string when the key is present, and nothing otherwise |
| UnitsContext.InitialUnitSystem | src/context/UnitsContext.tsx:10-18 | a stored value that is one of the three tags is taken as it is; a missing, empty or any other value gives metric |
| UnitsContext.ReloadRoundTrip | src/context/UnitsContext.tsx:12-22 | re-initialising from storage that holds a system's tag reproduces that system |
| UnitsContext.UnitsProvider.constructor | src/context/UnitsContext.tsx:10-22 | mounting initialises from storage, and the first effect run stores the chosen tag |
| UnitsContext.UnitsProvider.SetUnitSystem | src/context/UnitsContext.tsx:24-26 | `setUnitSystem(s)` makes the current system `s` and leaves storage unchanged |
| UnitsContext.UnitsProvider.PersistEffect | src/context/UnitsContext.tsx:20-22 | the effect stores the current tag under "unitSystem", leaves other keys unchanged, and re-initialising reproduces the system |
| UnitsContext.UnitsProvider.ChangeUnitSystem | src/context/UnitsContext.tsx:20-26 | a change followed by its effect leaves the system and its stored tag equal to the new system |
| UnitsContext.UnitsProvider.CurrentLabels | src/context/UnitsContext.tsx:28 | `labels` is the label-table row of the current system |

## Left out

- Network calls to the weather and geocoding APIs are not modelled. Neither is the `App` component that orchestrates them, nor any rendering, JSX or theme code. They are I/O and presentation.
- `formatDate` and `formatTime` are not modelled. Their output depends on the locale and the time zone. The grouping instead takes the date-label function as a parameter, `key`.
- `getWeatherIconUrl` is not modelled. It only builds a URL from a string template.
- `WeatherApi.FormatTemperature`, `WeatherApi.FormatWindSpeed`, `WeatherApi.FormatVisibility` and `WeatherApi.WindDirection` work on exact reals. Binary floating point is not modelled, nor are NaN, the infinities, or the exponent notation JavaScript uses from 1e21 upward. The gap shows at ordinary inputs: JavaScript computes `visibility / 1000` in binary, so 2050 m gives 2.0499… and prints "2.0 km", where `FormatVisibility` prints "2.1 km"; 4050 m behaves the same way.
- `WeatherApi.FormatPressure` takes an integer pressure. The API reports whole hectopascals; a fractional value would print with its decimals.
- `ForecastProperties.ForecastKeepsEveryItem` counts items rather than comparing multisets. Together with `ForecastProperties.EveryItemInOneDay` and `ForecastProperties.ItemsOnPositions` it still pins every item to its one bucket.
- Object key order is modelled as first-assignment order. JavaScript enumerates integer-like keys (such as "7") first, in ascending numeric order. The model assumes date labels and weather categories are not such strings, and are not names such as `__proto__`.
- `WeatherForecast.MinTempIsMinimum` and `WeatherForecast.MaxTempIsMaximum` hold for non-empty buckets only. `Math.min()` of no values is `Infinity`. That case never arises, because every bucket has an item.
- `WeatherForecast.DayOf` gives an empty placeholder day for a label no item carries. `Forecast` never applies it to such a label, because every key has a non-empty bucket.
- Local storage is a map from strings to strings. Storage that throws (quota exceeded, access disabled) is not modelled.
- React scheduling is not modelled. The model does not capture the effect running after commit, being skipped when `unitSystem` did not change, or running twice in development mode. `ChangeUnitSystem` models one change followed by its effect.
- The context object, the `useUnits` and `useTheme` hooks and the theme preference are not modelled: they are outside the core. The hooks only add a throw when used outside their provider (src/hooks/useUnits.ts:8-10, src/hooks/useTheme.ts:6-8). The theme provider, imported at src/App.tsx:19, and its toggle are not part of this model.
