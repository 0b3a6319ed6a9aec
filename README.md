# Weather data resolution (weatherio-sam, `public/script.js`)

This project models the data-resolution core of the weather page script:
how it turns a location and a day selection ("today", "tomorrow",
"dayafter") into the one record the page shows, with its "Source:" label.

- **Icons** — `weatherCodeToIcon`: five fixed code lists tested in order, with
  a fallback icon. The lists are disjoint, so each icon is produced for exactly
  the codes of its own list.
- **Forecast** — the provider part of `fetchWeather`:
  - choose the first day bucket labelled with the requested date, else the first bucket;
  - reject an empty hourly list;
  - average temperature, humidity and wind, sum precipitation, round humidity (`Math.round`);
  - take the condition code and text from the middle hour.
- **Cache** — the forecast cache stored under "weatherCache". It is a class
  `WeatherCache` over a `map<string, Entry>` keyed by `"lat,lon,date"`. An
  entry is served while it is less than 15 minutes (900000 ms) old, and a put
  overwrites just its own key.
- **Overrides** — `loadWeather`'s rules for overrides:
  - the dateKey → day offset mapping;
  - `fetchOverride`'s rule that a reply without `newValues` counts as no override;
  - the object-spread merge, where override fields win;
  - the label `Override (v<version>)` or `API`.
- **Locations** — `initLocation`'s rule: a stored object is used only when it
  and its `lat` and `lon` are truthy; otherwise the default location
  (Hyderabad) is used.
- **Pipeline** — `fetchWeather` as a method that reads and writes the cache,
  and a `Session` class for the page's module-level state. Its methods
  `InitLocation` and `LoadWeather` assign `locationData`, `currentDateKey`,
  `currentWeather` and `currentOverride` as the script does.
- **JsValues** supports the rest: JSON values, JavaScript truthiness, property
  access, and the text a template literal makes of a value. That text is used
  for the cache key and the version label.

The model's inputs stand in for the browser:
- `now` is the clock reading, in milliseconds.
- `dateOf` is `getDateString`, the calendar date for a day offset. It is
  `None` when `getDateString` throws, as it does for a time zone that is not a
  valid zone name.
- `ProviderReply` and `OverrideReply` are the two HTTP replies, already parsed.
- `numText` is the host's formatting of non-integral numbers.

Integral numbers of magnitude at most 2^53 are printed by the model itself, as
their exact decimal digits.

The script has these behaviours, which the model follows:
- An override fetch that fails ends the load in the same `catch` as a weather
  failure. The status line shows "Failed to fetch override" and nothing is
  rendered. It does not fall back to the API record. By then `currentWeather`
  and the cache have already been updated.
- There is no request-generation guard and no "used-default" marker.
- The labels are exactly `API` and `Override (v<version>)`. If the reply
  lacks a version, the label reads `Override (vundefined)`.
- Freshness is measured from the time the entry was stored, not from the
  previous read. Two loads within 15 minutes of each other return the same
  summary only when the entry was stored less than 15 minutes before the
  second load. `RepeatServesSameSummary` proves the code's version.
  `ServedEntryCanExpireAtOnce` shows an entry that is served, then missed one
  millisecond later.
- A provider reply with no day bucket at all is not handled by the script:
  reading `hourly` of `undefined` throws a TypeError. The model's error
  `NoDayBucket` carries the V8 engine's message for that TypeError.
- `getDateString` runs before the `try` of `loadWeather`. When it throws (a
  stored location whose `tz` is not a valid zone name, which `initLocation`
  accepts), `currentDateKey` has already been set. Nothing is fetched, no
  status is shown, and the cache is unchanged. The model's outcome for this
  is `DateUnavailable`.
- A stored latitude or longitude of 0 is falsy, so it is replaced by the
  default location. The string "0" is truthy and is kept.

## Model

| member | source | states |
|---|---|---|
| `Icons.CodeToIcon` | public/script.js:158-177 | each icon is produced exactly for the codes of its own list (113 for clear sky), and the overcast icon exactly for codes in no list |
| `Icons.CodeGroupsDisjoint` | public/script.js:158-177 | no code belongs to two of the five lists |
| `Icons.GlyphInjective` | public/script.js:159-176 | the six emoji are pairwise distinct, so the icon shown identifies the group |
| `Icons.DefaultCodes` | public/script.js:137-176 | code 113 maps to the sun; the code 0, used when an hour has no code, maps to the overcast fallback |
| `Forecast.FindBucket` | public/script.js:123 | the index found is the first bucket whose date equals the requested date; none is found only when no bucket has that date |
| `Forecast.SelectBucket` | public/script.js:122-124 | a matching bucket is chosen when one exists; otherwise the first bucket is chosen; nothing is chosen only when the list is empty |
| `Forecast.SelectBucketPicksFirstMatch` | public/script.js:123-124 | the earliest bucket with the requested date is the one chosen, even when later buckets match too |
| `Forecast.Round` | public/script.js:141 | the result is the nearest integer, with halves rounded up (`Math.round`) |
| `Forecast.MidIndex` | public/script.js:136 | for a non-empty list, `floor(n/2)` is a valid index and the middle one |
| `Forecast.Summarize` | public/script.js:126-149 | an empty hourly list is the "No hourly data" error. Otherwise precipitation is the sum of the readings, missing ones counting 0. Temperature and wind times the count equal that sum. Humidity is the rounded mean. Icon and text come from the middle hour |
| `Forecast.Aggregate` | public/script.js:118-127 | a non-2xx reply fails with "Failed to fetch weather data"; a reply with no bucket fails; otherwise the selected bucket is summarised |
| `Forecast.TotalBounds` | public/script.js:129-134 | a sum of n readings lies between n times the lowest and n times the highest possible reading |
| `Forecast.MeanBetween` | public/script.js:129-130 | an average lies between the lowest and highest reading |
| `Forecast.TotalAppend` | public/script.js:129-134 | sums add over concatenation, so the left fold's order does not affect the result |
| `Forecast.TotalOfMissing` | public/script.js:130-133 | hours whose field is missing all count as 0 and sum to 0 |
| `Forecast.ReadingAtMostTotal` | public/script.js:131-134 | with non-negative amounts, the precipitation sum is non-negative and at least every single reading |
| `Forecast.SummaryTempWithinSamples` | public/script.js:140 | the daily temperature lies between the coldest and warmest hour |
| `Forecast.SummaryWindWithinSamples` | public/script.js:142 | the daily wind speed lies between the lowest and highest hourly reading |
| `Forecast.SummaryHumidityIsPercentage` | public/script.js:141 | humidity readings in 0..100 give a whole-number humidity in 0..100 |
| `Forecast.SummaryPrecipAccumulates` | public/script.js:131-143 | precipitation is the count times the mean, never negative, and never below the mean |
| `Forecast.UnmatchedDateUsesFirstBucket` | public/script.js:122-127 | a date that labels no bucket is not an error: the first bucket is summarised |
| `Forecast.AggregationExamples` | public/script.js:129-146 | readings 0.0, 2.0, 3.0 give precipitation 5.0; humidity 40 and 41 gives 41; a middle hour with no code and no text gives the overcast icon and "" |
| `JsValues.NatTextRoundTrip` | public/script.js:219 | the decimal text of a natural number is non-empty, all digits, and reads back as that number |
| `JsValues.IntTextInjective` | public/script.js:104 | different integers print differently |
| `JsValues.IntegralNumberText` | public/script.js:104 | an integral coordinate or version prints as its decimal digits, with no comma |
| `Cache.CacheKeyInjective` | public/script.js:104 | when the coordinate texts hold no comma, equal keys `lat,lon,date` mean equal latitude, longitude and date |
| `Cache.WeatherCache.constructor` | public/script.js:105-110 | the table starts empty |
| `Cache.WeatherCache.Get` | public/script.js:112-115 | a stored summary is returned exactly when an entry exists and `now - timestamp < 900000`, and then it is that entry's data |
| `Cache.WeatherCache.Put` | public/script.js:151 | the key now maps to `{data, timestamp: now}` and every other key keeps its entry |
| `Cache.PutThenLookup` | public/script.js:151 | right after a put, a lookup of that key at the same time hits; lookups of other keys answer as before |
| `Cache.LookupExpiry` | public/script.js:113 | an entry is served exactly until 15 minutes after its timestamp |
| `Cache.LookupAntitone` | public/script.js:113 | a hit at a later time implies the same hit at any earlier time |
| `Overrides.DateOffset` | public/script.js:204 | "tomorrow" selects offset 1, "dayafter" offset 2, any other key offset 0 |
| `Overrides.ToRecord` | public/script.js:139-149 | the summary object has exactly the seven fields of the script: the summary's temperature, humidity, wind, precipitation and text, the icon's emoji, and `source` "api" |
| `Overrides.EffectiveOverride` | public/script.js:190 | a reply is an override exactly when it is truthy and its `newValues` is truthy, and then it is that reply |
| `Overrides.Merge` | public/script.js:215-218 | with an override, each of its fields takes the override's value and every other field keeps the base value; without one, the base record is kept |
| `Overrides.Label` | public/script.js:216-219 | the label is "API" exactly when no override applies; otherwise it is "Override (v" + version text + ")" |
| `Overrides.NoNewValuesMeansApi` | public/script.js:190-219 | a reply without `newValues`, as after the override was removed, shows the base record labelled "API" |
| `Overrides.OverrideOneField` | public/script.js:215-219 | overriding one field changes that field only, and the label names the version |
| `Overrides.OverrideExample` | public/script.js:215-219 | a base temperature of 20 overridden with 25 at version 3 shows 25, keeps the text, and reads "Override (v3)" |
| `Locations.ResolveStoredLocation` | public/script.js:57-72 | the stored object is used exactly when it and its lat and lon are truthy; otherwise the default is used. Either way both coordinates are truthy |
| `Locations.ZeroCoordinateFallsBack` | public/script.js:62-65 | a latitude or longitude of 0 falls back to the default; the strings "0" are kept |
| `Pipeline.FetchWeather` | public/script.js:103-155 | a fresh entry is returned without the provider. Otherwise the reply is aggregated, and on success stored under the key with `now`. The result and the new table match `FetchStep` |
| `Pipeline.FetchHitIgnoresProvider` | public/script.js:112-115 | a fresh entry is served as stored, whatever the provider would reply, and the table is unchanged |
| `Pipeline.FetchFailureLeavesCache` | public/script.js:119-127 | a failed fetch, including "No hourly data", leaves the table unchanged |
| `Pipeline.FetchChangesOnlyItsKey` | public/script.js:151 | a fetch changes at most its own key. A successful miss sets that key to `{data: summary, timestamp: now}` |
| `Pipeline.RepeatServesSameSummary` | public/script.js:112-151 | after a successful fetch the summary is stored. Any fetch of that key while the entry is fresh returns it and changes nothing. This covers 15 minutes after a provider fetch |
| `Pipeline.ServedEntryCanExpireAtOnce` | public/script.js:113 | an entry served 1 ms before expiry is not served 1 ms later, and the provider reply is used instead |
| `Pipeline.Session.Start` | public/script.js:36-41 | start-up state: `currentDateKey` "today", no weather, no override; the location is initialised when someone is signed in |
| `Pipeline.Session.InitLocation` | public/script.js:57-72 | `locationData` becomes the resolved stored location; the rest of the state is unchanged |
| `Forecast.Reading` | public/script.js:130 | one hour's reading of a field: its value, or 0 when the field is absent |
| `Forecast.Total` | public/script.js:129-134 | the `reduce` fold: readings added from the left, starting at 0 |
| `Forecast.Mean` | public/script.js:129-130 | the `avg` of a non-empty list: the mean times the sample count is the total |
| `Forecast.CodeOf` | public/script.js:137 | the middle hour's condition code, 0 when absent |
| `Forecast.TextOf` | public/script.js:144-146 | the middle hour's description, "" when absent |
| `Forecast.Message` | public/script.js:119-188 | the status text of each error: "Failed to fetch weather data", the TypeError for a missing bucket, "No hourly data", "Failed to fetch override" |
| `Icons.KnownCode` | public/script.js:159-174 | a code is known when one of the five tests recognises it |
| `Icons.Glyph` | public/script.js:159-176 | the emoji of each icon, code point for code point |
| `Cache.Fresh` | public/script.js:113 | an entry is fresh when `now - timestamp < 15 * 60 * 1000` |
| `Cache.Lookup` | public/script.js:113-114 | a lookup yields the entry's data when the key is present and its entry fresh, and nothing otherwise |
| `Cache.CacheKey` | public/script.js:104 | the key is latitude, longitude and date joined by commas |
| `Pipeline.FetchStep` | public/script.js:103-155 | `fetchWeather` on values: a hit returns the entry and keeps the table; a miss aggregates the reply and, on success, stores it with `now` |
| `Pipeline.SignedIn` | public/script.js:194 | someone is signed in when the stored e-mail is present and non-empty |
| `Pipeline.LocationKey` | public/script.js:104 | the cache key of a location: the template-literal texts of its `lat` and `lon` with the date |
| `Locations.Acceptable` | public/script.js:62 | `obj && obj.lat && obj.lon`, with JavaScript truthiness |
| `Overrides.SpreadFields` | public/script.js:218 | the fields that `...newValues` spreads: an object's own fields |
| `JsValues.Truthy` | public/script.js:62 | JavaScript truthiness of a JSON value: undefined, null, false, 0 and "" are falsy |
| `JsValues.Field` | public/script.js:62 | property access: a missing property reads as `undefined` |
| `JsValues.ToText` | public/script.js:104 | the text a template literal makes of a value: "undefined", "null", "true"/"false", a number's text, the string, an array joined by commas, "[object Object]" |
| `JsValues.NumberText` | public/script.js:104 | `String(n)`: exact decimal digits for integral numbers up to 2^53 in magnitude, the host's formatting otherwise |
| `JsValues.JoinText` | public/script.js:104 | `join(",")` of an array, with null and undefined elements as "" |
| `Pipeline.Session.LoadWeather` | public/script.js:193-227 | nobody signed in: nothing changes. Otherwise `currentDateKey` is set. If the date cannot be computed, nothing else changes and nothing is shown. Otherwise the offset's date is fetched through the cache. A failed fetch shows its message. A failed override fetch shows "Failed to fetch override" after `currentWeather` is set. Otherwise the merged record is rendered with its label and `currentOverride` is set |

## Left out

- The DOM and the UI: element lookups, `showStatus` ("Loading..." and the
  colours), `renderWeather`'s text formatting, the update modal, and the button
  wiring and active-button classes. These are presentation only. The model
  returns what is rendered, or the error message.
- The network: `fetch` to the provider and to `/override`. Their replies are
  parameters, already parsed. A rejected `fetch` and a body that is not JSON
  also end in the same `catch`; the model has no message for them.
- Provider bodies of the wrong shape. A body that parses but is `null`, has a
  `weather` that is not an array, holds a null bucket or hour, or has an
  `hourly` that is not an array throws a TypeError into the `catch`.
  `ProviderOk` holds a well-typed list of buckets, so the model assumes a
  well-typed reply. `NoDayBucket` covers only an empty bucket list.
- The override save (POST) and remove (DELETE) handlers. They only call the
  service and then `loadWeather` again.
- Storage: `localStorage` reads and writes, and the JSON round trip of the
  cache table. A stored table that does not parse is read as empty, which is
  the empty table of `WeatherCache.constructor`.
- `getDateString`, which depends on the wall clock and the time-zone database.
  The model takes it as the parameter `dateOf`.
- Floating point. Readings are reals and `NaN` does not exist, so a reading
  or code text that `parseFloat` or `parseInt` cannot read is not represented.
  `toFixed(1)` is not applied: temperature, wind and precipitation are kept
  as unrounded reals, where the script stores one-decimal text.
- `JsValues.ToText`: printing of non-integral numbers, and of integral numbers
  above 2^53 in magnitude, is the parameter `numText`. Above 2^53 JavaScript
  prints the shortest round-trip digits padded with zeros.
- `Overrides.Merge`: a `newValues` that is a non-empty string or an array
  would also spread index-named keys ("0", "1", …). The model spreads only an
  object's fields.
- `saveLocationData`, `initUser`'s redirect, and the interleaving of
  concurrent `loadWeather` calls. These are outside the resolution rules.
  When the default location is in use, `saveLocationData` mutates the default
  location object itself; this aliasing is not modelled.
