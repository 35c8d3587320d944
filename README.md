# PurpleAir AQI widget: the numeric pipeline and sensor selection in Dafny

This project models the core of `purpleair-aqi.js`, a Scriptable widget that
shows the Air Quality Index of the nearest PurpleAir sensor. The model covers
the following steps:

- **Sensor selection** (`getSensorId`). A truthy widget parameter is used
  as it is. A rate-limited directory answer (HTTP 429) falls back to sensor
  69223. Otherwise the outdoor rows (`Type` 0) of the column-oriented directory
  answer are scanned, and the first row at the strictly smallest distance wins.
  With no such row the default sensor is used.
- **PM correction** (`computePM`). Each of `adj1`, `adj2` and `hum` is read with
  `parseInt(…, 10)`. The result is `0.52·avg(adj1, adj2) − 0.085·hum + 5.71`,
  and NaN spreads through it.
- **AQI conversion** (`aqiFromPM`, `calculateAQI`). Seven bands of the EPA
  PM2.5 breakpoint table are checked from the top down. The value is linearly
  interpolated within the band and then `Math.round`ed. Any input that is not
  `>= 0` gives `"-"`.
- **Category** (`LEVEL_ATTRIBUTES`, `calculateLevel`). `Number(aqi) || 0` is
  looked up in a table with strictly descending thresholds, and the first
  threshold the level exceeds wins.
- **Trend** (`getAQITrend`). The difference `v3 − v1` gives the symbol. Above 5
  it is `arrow.down`, below −5 it is `arrow.up`, and otherwise it is
  `arrow.left.and.right`.
- **Composition** (the numeric part of `run()`). The lookup cannot throw on
  anything `aqiFromPM` returns. An unreadable field shows as `"-"` / Good.

JavaScript numbers are modelled as `Num = NaN | Fin(real)`, with exact real
arithmetic. `Math.round(x)` is `Floor(x + 1/2)`: exact reals give the nearest
integer, with halves rounded up. The scan's `closestDistance` starts at
`Infinity`. It is modelled as a `Bound` that is either `Infinity` or a finite
distance. A NaN distance is never `<` it, so such a row is never chosen.

The proofs bring out these points about the code:

- The band guards are strict (`pm > 12.1`, …). A concentration exactly on an
  EPA lower breakpoint therefore falls in the band below: 12.1 gives 50 and
  350.5 gives 400, while values just above give 51 and 401 (`AqiAtBandEdges`).
  The index still never decreases as the concentration grows
  (`AqiMonotone`).
- Nothing clamps the top band. A concentration slightly above 500 still rounds
  to 500, and from 501 µg/m³ on the index exceeds 500 (`AqiBeyondScale`).
- `calculateLevel` throws for a level at or below −20. The level is never
  negative on anything `aqiFromPM` returns, so the case cannot arise in the
  widget (`AqiNotNegative`, `ClassifyNeverThrows`).

Modules: `Wrappers` (Option, Result), `JsValues` (numbers, row cells,
`Math.round`), `JsParseInt` (`parseInt`), `SensorResolver`, `PmCorrection`,
`AqiConversion`, `AqiLevel`, `AqiTrend`, `Widget`.

## Model

| member | source | states |
|---|---|---|
| `JsValues.Round` | purpleair-aqi.js:258 | `Math.round`: the result is within one half of its argument, and a half rounds up |
| `JsParseInt.ParseInt` | purpleair-aqi.js:219-221 | `parseInt(s, 10)` always returns NaN or an integer |
| `JsParseInt.ParseIntNaNIff` | purpleair-aqi.js:219-221 | NaN exactly when no digit follows the leading white space and an optional sign |
| `JsParseInt.ParseIntRoundTrip` | purpleair-aqi.js:219-221 | the decimal rendering of any integer, followed by any non-digit text, parses back to that integer |
| `JsParseInt.ParseIntSkipsWhiteSpace` | purpleair-aqi.js:219-221 | leading white space (spaces, tabs, line terminators, Unicode spaces, BOM) never changes the result |
| `JsParseInt.ParseIntDropsFraction` | purpleair-aqi.js:219-221 | "12.9" parses as 12: the fraction is dropped, not rounded |
| `JsParseInt.ParseIntSignAndSuffix` | purpleair-aqi.js:219-221 | " -7px" parses as −7 |
| `JsParseInt.ParseIntWithoutDigits` | purpleair-aqi.js:219-221 | "abc", "" and "-" parse as NaN |
| `PmCorrection.ComputePM` | purpleair-aqi.js:218-225 | the result is a number exactly when all three fields parse; `ComputePMFormula` gives its closed form and `ComputePMNaNIff` ties NaN to fields without a leading integer |
| `PmCorrection.ComputePMFormula` | purpleair-aqi.js:218-225 | the corrected PM is `0.52·(a1+a2)/2 − 0.085·h + 5.71` of the parsed fields when all three parse, NaN otherwise |
| `PmCorrection.ComputePMNaNIff` | purpleair-aqi.js:218-225 | the corrected PM is NaN exactly when one of the three fields has no leading integer |
| `PmCorrection.ComputePMIgnoresFraction` | purpleair-aqi.js:219 | an `adj1` of "12.9" gives the same result as "12" |
| `PmCorrection.ComputePMExample` | purpleair-aqi.js:218-225 | readings 10 and 20 at 50 % humidity correct to 9.26 |
| `AqiConversion.CalculateAQI` | purpleair-aqi.js:254-259 | a concentration inside [BPl, BPh] gives an index inside [round(Il), round(Ih)] |
| `AqiConversion.AqiFromPM` | purpleair-aqi.js:233-242 | `"-"` exactly when `pm >= 0` is false (negative or NaN); otherwise a number, always an integer |
| `AqiConversion.AqiBandBounds` | purpleair-aqi.js:233-259 | each guard band lands in its EPA index band: 0–50, 51–100, 101–150, 151–200, 201–300, 301–400, and at least 401 at the top |
| `AqiConversion.AqiMonotone` | purpleair-aqi.js:233-259 | for `0 <= x <= y` the index of `x` is at most that of `y`, across band edges included |
| `AqiConversion.AqiRange` | purpleair-aqi.js:233-259 | for `0 <= pm <= 500` the index lies in [0, 500] |
| `AqiConversion.AqiReferenceValues` | purpleair-aqi.js:234-240 | 0→0, 12.0→50, 35.4→100, 55.4→150, 150.4→200, 250.4→300, 350.4→400, 500→500 |
| `AqiConversion.AqiAtBandEdges` | purpleair-aqi.js:234-240 | 12.1→50 but (12.1, 12.2]→51; 350.5→400 but (350.5, 350.6]→401 |
| `AqiConversion.AqiBeyondScale` | purpleair-aqi.js:234 | above 500 µg/m³ the index is at least 500, and from 501 µg/m³ on it exceeds 500: no clamp |
| `AqiConversion.AqiOfNaN` | purpleair-aqi.js:240-241 | NaN and −0.5 give `"-"`; the general case, any input that is not `>= 0`, is `AqiFromPM`'s contract |
| `AqiLevel.LEVEL_ATTRIBUTES` | purpleair-aqi.js:148-210 | the six categories with the source's thresholds, labels and colours; `TableStrictlyDescending` proves the thresholds strictly descend to −20 and `CategoryEdges` checks the labels at the edges |
| `AqiLevel.TableStrictlyDescending` | purpleair-aqi.js:148-210 | the thresholds 300, 200, 150, 100, 50, −20 are strictly descending, ending at −20 |
| `JsValues.OrZero` | purpleair-aqi.js:269 | the zero fallback of line 269 (logical or with 0) on a number: NaN and 0 are falsy and give 0, any other number is kept; the result is never NaN |
| `AqiLevel.ToNumber` | purpleair-aqi.js:269 | `Number(aqi)`: `"-"` converts to NaN, an index to itself, so the result is NaN exactly for `"-"` and otherwise an integer |
| `AqiLevel.Coerce` | purpleair-aqi.js:269 | the coercion of line 269 (`Number` of the AQI, falling back to 0), evaluated with `ToNumber` and `OrZero`, is always an integer: `"-"` becomes 0 (through NaN), an index, 0 included, keeps its value |
| `AqiLevel.CalculateLevel` | purpleair-aqi.js:268-293 | throws exactly when the coerced level exceeds no threshold in the table; otherwise returns a table entry whose threshold the level exceeds, with the coerced level; `CalculateLevelMatchesCategory` proves that entry is the AirNow category |
| `AqiLevel.FindAbove` | purpleair-aqi.js:280 | `find`: the first entry whose threshold the level exceeds, none exactly when the level exceeds no threshold |
| `AqiLevel.ExactlyOneEntry` | purpleair-aqi.js:148-280 | in a strictly descending table, every level above the last threshold lies in exactly one entry's interval (threshold, previous threshold], and `find` returns that entry |
| `AqiLevel.FindAboveNamesCategory` | purpleair-aqi.js:149-280 | for every level above −20 `find` succeeds on the table and its entry carries the AirNow category name of the level |
| `AqiLevel.CalculateLevelMatchesCategory` | purpleair-aqi.js:268-292 | above −20 the result keeps the coerced level and names the AirNow category (Good ≤50, Moderate ≤100, USG ≤150, Unhealthy ≤200, Very Unhealthy ≤300, Hazardous); at −20 and below it throws |
| `AqiLevel.DashIsGood` | purpleair-aqi.js:269-292 | `"-"` gives the Good entry with level 0 |
| `AqiLevel.CategoryEdges` | purpleair-aqi.js:149-210 | 50 is Good, 51 Moderate, 300 Very Unhealthy, 301 Hazardous |
| `AqiTrend.GetAQITrend` | purpleair-aqi.js:301-306 | the result is one of the three symbols |
| `AqiTrend.TrendCases` | purpleair-aqi.js:301-306 | down exactly when `v3 − v1 > 5`, up exactly when `< −5`, steady exactly when within ±5 or a value is NaN |
| `AqiTrend.TrendSwap` | purpleair-aqi.js:301-306 | swapping `v1` and `v3` swaps up and down and keeps steady |
| `AqiTrend.TrendExamples` | purpleair-aqi.js:301-306 | (10, 20) is down, (20, 10) up, (10, 12) and (10, 15) steady |
| `SensorResolver.IndexOf` | purpleair-aqi.js:81-84 | `indexOf`: the first position of the name, or −1 exactly when it is absent |
| `SensorResolver.Outdoor` | purpleair-aqi.js:90 | the filter keeps exactly the rows whose type cell is the number 0 |
| `SensorResolver.OutdoorDistributes` | purpleair-aqi.js:90 | the filter keeps the rows' order: filtering `a + b` is filtering `a`, then `b` |
| `SensorResolver.NothingOutdoorWithoutColumn` | purpleair-aqi.js:84-90 | with the type column missing (index −1) no row passes the filter |
| `SensorResolver.NoTypeColumnNoCandidates` | purpleair-aqi.js:81-101 | a directory answer without a "Type" field has no candidate rows |
| `SensorResolver.FirstNearestUnique` | purpleair-aqi.js:87-99 | at most one row is the first nearest, so the pick is determined |
| `SensorResolver.Closest` | purpleair-aqi.js:87-99 | nothing is picked exactly when every distance is NaN; otherwise the pick is a row with a numeric distance, strictly nearer than every earlier row and no farther than every later one |
| `SensorResolver.GetSensorId` | purpleair-aqi.js:56-101 | a truthy parameter is returned unchanged; code 429 gives 69223; a missing `fields` or `data` throws; otherwise the id cell of the first nearest outdoor row, or 69223 when there is none |
| `Widget.Classify` | purpleair-aqi.js:332-339 | the trend shown is `getAQITrend` of the stats, the PM is `computePM` of the sensor fields, the AQI is `aqiFromPM` of that PM, and the category, its table entry with threshold and colours and its coerced level, is exactly what `calculateLevel` returns for that AQI; `ClassifyNeverThrows` proves it never throws and shows the AirNow category |
| `Widget.AqiNotNegative` | purpleair-aqi.js:233-242 | the coerced value of any `aqiFromPM` result is at least 0 |
| `Widget.ClassifyNeverThrows` | purpleair-aqi.js:332-339 | the category lookup in `run()` never throws, and the category shown is the AirNow category of the index |
| `Widget.UnreadableFieldShowsGood` | purpleair-aqi.js:335-339 | a field without a leading integer gives PM NaN, AQI `"-"`, level 0 and the Good category |

## Left out

- Rendering in `run()` is not modelled: the list widget, gradients, fonts, the dark-mode query, the SF symbol and the map URL are host UI calls.
- `Location.current()`, the directory request and `getSensorData`'s request are not modelled. Their results are inputs: the `response` and the `haversine` parameters of `GetSensorId`, and the `SensorData` and `Stats` values.
- `getSensorData` is not modelled. It only projects response fields.
- The trigonometry of `haversine` is not modelled. Distance is an arbitrary function from a row's latitude and longitude cells to a number or NaN.
- `JSON.parse` of the stats is not modelled. `v1` and `v3` are given as numbers (or NaN).
- IEEE-754 double rounding is not modelled. Arithmetic and the constants (0.52, 0.085, 12.1, …) are exact reals, so results are exact rather than correctly rounded doubles.
- The infinities and negative zero are not modelled. `parseInt` of a digit string too long for a double would give Infinity in JavaScript, but here it gives its exact value.
- `parseInt` is modelled on string fields only. The conversion of a non-string field (such as `undefined`) to a string is not modelled.
- The destructuring defaults in `calculateLevel` ("Weird", "white", …) are not modelled. Every table entry defines every field, so the defaults never apply.
- `AqiConversion.CalculateAQI` requires `BPl < BPh`. All seven calls in `aqiFromPM` meet it; the Infinity or NaN that JavaScript would give for a zero-width band is not modelled.
- `SensorResolver.GetSensorId`: when a truthy parameter is given, nothing is fetched. The model does not state this, because the directory answer is an input.
- Sensor-id caching with a time-to-live, the stale-reading cache, API-key authentication and the piecewise EPA correction are not modelled. They belong to other revisions of the widget; `purpleair-aqi.js` contains none of them.
