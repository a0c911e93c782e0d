# Weather card renderer — Dafny model

The repository serves one endpoint, `GET /?location=…`. It fetches current
weather and today's hourly forecast from a weather API. It then draws a
1170×230 PNG "weather card": location heading, condition icon, temperature,
wind, humidity, and a strip of up to seven forecast hours.

This project models the logic of `index.ts`:

- **Forecast hour selector** (`ForecastSelector`). The `filter` callback of
  `drawForecast` drops hours that are not strictly after the current reading.
  It thins runs of one condition code with the mutable record
  `lastHourWeather = {code, forLastXhours}`, which starts at `{0, 0}`.
  `Admit` is one call of the callback. `Run`, `Selected` and `Repeats` fold it
  over a prefix of the hours. `SelectHours` is the scan itself, with the
  record's two fields as loop variables, and it is proved equal to `Selected`.
- **Forecast strip** (`ForecastStrip`). The column loop draws at most 7 columns.
  Column `i` is at `startingX + 30 + i * (width(previous label) + 30)`. The
  label before column 0 is `""`. Text width and the time-zone-aware time label
  are function parameters.
- **Card layout and icon URL** (`Card`). This covers the coordinates
  `generateImage` gives each text and the rewrite of the icon URL:
  `("https:" + icon).replaceAll("64", "128")`.
- **Request** (`Request`). The location is the `location` query text, or the
  socket's remote address when that text is missing or empty. The location goes
  into the forecast URI verbatim.
- **Render** (`Render`). `generateImage` as a whole: the strip starts after
  the wind text, on the wind row.

The data shapes come from `interfaces.ts`, reduced to the fields the logic
reads (`Weather`).

A running sum of the earlier label widths might be expected for the column
positions; the code instead multiplies the previous label's width by the
column index. The model follows the code.
`UniformWidthsMatchRunningSum` shows the two agree when all labels measure the
same. `RunningSumDiffersExample` shows they differ otherwise.

The selector's repeat counter is not reset when the code changes. The model
follows the code here too (`CodeChangeKept`).

## Model

| member | source | states |
|---|---|---|
| Weather.Today | index.ts:109-110 | `forecastday[0]` is undefined exactly when there is no forecast day, and is the first day otherwise |
| ForecastSelector.SelectHours | index.ts:111-127 | the in-place scan with `code`/`forLastXhours` returns exactly the hours the filter keeps (`Selected`) |
| ForecastSelector.SelectedAreFuture | index.ts:115-126 | every kept hour has `time_epoch` strictly greater than `last_updated_epoch` |
| ForecastSelector.SelectedIsSubsequence | index.ts:115-127 | the kept hours are a subsequence of today's hours: same order, no duplicates |
| ForecastSelector.PastHourIgnored | index.ts:116-126 | an hour at or before the current reading is dropped and leaves `lastHourWeather` unchanged |
| ForecastSelector.CodeChangeKept | index.ts:117-124 | a future hour with a different code is kept, becomes the tracked code, and the counter is carried over, not reset |
| ForecastSelector.CounterCountsRepeats | index.ts:117-121 | `forLastXhours` equals the number of repeats seen so far modulo 3, so it stays in 0..2 |
| ForecastSelector.EveryThirdRepeatKept | index.ts:117-124 | a repeat raises the repeat count by one, and the k-th repeat is kept iff k mod 3 = 0 |
| ForecastSelector.PastPrefixKeepsInitial | index.ts:111-116 | while only past hours have been seen, nothing is kept and the record is still {0, 0} |
| ForecastSelector.FirstFutureZeroIsRepeat | index.ts:111-120 | since the tracked code starts at 0, a first future hour with code 0 is a repeat and is skipped |
| ForecastSelector.FiveEqualCodesExample | index.ts:115-127 | five future hours of one code keep the 1st (a code change) and the 4th (third repeat) only |
| ForecastStrip.PlaceColumns | index.ts:129-150 | the loop carrying `lastTimeInHour` yields the closed-form placement: min(7, n) columns, column i at startX + 30 + i·(width(label i−1) + 30), label, `"http:" + icon` drawn 64×64, temperature 80 below |
| ForecastStrip.DrawForecast | index.ts:103-151 | no forecast day gives no columns; otherwise min(7, #kept) columns of selected hours, all after the current reading |
| ForecastStrip.ColumnsRightOfStart | index.ts:143-149 | with non-negative widths every column is at x ≥ startX + 30, column 0 exactly there, all on the row y with 64×64 icons, temperature at y + 80 |
| ForecastStrip.UniformWidthsMatchRunningSum | index.ts:143-145 | when the labels before column i all have one width, column i's x equals the running sum of widths plus gutters |
| ForecastStrip.RunningSumDiffersExample | index.ts:143-145 | with labels of different widths, column 2's x (150) differs from the running sum (160) |
| Card.ReplaceAllWithoutPattern | index.ts:49-52 | `replaceAll` leaves a string with no occurrence of the pattern unchanged |
| Card.ReplaceAllKeepsPrefix | index.ts:49-52 | a prefix none of whose characters starts the pattern passes through `replaceAll` unchanged |
| Card.NoSixtyFourLeft | index.ts:49-52 | after replacing "64" by "128", no "64" is left in the result |
| Card.UpgradeIconProperties | index.ts:49-52 | the icon URL is "https:" followed by the rewritten icon, contains no "64", and is "https:" + icon when the icon has no "64" |
| Card.UpgradeIconExample | index.ts:49-52 | "//x/64.png" becomes "https://x/128.png" |
| Card.LayoutCard | index.ts:39-100 | heading "name, country" at x 62, y 25 + ascent; icon at (62, 52) from the upgraded URL; status "text · date" at (62, 176 + ascent); temperature at x 200; "°C" at 200 + temperature width, where the temperature text ends; "Wind: N KMPH" at 250 + temperature width, 50 right of the unit, its row measured under the 20px font; "humidity: N%" 30 below the wind; strip starts at the end of the wind text, on the wind row |
| Request.ChooseLocation | index.ts:16-17 | the location is the query text when present and non-empty, otherwise the remote address |
| Request.ForecastUri | index.ts:29 | the URI starts with the forecast endpoint and ends with the location, verbatim |
| Request.LocationReadBack | index.ts:29 | the location read back from the URI is exactly the location inserted (no escaping) |
| Request.MissingLocationQueriesRemoteAddress | index.ts:16-29 | when the `location` text is absent or empty (including a repeated parameter whose values join to "") the weather API is queried with the remote address |
| Render.GenerateImage | index.ts:34-101 | the card layout plus the strip placed at the end of the wind text on the wind row; column 0 at windX + windWidth + 30, and with non-negative widths every column at least there |

## Left out

- The Express server, route registration, response headers and body, and `app.listen` (index.ts:10-15, 18-25, 168-170): HTTP I/O.
- `fetch` and JSON decoding in `getWeather` (index.ts:27-32): network I/O. Only the URI string is modelled.
- All drawing through `node-canvas`: `createCanvas`, `fillRect`, `fillText`, `drawImage`, `loadImage`, shadow settings, `toBuffer`. This is an external library. The model keeps the coordinates and texts passed to it. A failed icon load is not modelled.
- `dateGenerator` and `toLocaleTimeString` (index.ts:134-139, 154-166) depend on the time-zone database. They are the parameters `timeLabel` and `Formatted.date`.
- Floating-point values: `temp_c.toString()`, `Math.round(hour.temp_c)`, `wind_kph` and `humidity` texts. They appear as given text (`Formatted`) or not at all: the forecast temperature text is not modelled, only its position. Coordinates are exact `real`s rather than IEEE doubles. The loaded icon's height is the parameter `iconHeight`.
- `ctx.measureText` is the parameter `measure` (font size → width, ascent). The font family and colours from config.ts are not modelled.
- The `if (!hour) return;` guard (index.ts:133) is never taken: `i < hours.length` and an hour object is always truthy.
- `lastHourWeather` is a record mutated inside a closure. It is modelled as two local variables of `SelectHours`, not as an object, since nothing else aliases it.
- `Request.QueryText`: a `location[...]=` object parameter (whose `toString` is "[object Object]") is not modelled. Only absent, single and repeated values are.
- `Request.ChooseLocation`: an undefined `remoteAddress` is not modelled. Nor is an undefined API key, which the source would print as "undefined".
- `Card.ReplaceAll` requires a non-empty pattern. `replaceAll` with "" inserts the replacement before the first character, between every two characters and after the last, and the source only calls it with "64".
- `Card.ReplaceAll` copies the replacement literally. `replaceAll` expands the patterns `$&`, `$$`, `` $` `` and `$'` in a string replacement; the source's only replacement, "128", holds no `$`.
- config.ts (environment variable, colours, font family) has no logic. Of interfaces.ts, only the fields the logic reads are modelled.
