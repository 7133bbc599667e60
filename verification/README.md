# Weather forecast aggregation, modelled in Dafny

This project models the data-shaping core of a small Flask weather front-end
(`weather_project/src/main.py`). The front-end asks a third-party provider
for current weather or for a 5-day forecast in 3-hour samples, and it
reshapes the answer for three pages:

- **current weather**: one reading, built field by field from the response;
- **daily forecast**: a fold over the samples into one summary per calendar
  date. Samples dated today are skipped. The first sample of a date seeds its
  summary: weekday name, `temp_min`, `temp_max`, description and icon. Later
  samples on that date only lower `temp_min` and raise `temp_max`. The page
  shows the first five summaries in order of first appearance;
- **hourly forecast**: the first eight samples, each projected to a row. No
  date is skipped.

Each page first checks the response's own status code: the integer `200` for
current weather and the string `"200"` for the forecast. If the check fails,
the view data stays absent (`None`), which is distinct from an empty list.

Files:

- `forecast.dfy` (module `Forecast`): samples, summaries and the
  insertion-ordered dictionary (`Table`: keys in insertion order plus a map).
  It holds the pure specification `Fold`/`Daily` of the daily loop and the
  lemmas about it. It also holds the two loops as methods: `DailyForecast` is
  proved equal to `Daily`, and `HourlyForecast` is proved against its
  per-row contract.
- `routes.dfy` (module `Routes`): the response records, the two status gates
  and the three page handlers.

Temperatures are `real`, since the source only compares them with `min`
and `max`. The current date, the weekday-name formatter (`%A`) and the
12-hour time formatter (`%a, %I:%M %p`, the `timeLabel` parameter) are parameters. Each formatter is a
total function `string -> string`, so calendar logic stays outside the model.

`Seed` starts a new date's `temp_max` from the first sample's `temp_max`
(main.py:55), not from its `temp_min`.

Idempotence (the same input and `today` give the same output) holds by
construction. `Daily` is a function and `DailyForecast` is proved equal to
it, so no separate lemma states it.

## Model

| member | source | states |
|---|---|---|
| Forecast.DateKey | weather_project/src/main.py:48 | The date key is a prefix of `dt_txt` that contains no space and is followed by a space or by the end of the text, i.e. the part before the first space. |
| Forecast.DateKeyOfTimestamp | weather_project/src/main.py:48 | A timestamp `"<date> <time>"` with a space-free date has date key `<date>`, and a bare date is its own key. |
| Forecast.Fold | weather_project/src/main.py:45-61 | After any sequence of samples, the dictionary's keys are distinct and are exactly the dates that have an entry, and today's date never has one. |
| Forecast.FoldDates | weather_project/src/main.py:49-52 | A date has a summary if and only if it is not today and at least one sample falls on it. |
| Forecast.FoldOrder | weather_project/src/main.py:51-52 | Keys are ordered by the position of each date's first sample in the input, not by date value. |
| Forecast.FoldFirstWins | weather_project/src/main.py:52-58 | A date's weekday name is that of the date, and its description and icon are those of the first sample on that date; later samples never change them. |
| Forecast.FoldBounds | weather_project/src/main.py:54-61 | A date's `temp_min` is at most every same-date sample's `temp_min` and equals one of them, and its `temp_max` is at least every same-date sample's `temp_max` and equals one of them: the minimum and the maximum. |
| Forecast.FoldMinLeMax | weather_project/src/main.py:54-61 | If every sample has `temp_min <= temp_max`, every summary has `temp_min <= temp_max`. |
| Forecast.DailyShape | weather_project/src/main.py:63 | The daily view has at most 5 entries, exactly 5 when there are at least 5 dates, and entry i is the summary of the i-th dictionary key. |
| Forecast.DailyDatesAreFutureDates | weather_project/src/main.py:49-52 | The shown dates are distinct, none is today, and each is the date of some sample. |
| Forecast.DailyDatesAreFirstAppearances | weather_project/src/main.py:51-63 | The shown dates are in first-appearance order, and any non-today date left out appears first after all shown dates, which happens only when 5 are shown. |
| Forecast.DailyEntry | weather_project/src/main.py:52-63 | Each shown summary carries the weekday, description and icon of its date's first sample and bounds every sample on that date, and its min does not exceed its max when no sample's does. |
| Forecast.OneFutureDate | weather_project/src/main.py:49-50 | Samples dated today plus samples on exactly one other date (e.g. 10 and 5) give exactly one summary. |
| Forecast.TwoSamplesOneDate | weather_project/src/main.py:52-61 | Two samples on one future date give exactly one summary: the first sample's weekday, description and icon, the lower minimum and the higher maximum. |
| Forecast.TwoSamplesExample | weather_project/src/main.py:52-61 | (10, 15) then (8, 20) on a future date give min 8, max 20 and the first sample's description "clear sky". |
| Forecast.DailyForecast | weather_project/src/main.py:45-63 | The loop that updates the dictionary in place and slices its values returns exactly `Daily`, the fold specified and proved above. |
| Forecast.HourlyForecast | weather_project/src/main.py:71-78 | The hourly rows number min(8, number of samples), and row i is built from sample i in input order: time formatted from its `dt_txt`, with its temperature, description and icon unchanged. |
| Routes.GatesAreTyped | weather_project/src/main.py:27-70 | Each gate rejects the other endpoint's success code: a current-weather response with the string "200" fails its gate (line 27), and a forecast response with the integer 200 fails its gate (lines 44 and 70). |
| Routes.WeatherPage | weather_project/src/main.py:25-38 | A reading exists exactly when the response is present with integer code 200, and each of its fields is the response field it is read from. |
| Routes.ForecastPage | weather_project/src/main.py:41-64 | The view is present exactly when the forecast gate passes. It is then the daily view of the sample list, with a missing list read as empty, and has at most 5 entries. A passing response without samples gives an empty list, not an absent view. |
| Routes.HourlyPage | weather_project/src/main.py:67-79 | The view is present exactly when the forecast gate passes. It then holds min(8, n) rows, row i projected from sample i; a passing response without samples gives an empty list. |

## Left out

- Flask routing, the redirect from the home form, template rendering and the about/contact pages (main.py:15-21, 81-93): web plumbing with no data logic.
- The HTTP clients `get_weather` and `get_forecast`: they live in modules that are not part of this model. Their results are parameters: an optional parsed response.
- Reading `API_KEY` and `PORT` from the environment and `load_dotenv`: process configuration.
- `date.today()`: the current date is a parameter of `DailyForecast` and `ForecastPage`.
- Weekday names and 12-hour time formatting (`strptime`/`strftime`, main.py:53, 74): calendar library code, modelled as caller-supplied functions. A `ValueError` raised on a malformed date is not modelled.
- JSON traversal: responses are typed records with the first `weather` entry already flattened into `description` and `icon`. The `KeyError`/`IndexError` a malformed payload would raise is not modelled, and neither is a `list` field that is present but `null`.
- Floating-point temperatures and status codes: temperatures are reals. A status code sent as the float `200.0`, which Python's `==` would accept as `200`, is not modelled.
- The `city` argument, which the handlers only pass through to the templates.
