/**
 The three data-producing page handlers of the weather front-end
 (weather_project/src/main.py): `weather`, `forecast` and `hourly_forecast`.

 Each handler receives the provider's parsed response (or none, when the
 request failed), checks the response's own status code, and either
 builds the view data or leaves it absent. An absent view ("not found") is
 distinct from an empty list.
 */
module Routes {
  import opened Forecast

  datatype Option<T> = None | Some(value: T)

  /** The JSON value of a response's `cod` field: an integer, a string, or
      missing. A float code such as `200.0` is not modelled (see README,
      "Left out"). */
  datatype StatusCode = IntCode(n: int) | TextCode(s: string) | NoCode

  /** A parsed current-weather response: `cod`, `name`, `sys.country`,
      `main.temp`, `main.feels_like`, `main.humidity`, `wind.speed` and the
      first `weather` entry's `description` and `icon`. */
  datatype WeatherResponse = WeatherResponse(
    cod: StatusCode, name: string, country: string, temp: real, feelsLike: real,
    humidity: int, windSpeed: real, description: string, icon: string)

  /** The current-weather view data. */
  datatype WeatherReading = WeatherReading(
    city: string, country: string, temperature: real, feelsLike: real,
    description: string, humidity: int, windSpeed: real, icon: string)

  /** A parsed forecast response: `cod` and, when present, the `list` of samples. */
  datatype ForecastResponse = ForecastResponse(cod: StatusCode, list: Option<seq<Sample>>)

  /** The current-weather endpoint reports success as the integer 200. */
  predicate WeatherOk(resp: Option<WeatherResponse>) {
    resp.Some? && resp.value.cod == IntCode(200)
  }

  /** The forecast endpoint reports success as the string "200". */
  predicate ForecastOk(resp: Option<ForecastResponse>) {
    resp.Some? && resp.value.cod == TextCode("200")
  }

  /** `forecast_api_data.get("list", [])`: a missing list reads as empty. */
  function SamplesOf(resp: ForecastResponse): seq<Sample> {
    if resp.list.Some? then resp.list.value else []
  }

  /** The two gates compare against differently typed codes: the integer
      200 passes only the current-weather gate, the string "200" only the
      forecast gate. */
  lemma GatesAreTyped(w: WeatherResponse, f: ForecastResponse)
    ensures w.cod == TextCode("200") ==> !WeatherOk(Some(w))
    ensures f.cod == IntCode(200) ==> !ForecastOk(Some(f))
  {
  }

  /** The `weather` handler: a reading exactly when the gate passes, each
      field copied from its place in the response. */
  function WeatherPage(resp: Option<WeatherResponse>): (weatherData: Option<WeatherReading>)
    ensures weatherData.Some? <==> WeatherOk(resp)
    ensures weatherData.Some? ==>
      var r, w := resp.value, weatherData.value;
      && w.city == r.name && w.country == r.country
      && w.temperature == r.temp && w.feelsLike == r.feelsLike
      && w.description == r.description && w.humidity == r.humidity
      && w.windSpeed == r.windSpeed && w.icon == r.icon
  {
    if WeatherOk(resp) then
      var r := resp.value;
      Some(WeatherReading(r.name, r.country, r.temp, r.feelsLike, r.description,
                          r.humidity, r.windSpeed, r.icon))
    else None
  }

  /** The `forecast` handler, with the current date supplied by the caller:
      the daily view when the gate passes, nothing otherwise; a passing
      response without samples gives an empty view, not an absent one. */
  method ForecastPage(resp: Option<ForecastResponse>, today: string, weekday: string -> string)
    returns (forecastData: Option<seq<Summary>>)
    ensures forecastData.Some? <==> ForecastOk(resp)
    ensures forecastData.Some? ==> forecastData.value == Daily(SamplesOf(resp.value), today, weekday)
    ensures forecastData.Some? ==> |forecastData.value| <= DailyLimit
    ensures ForecastOk(resp) && SamplesOf(resp.value) == [] ==> forecastData == Some([])
  {
    forecastData := None;
    if ForecastOk(resp) {
      var summaries := DailyForecast(SamplesOf(resp.value), today, weekday);
      DailyShape(SamplesOf(resp.value), today, weekday);
      forecastData := Some(summaries);
    }
  }

  /** The `hourly_forecast` handler: the first eight samples as rows when
      the gate passes, nothing otherwise; no date is skipped. */
  method HourlyPage(resp: Option<ForecastResponse>, timeLabel: string -> string)
    returns (hourlyData: Option<seq<HourlyRow>>)
    ensures hourlyData.Some? <==> ForecastOk(resp)
    ensures hourlyData.Some? ==>
      var samples, rows := SamplesOf(resp.value), hourlyData.value;
      && |rows| == (if |samples| < HourlyLimit then |samples| else HourlyLimit)
      && forall i :: 0 <= i < |rows| ==>
           && rows[i].time == timeLabel(samples[i].dtTxt)
           && rows[i].temp == samples[i].temp
           && rows[i].description == samples[i].description
           && rows[i].icon == samples[i].icon
  {
    hourlyData := None;
    if ForecastOk(resp) {
      var rows := HourlyForecast(SamplesOf(resp.value), timeLabel);
      hourlyData := Some(rows);
    }
  }
}
