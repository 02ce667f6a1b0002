/**
  The `fetchWeather` submission of the widget.

  One submission geocodes a city, fetches the forecast for the first
  candidate and either shows a fresh snapshot or an error message. The two
  network results and the local hour are inputs here: each network result
  is either a received value (already parsed from JSON) or a failure with
  the message the thrown error carries. The widget's three state slots
  (`weatherData`, `loading`, `error`) are the fields of `WeatherState`.
 */
module FetchWeather {
  import opened Wrappers
  import Classifier

  /** The result of one network call: a parsed value, or the thrown error's message. */
  datatype Fetched<T> = Received(value: T) | Failed(message: string)

  /** One geocoding candidate; only the first one is ever used. */
  datatype Candidate = Candidate(lat: string, lon: string, displayName: string)

  /** The forecast's `current_weather` record. */
  datatype CurrentWeather = CurrentWeather(temperature: real, weathercode: int, windspeed: real)

  /** The hourly series the widget reads (index = hour of the day). */
  datatype Hourly = Hourly(temperature2m: seq<real>, precipitationProbability: seq<real>)

  /** The forecast response. */
  datatype Forecast = Forecast(currentWeather: CurrentWeather, hourly: Hourly)

  /**
    The record handed to `setWeatherData`. `precipitationProbability` is
    `None` when the hour is past the end of the series: JavaScript then
    reads `undefined` rather than failing.
   */
  datatype Snapshot = Snapshot(
    location: string,
    temperature: real,
    weatherCode: int,
    windSpeed: real,
    precipitationProbability: Option<real>,
    hourlyTemperatures: seq<real>)

  /** What the `try` block of a submission ends with. */
  datatype Attempt = Succeeded(snapshot: Snapshot) | Threw(message: string)

  /** The widget's three state slots, as one value. */
  datatype UiState = UiState(weatherData: Option<Snapshot>, loading: bool, error: string)

  /** The message thrown when geocoding finds no candidate. */
  const CityNotFound: string := "City not found"

  /** How many hourly temperatures the snapshot keeps at most. */
  const HourlyWindow: nat := 6

  // ---------------------------------------------------------------------
  // JavaScript array semantics
  // ---------------------------------------------------------------------

  /**
    The relative-index rule of `Array.prototype.slice` (ECMAScript 2024,
    section 23.1.3.28): a negative index counts back from the end, and the
    result is clamped into 0..len.
   */
  function RelativeIndex(k: int, len: nat): (r: nat)
    ensures r <= len
  {
    if k < 0 then (if len + k < 0 then 0 else len + k)
    else if k < len then k
    else len
  }

  /** `s.slice(start, end)`: never fails, and is empty when end precedes start. */
  function SliceJS<T>(s: seq<T>, start: int, end: int): (r: seq<T>)
    ensures |r| <= |s|
    ensures 0 <= start <= end ==>
      |r| == (if end <= |s| then end else |s|) - (if start <= |s| then start else |s|)
    ensures 0 <= start ==> forall i :: 0 <= i < |r| ==> start + i < |s| && r[i] == s[start + i]
    ensures 0 <= end <= start ==> r == []
  {
    var from, to := RelativeIndex(start, |s|), RelativeIndex(end, |s|);
    if from < to then s[from..to] else []
  }

  /** A negative start takes that many elements from the end. */
  lemma SliceNegativeStart<T>(s: seq<T>, k: nat)
    requires 0 < k <= |s|
    ensures SliceJS(s, -(k as int), |s|) == s[|s| - k..]
  {
  }

  // ---------------------------------------------------------------------
  // Snapshot assembly
  // ---------------------------------------------------------------------

  /** The snapshot built from the first candidate and the forecast at `hour`. */
  function BuildSnapshot(place: Candidate, forecast: Forecast, hour: nat): (snap: Snapshot)
    ensures snap.location == place.displayName
    ensures snap.temperature == forecast.currentWeather.temperature
    ensures snap.weatherCode == forecast.currentWeather.weathercode
    ensures snap.windSpeed == forecast.currentWeather.windspeed
    ensures snap.precipitationProbability.Some? <==> hour < |forecast.hourly.precipitationProbability|
    ensures snap.precipitationProbability.Some? ==>
      snap.precipitationProbability.value == forecast.hourly.precipitationProbability[hour]
    ensures |snap.hourlyTemperatures| <= HourlyWindow
    ensures forall i :: 0 <= i < |snap.hourlyTemperatures| ==>
      hour + i < |forecast.hourly.temperature2m| &&
      snap.hourlyTemperatures[i] == forecast.hourly.temperature2m[hour + i]
  {
    var current := forecast.currentWeather;
    var hourly := forecast.hourly;
    // An index read past the end of a JavaScript array gives `undefined`.
    var precipitation :=
      if hour < |hourly.precipitationProbability| then Some(hourly.precipitationProbability[hour]) else None;
    Snapshot(
      place.displayName,
      current.temperature,
      current.weathercode,
      current.windspeed,
      precipitation,
      SliceJS(hourly.temperature2m, hour, hour + HourlyWindow))
  }

  /**
    The snapshot's hourly temperatures are the next six hours starting at
    `hour`, fewer when the series ends sooner, and none (never failing) past
    its end.
   */
  lemma HourlyTemperaturesLength(place: Candidate, forecast: Forecast, hour: nat)
    ensures var n := |forecast.hourly.temperature2m|;
      |BuildSnapshot(place, forecast, hour).hourlyTemperatures| ==
        if hour + HourlyWindow <= n then HourlyWindow
        else if hour <= n then n - hour
        else 0
  {
  }

  /**
    The `try` block: geocode, reject an empty candidate list, fetch the
    forecast, assemble the snapshot. The first failure wins.
   */
  function Resolve(geocode: Fetched<seq<Candidate>>, forecast: Fetched<Forecast>, hour: nat): (a: Attempt)
    ensures a.Threw? <==> geocode.Failed? || geocode.value == [] || forecast.Failed?
    ensures geocode.Failed? ==> a.message == geocode.message
    ensures geocode == Received([]) ==> a.message == CityNotFound
    ensures geocode.Received? && geocode.value != [] && forecast.Failed? ==> a.message == forecast.message
    ensures a.Succeeded? ==> a.snapshot == BuildSnapshot(geocode.value[0], forecast.value, hour)
  {
    match geocode
    case Failed(m) => Threw(m)
    case Received(candidates) =>
      if |candidates| == 0 then Threw(CityNotFound)
      else
        match forecast
        case Failed(m) => Threw(m)
        case Received(f) => Succeeded(BuildSnapshot(candidates[0], f, hour))
  }

  /**
    The state a submission settles in: `catch` clears the snapshot and shows
    the message, otherwise the snapshot is shown with no error; `finally`
    always clears `loading`. Nothing of the previous state survives.
   */
  function Settled(geocode: Fetched<seq<Candidate>>, forecast: Fetched<Forecast>, hour: nat): (s: UiState)
    ensures !s.loading
    ensures s.weatherData.None? <==> Resolve(geocode, forecast, hour).Threw?
    ensures s.weatherData.None? ==> s.error == Resolve(geocode, forecast, hour).message
    ensures s.weatherData.Some? ==>
      s.error == "" && s.weatherData.value == BuildSnapshot(geocode.value[0], forecast.value, hour)
    ensures geocode == Received([]) ==> s.weatherData == None && s.error == CityNotFound
  {
    match Resolve(geocode, forecast, hour)
    case Succeeded(snap) => UiState(Some(snap), false, "")
    case Threw(m) => UiState(None, false, m)
  }

  /**
    The example of a London lookup at 9 o'clock with a full day of hourly
    data: the snapshot names London, is classified Clear Skies and keeps
    exactly six hourly temperatures.
   */
  lemma LondonExample(temps: seq<real>, precip: seq<real>)
    requires |temps| >= 24 && |precip| >= 24
    ensures var s := Settled(
        Received([Candidate("51.5", "-0.12", "London")]),
        Received(Forecast(CurrentWeather(15.0, 1, 10.0), Hourly(temps, precip))),
        9);
      s.weatherData.Some? && s.error == "" &&
      s.weatherData.value.location == "London" &&
      s.weatherData.value.temperature == 15.0 &&
      Classifier.Description(s.weatherData.value.weatherCode) == "Clear Skies" &&
      s.weatherData.value.hourlyTemperatures == temps[9..15] &&
      s.weatherData.value.precipitationProbability == Some(precip[9])
  {
  }

  // ---------------------------------------------------------------------
  // The widget's state slots
  // ---------------------------------------------------------------------

  /** The `useState` slots `weatherData`, `loading` and `error` of the widget. */
  class WeatherState {
    var weatherData: Option<Snapshot>
    var loading: bool
    var error: string

    /** The initial state: no snapshot, not loading, no error. */
    constructor ()
      ensures weatherData == None && !loading && error == ""
    {
      weatherData := None;
      loading := false;
      error := "";
    }

    /** The three slots as one value. */
    function View(): UiState
      reads this
    {
      UiState(weatherData, loading, error)
    }

    /**
      What a submission does before its first `await`: loading is shown and
      the error cleared, while the previous snapshot stays on screen.
     */
    method Start()
      modifies this
      ensures loading && error == "" && weatherData == old(weatherData)
    {
      loading := true;
      error := "";
    }

    /** The end of the `try`: the snapshot or the `catch`, then the `finally`. */
    method Finish(attempt: Attempt)
      modifies this
      ensures !loading
      ensures attempt.Succeeded? ==> weatherData == Some(attempt.snapshot) && error == old(error)
      ensures attempt.Threw? ==> weatherData == None && error == attempt.message
    {
      match attempt {
        case Succeeded(snap) =>
          weatherData := Some(snap);
        case Threw(m) =>
          error := m;
          weatherData := None;
      }
      loading := false;
    }

    /** One whole submission, taken as an atomic transition. */
    method Submit(geocode: Fetched<seq<Candidate>>, forecast: Fetched<Forecast>, hour: nat)
      requires hour < 24
      modifies this
      ensures View() == Settled(geocode, forecast, hour)
    {
      Start();
      Finish(Resolve(geocode, forecast, hour));
    }
  }

  /**
    A forecast that fails after an earlier successful lookup: the earlier
    snapshot is not retained and the failure's message is shown.
   */
  method FailureAfterSuccess(
    place: Candidate, forecast: Forecast, lookup: seq<Candidate>, message: string, hour: nat)
    returns (before: UiState, after: UiState)
    requires hour < 24 && lookup != []
    ensures before.weatherData == Some(BuildSnapshot(place, forecast, hour)) && before.error == ""
    ensures after.weatherData == None && after.error == message && !after.loading
  {
    var w := new WeatherState();
    w.Submit(Received([place]), Received(forecast), hour);
    before := w.View();
    w.Submit(Received(lookup), Failed(message), hour);
    after := w.View();
  }

  /**
    Two submissions in a row, each at its own hour: the state is that of the
    second one alone.
   */
  method LastSubmissionWins(
    geocode1: Fetched<seq<Candidate>>, forecast1: Fetched<Forecast>,
    geocode2: Fetched<seq<Candidate>>, forecast2: Fetched<Forecast>, hour1: nat, hour2: nat)
    returns (final: UiState)
    requires hour1 < 24 && hour2 < 24
    ensures final == Settled(geocode2, forecast2, hour2)
  {
    var w := new WeatherState();
    w.Submit(geocode1, forecast1, hour1);
    w.Submit(geocode2, forecast2, hour2);
    final := w.View();
  }
}
