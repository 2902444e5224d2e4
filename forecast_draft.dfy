/** The earlier draft of the weather aggregator (`WeatherViewModel`). It
    fetches for a fixed coordinate as soon as it is created and, unlike
    `Forecast.WeatherManager`, never empties its lists: every successful fetch
    appends to them. Its formatters, hour filter and row types are the same
    as those of `Forecast`, and are reused from there. */
module ForecastDraft {
  import opened Platform
  import opened Forecast

  /** The coordinate the draft always fetches for (Seattle). */
  const SeattleLocation: Coordinate := Coordinate(47.6062, -122.3321)

  class WeatherViewModel {
    var currentTemperature: string
    var currentCondition: string
    var dailyHighLow: string
    var hourlyForecast: seq<HourWeather>
    var tenDayForecast: seq<DayWeather>
    /** The coordinates weather was requested for, oldest first. */
    var requests: seq<Coordinate>

    /** The published fields as one value. */
    function Shown(): Display
      reads this
    {
      Display(currentTemperature, currentCondition, dailyHighLow, hourlyForecast, tenDayForecast)
    }

    /** Creation starts a fetch for the fixed coordinate. */
    constructor ()
      ensures Shown() == InitialDisplay
      ensures requests == [SeattleLocation]
    {
      currentTemperature := "";
      currentCondition := "";
      dailyHighLow := "H:0 L:0";
      hourlyForecast := [];
      tenDayForecast := [];
      requests := [];
      new;
      FetchCurrentWeather();
    }

    /** Issues a weather request for the fixed coordinate. */
    method FetchCurrentWeather()
      modifies this`requests
      ensures requests == old(requests) + [SeattleLocation]
    {
      requests := requests + [SeattleLocation];
    }

    /** The answer to a weather request, seen at time `now`. On success the
      three texts are overwritten and the rows are appended after the rows
      already shown; on failure nothing changes. */
    method CompleteFetch(outcome: WeatherOutcome, now: Date)
      requires outcome.WeatherFetched? ==> |outcome.bundle.daily| > 0
      modifies this
      ensures outcome.WeatherFetched? ==>
                && currentTemperature == outcome.bundle.current.temperature.formatted
                && currentCondition == outcome.bundle.current.condition
                && dailyHighLow == HighLow(outcome.bundle.daily[0])
                && hourlyForecast == old(hourlyForecast) + HourlyForecast(outcome.bundle.hourly, now)
                && tenDayForecast == old(tenDayForecast) + DailyForecast(outcome.bundle.daily, now)
      ensures outcome.WeatherFailed? ==> Shown() == old(Shown())
      ensures requests == old(requests)
    {
      match outcome
      case WeatherFailed =>
      case WeatherFetched(weather) =>
        currentTemperature := weather.current.temperature.formatted;
        currentCondition := weather.current.condition;
        dailyHighLow := HighLow(weather.daily[0]);
        AppendHours(weather.hourly, now);
        AppendDays(weather.daily, now);
    }

    /** The hourly `forEach`: appends the row of every entry at or after the
      current hour, in series order. */
    method AppendHours(hours: seq<HourForecast>, now: Date)
      modifies this`hourlyForecast
      ensures hourlyForecast == old(hourlyForecast) + HourlyForecast(hours, now)
    {
      var i := 0;
      while i < |hours|
        invariant 0 <= i <= |hours|
        invariant hourlyForecast == old(hourlyForecast) + HourlyForecast(hours[..i], now)
      {
        var h := hours[i];
        assert hours[..i + 1][..i] == hours[..i];
        if IsSameHourOrLater(h.date, now) {
          hourlyForecast := hourlyForecast + [HourWeather(HourFormatter(h.date, now), h.symbolName, DropLast(h.temperature.formatted))];
        }
        i := i + 1;
      }
      assert hours[..|hours|] == hours;
    }

    /** The daily `forEach`: appends the row of every entry, in series order. */
    method AppendDays(days: seq<DayForecast>, now: Date)
      modifies this`tenDayForecast
      ensures tenDayForecast == old(tenDayForecast) + DailyForecast(days, now)
    {
      var j := 0;
      while j < |days|
        invariant 0 <= j <= |days|
        invariant tenDayForecast == old(tenDayForecast) + DailyForecast(days[..j], now)
      {
        var d := days[j];
        assert days[..j + 1][..j] == days[..j];
        tenDayForecast := tenDayForecast + [DayWeather(DayFormatter(d.date, now), d.symbolName, DropLast(d.lowTemperature.formatted), DropLast(d.highTemperature.formatted))];
        j := j + 1;
      }
      assert days[..|days|] == days;
    }
  }

  /** The manager after the same bundle is fetched twice for one coordinate. */
  method ManagerFetchesTwice(b: WeatherBundle, now: Date) returns (days: seq<DayWeather>, hours: seq<HourWeather>)
    requires |b.daily| > 0
    ensures days == DailyForecast(b.daily, now) && hours == HourlyForecast(b.hourly, now)
  {
    var manager := new WeatherManager();
    manager.UpdateLocation(SeattleLocation.latitude, SeattleLocation.longitude);
    manager.CompleteFetch(WeatherFetched(b), now);
    manager.FetchCurrentWeather();
    manager.CompleteFetch(WeatherFetched(b), now);
    days, hours := manager.tenDayForecast, manager.hourlyForecast;
  }

  /** The draft after the same bundle is delivered for its creation fetch and
      for one more fetch. */
  method DraftFetchesTwice(b: WeatherBundle, now: Date) returns (days: seq<DayWeather>, hours: seq<HourWeather>)
    requires |b.daily| > 0
    ensures days == DailyForecast(b.daily, now) + DailyForecast(b.daily, now)
    ensures hours == HourlyForecast(b.hourly, now) + HourlyForecast(b.hourly, now)
  {
    var draft := new WeatherViewModel();
    draft.FetchCurrentWeather();
    draft.CompleteFetch(WeatherFetched(b), now);
    assert draft.tenDayForecast == DailyForecast(b.daily, now);
    assert draft.hourlyForecast == HourlyForecast(b.hourly, now);
    draft.CompleteFetch(WeatherFetched(b), now);
    days, hours := draft.tenDayForecast, draft.hourlyForecast;
  }

  /** The observable difference between the two aggregators: the same bundle
      delivered twice leaves the manager with one copy of each list and the
      draft with two, the second appended after the first. */
  method RepeatedFetchAccumulates(b: WeatherBundle, now: Date)
    returns (managerDays: seq<DayWeather>, draftDays: seq<DayWeather>, managerHours: seq<HourWeather>, draftHours: seq<HourWeather>)
    requires |b.daily| > 0
    ensures managerDays == DailyForecast(b.daily, now) && |managerDays| == |b.daily|
    ensures draftDays == managerDays + managerDays && |draftDays| == 2 * |b.daily|
    ensures managerHours == HourlyForecast(b.hourly, now)
    ensures draftHours == managerHours + managerHours
  {
    managerDays, managerHours := ManagerFetchesTwice(b, now);
    draftDays, draftHours := DraftFetchesTwice(b, now);
  }
}
