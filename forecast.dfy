/** The weather aggregator (`WeatherManager`): lookup tables, the hour and day
    labels, the hour filter, the temperature trimming, and the object that
    turns a weather bundle into display state. */
module Forecast {
  import opened Platform

  /** One row of the hourly list: label, symbol key, trimmed temperature. */
  datatype HourWeather = HourWeather(time: string, symbolName: string, temperature: string)

  /** One row of the daily list: label, symbol key, trimmed low and high. */
  datatype DayWeather = DayWeather(day: string, symbolName: string, lowTemperature: string, highTemperature: string)

  // ---------------------------------------------------------------------------
  // Lookup tables

  const SymbolDescriptions: map<string, string> := map[
    "sun.max" := "Sunny",
    "cloud.rain" := "Rainy",
    "cloud.sun" := "Partly Cloudy",
    "snow" := "Snowy",
    "cloud.bolt" := "Thunderstorms",
    "wind" := "Windy",
    "cloud.fog" := "Foggy",
    "cloud" := "Cloudy",
    "cloud.drizzle" := "Drizzle"
  ]

  const KnownSymbols: set<string> :=
    {"sun.max", "cloud.rain", "cloud.sun", "snow", "cloud.bolt", "wind", "cloud.fog", "cloud", "cloud.drizzle"}

  /** The description of a weather symbol key, with a default for unknown keys. */
  function SymbolDescription(symbolName: string): (r: string)
    ensures symbolName == "sun.max" ==> r == "Sunny"
    ensures symbolName == "cloud.rain" ==> r == "Rainy"
    ensures symbolName == "cloud.sun" ==> r == "Partly Cloudy"
    ensures symbolName == "snow" ==> r == "Snowy"
    ensures symbolName == "cloud.bolt" ==> r == "Thunderstorms"
    ensures symbolName == "wind" ==> r == "Windy"
    ensures symbolName == "cloud.fog" ==> r == "Foggy"
    ensures symbolName == "cloud" ==> r == "Cloudy"
    ensures symbolName == "cloud.drizzle" ==> r == "Drizzle"
    ensures r == "Unknown weather condition" <==> symbolName !in KnownSymbols
  {
    if symbolName in SymbolDescriptions then SymbolDescriptions[symbolName] else "Unknown weather condition"
  }

  const DayDescriptions: map<string, string> := map[
    "Today" := "Today",
    "Mon" := "Monday",
    "Tue" := "Tuesday",
    "Wed" := "Wednesday",
    "Thu" := "Thursday",
    "Fri" := "Friday",
    "Sat" := "Saturday",
    "Sun" := "Sunday"
  ]

  const KnownDays: set<string> := {"Today", "Mon", "Tue", "Wed", "Thu", "Fri", "Sat", "Sun"}

  /** The full name of a day label, with a default for unknown labels. */
  function DayDescription(day: string): (r: string)
    ensures day == "Today" ==> r == "Today"
    ensures day == "Mon" ==> r == "Monday"
    ensures day == "Tue" ==> r == "Tuesday"
    ensures day == "Wed" ==> r == "Wednesday"
    ensures day == "Thu" ==> r == "Thursday"
    ensures day == "Fri" ==> r == "Friday"
    ensures day == "Sat" ==> r == "Saturday"
    ensures day == "Sun" ==> r == "Sunday"
    ensures r == "Unknown day" <==> day !in KnownDays
  {
    if day in DayDescriptions then DayDescriptions[day] else "Unknown day"
  }

  // ---------------------------------------------------------------------------
  // Dates

  /** The three answers of a calendar comparison. */
  datatype ComparisonResult = OrderedAscending | OrderedSame | OrderedDescending

  /** Calendar comparison of two instants to hour granularity. */
  function CompareToHour(date1: Date, date2: Date): (c: ComparisonResult)
    ensures c == OrderedAscending <==> date1.hourIndex < date2.hourIndex
    ensures c == OrderedSame <==> date1.hourIndex == date2.hourIndex
    ensures c == OrderedDescending <==> date1.hourIndex > date2.hourIndex
  {
    if date1.hourIndex < date2.hourIndex then OrderedAscending
    else if date1.hourIndex == date2.hourIndex then OrderedSame
    else OrderedDescending
  }

  /** Whether `date1` falls in the same hour as `date2` or a later one. */
  function IsSameHourOrLater(date1: Date, date2: Date): (r: bool)
    ensures r <==> date1.hourIndex >= date2.hourIndex
  {
    var c := CompareToHour(date1, date2);
    c == OrderedSame || c == OrderedDescending
  }

  /** At-or-after is a total preorder on instants: reflexive, transitive and
      total, and two instants are each at-or-after the other exactly when they
      share an hour. */
  lemma SameHourOrLaterIsTotalPreorder(a: Date, b: Date, c: Date)
    ensures IsSameHourOrLater(a, a)
    ensures IsSameHourOrLater(a, b) && IsSameHourOrLater(b, c) ==> IsSameHourOrLater(a, c)
    ensures IsSameHourOrLater(a, b) || IsSameHourOrLater(b, a)
    ensures IsSameHourOrLater(a, b) && IsSameHourOrLater(b, a) <==> CompareToHour(a, b) == OrderedSame
  {
  }

  /** The label of an hourly entry: "Now" when its day of month and hour of day
      are those of `now` (the month is not compared), otherwise its "ha" text. */
  function HourFormatter(date: Date, now: Date): (r: string)
    ensures date.day == now.day && date.hour == now.hour ==> r == "Now"
    ensures date.hourText != "Now" ==> (r == "Now" <==> date.day == now.day && date.hour == now.hour)
    ensures r == "Now" || r == date.hourText
  {
    if date.day == now.day && date.hour == now.hour then "Now" else date.hourText
  }

  /** The label of a daily entry: "Today" when its day of month is that of
      `now` (the month is not compared), otherwise its "EEE" text. */
  function DayFormatter(date: Date, now: Date): (r: string)
    ensures date.day == now.day ==> r == "Today"
    ensures date.weekdayText != "Today" ==> (r == "Today" <==> date.day == now.day)
    ensures r == "Today" || r == date.weekdayText
  {
    if date.day == now.day then "Today" else date.weekdayText
  }

  /** A day label is read back by the day table: "Today" for the current day,
      and the weekday's full name for a weekday abbreviation. */
  lemma DayLabelDescribed(date: Date, now: Date)
    ensures date.day == now.day ==> DayDescription(DayFormatter(date, now)) == "Today"
    ensures date.day != now.day && date.weekdayText in KnownDays ==>
              DayDescription(DayFormatter(date, now)) == DayDescriptions[date.weekdayText]
    ensures date.day != now.day && date.weekdayText !in KnownDays ==> DayDescription(DayFormatter(date, now)) == "Unknown day"
  {
  }

  // ---------------------------------------------------------------------------
  // Temperatures

  /** A formatted temperature with its last character (the unit symbol) removed. */
  function DropLast(s: string): (r: string)
    ensures |r| == if |s| == 0 then 0 else |s| - 1
    ensures r == s[..|r|]
    ensures |s| > 0 ==> s == r + [s[|s| - 1]]
  {
    if |s| == 0 then [] else s[..|s| - 1]
  }

  /** The high/low summary built from one daily entry. */
  function HighLow(day: DayForecast): (r: string)
    ensures var hi, lo := DropLast(day.highTemperature.formatted), DropLast(day.lowTemperature.formatted);
            && |r| == |hi| + |lo| + 5
            && r[..2] == "H:" && r[2..2 + |hi|] == hi
            && r[2 + |hi|..5 + |hi|] == " L:" && r[5 + |hi|..] == lo
  {
    "H:" + DropLast(day.highTemperature.formatted) + " L:" + DropLast(day.lowTemperature.formatted)
  }

  /** Text of the form x + " L:" + u splits back into x and u when x has no space. */
  lemma SplitAtFirstSpace(x: string, y: string, u: string, v: string)
    requires ' ' !in x && ' ' !in y
    ensures x + " L:" + u == y + " L:" + v ==> x == y && u == v
  {
    var l, r := x + " L:" + u, y + " L:" + v;
    if |x| < |y| {
      assert l[|x|] == ' ' && r[|x|] == y[|x|];
    } else if |y| < |x| {
      assert r[|y|] == ' ' && l[|y|] == x[|y|];
    } else {
      assert l == r ==> x == l[..|x|] == r[..|y|] == y;
      assert l == r ==> u == l[|x| + 3..] == r[|y| + 3..] == v;
    }
  }

  /** The summary can be read back: when the trimmed high contains no space
      (as a number never does), the summary determines both trimmed values. */
  lemma HighLowDeterminesTemperatures(a: DayForecast, b: DayForecast)
    requires ' ' !in DropLast(a.highTemperature.formatted) && ' ' !in DropLast(b.highTemperature.formatted)
    requires HighLow(a) == HighLow(b)
    ensures DropLast(a.highTemperature.formatted) == DropLast(b.highTemperature.formatted)
    ensures DropLast(a.lowTemperature.formatted) == DropLast(b.lowTemperature.formatted)
  {
    var ha, hb := DropLast(a.highTemperature.formatted), DropLast(b.highTemperature.formatted);
    var la, lb := DropLast(a.lowTemperature.formatted), DropLast(b.lowTemperature.formatted);
    var s := HighLow(a);
    assert s[2..] == ha + " L:" + la;
    assert s[2..] == hb + " L:" + lb;
    SplitAtFirstSpace(ha, hb, la, lb);
  }

  // ---------------------------------------------------------------------------
  // Building the lists

  /** The display row of an hourly entry. */
  function ToHourWeather(h: HourForecast, now: Date): (r: HourWeather)
    ensures r.time == "Now" || r.time == h.date.hourText
    ensures r.symbolName == h.symbolName
    ensures |h.temperature.formatted| > 0 ==>
              h.temperature.formatted == r.temperature + [h.temperature.formatted[|h.temperature.formatted| - 1]]
  {
    HourWeather(HourFormatter(h.date, now), h.symbolName, DropLast(h.temperature.formatted))
  }

  /** The display row of a daily entry. */
  function ToDayWeather(d: DayForecast, now: Date): (r: DayWeather)
    ensures r.day == "Today" || r.day == d.date.weekdayText
    ensures r.symbolName == d.symbolName
    ensures |d.lowTemperature.formatted| > 0 ==>
              d.lowTemperature.formatted == r.lowTemperature + [d.lowTemperature.formatted[|d.lowTemperature.formatted| - 1]]
    ensures |d.highTemperature.formatted| > 0 ==>
              d.highTemperature.formatted == r.highTemperature + [d.highTemperature.formatted[|d.highTemperature.formatted| - 1]]
  {
    DayWeather(DayFormatter(d.date, now), d.symbolName, DropLast(d.lowTemperature.formatted), DropLast(d.highTemperature.formatted))
  }

  /** The hourly list one pass over the provider's series appends: the rows of
      the entries at or after the current hour, in series order. */
  function HourlyForecast(hours: seq<HourForecast>, now: Date): (r: seq<HourWeather>)
    ensures |r| <= |hours|
    decreases |hours|
  {
    if hours == [] then []
    else
      var rest := HourlyForecast(hours[..|hours| - 1], now);
      var h := hours[|hours| - 1];
      if IsSameHourOrLater(h.date, now) then rest + [ToHourWeather(h, now)] else rest
  }

  /** The positions of the series entries at or after the current hour, in
      increasing order. */
  function QualifyingHours(hours: seq<HourForecast>, now: Date): (ix: seq<nat>)
    ensures forall k :: 0 <= k < |ix| ==> ix[k] < |hours|
    ensures forall k, l :: 0 <= k < l < |ix| ==> ix[k] < ix[l]
    ensures forall i :: 0 <= i < |hours| ==> (i in ix <==> IsSameHourOrLater(hours[i].date, now))
    decreases |hours|
  {
    if hours == [] then []
    else
      var rest := QualifyingHours(hours[..|hours| - 1], now);
      if IsSameHourOrLater(hours[|hours| - 1].date, now) then rest + [|hours| - 1] else rest
  }

  /** The hourly list holds exactly the qualifying entries, in series order,
      each labelled and trimmed. */
  lemma {:induction false} HourlyForecastSelectsQualifying(hours: seq<HourForecast>, now: Date)
    ensures |HourlyForecast(hours, now)| == |QualifyingHours(hours, now)|
    ensures forall k :: 0 <= k < |HourlyForecast(hours, now)| ==>
              HourlyForecast(hours, now)[k] == ToHourWeather(hours[QualifyingHours(hours, now)[k]], now)
    decreases |hours|
  {
    if hours != [] {
      var pre := hours[..|hours| - 1];
      HourlyForecastSelectsQualifying(pre, now);
      forall k | 0 <= k < |QualifyingHours(pre, now)|
        ensures hours[QualifyingHours(pre, now)[k]] == pre[QualifyingHours(pre, now)[k]]
      {
      }
    }
  }

  /** The daily list one pass over the provider's series appends. */
  function DailyForecast(days: seq<DayForecast>, now: Date): (r: seq<DayWeather>)
    ensures |r| == |days|
    ensures forall k :: 0 <= k < |days| ==> r[k] == ToDayWeather(days[k], now)
    decreases |days|
  {
    if days == [] then []
    else DailyForecast(days[..|days| - 1], now) + [ToDayWeather(days[|days| - 1], now)]
  }

  /** The clock of the worked cases: 2 PM on the 20th. */
  const ExampleNow: Date := Date(100, 12, 20, 14, "2PM", "Fri")

  /** 22:00 yesterday, the current hour, one hour later and five hours later. */
  const ExampleHours: seq<HourForecast> := [
    HourForecast(Date(84, 12, 19, 22, "10PM", "Thu"), "cloud", Temperature("3°")),
    HourForecast(Date(100, 12, 20, 14, "2PM", "Fri"), "sun.max", Temperature("9°")),
    HourForecast(Date(101, 12, 20, 15, "3PM", "Fri"), "cloud.sun", Temperature("10°")),
    HourForecast(Date(105, 12, 20, 19, "7PM", "Fri"), "cloud.rain", Temperature("6°"))]

  /** A worked case: the list keeps the last three of `ExampleHours`, and the
      first of them is labelled "Now". */
  lemma HourlyForecastExample()
    ensures HourlyForecast(ExampleHours, ExampleNow) == [
              HourWeather("Now", "sun.max", "9"),
              HourWeather("3PM", "cloud.sun", "10"),
              HourWeather("7PM", "cloud.rain", "6")]
  {
    var hs, now := ExampleHours, ExampleNow;
    assert DropLast("9°") == "9" && DropLast("10°") == "10" && DropLast("6°") == "6";
    assert hs[..1][..0] == [];
    assert HourlyForecast(hs[..1], now) == [];
    assert hs[..2][..1] == hs[..1];
    assert HourlyForecast(hs[..2], now) == [HourWeather("Now", "sun.max", "9")];
    assert hs[..3][..2] == hs[..2];
    assert HourlyForecast(hs[..3], now) == [HourWeather("Now", "sun.max", "9"), HourWeather("3PM", "cloud.sun", "10")];
    assert hs[..4] == hs;
  }

  /** Today, and three days later. */
  const ExampleDays: seq<DayForecast> := [
    DayForecast(Date(86, 12, 20, 0, "12AM", "Fri"), "snow", Temperature("-2°"), Temperature("4°")),
    DayForecast(Date(158, 12, 23, 0, "12AM", "Mon"), "wind", Temperature("1°"), Temperature("7°"))]

  /** A worked case: the entry for today is labelled "Today", the one three
      days later by its weekday abbreviation. */
  lemma DailyForecastExample()
    ensures DailyForecast(ExampleDays, ExampleNow) == [
              DayWeather("Today", "snow", "-2", "4"),
              DayWeather("Mon", "wind", "1", "7")]
  {
    var ds, now := ExampleDays, ExampleNow;
    assert DropLast("-2°") == "-2" && DropLast("4°") == "4" && DropLast("1°") == "1" && DropLast("7°") == "7";
    assert ds[..1][..0] == [];
    assert ds[..2] == ds && ds[..1] == [ds[0]];
    assert DailyForecast(ds[..1], now) == [DayWeather("Today", "snow", "-2", "4")];
  }

  // ---------------------------------------------------------------------------
  // Display state

  /** The five published fields of the aggregator. */
  datatype Display = Display(
    currentTemperature: string,
    currentCondition: string,
    dailyHighLow: string,
    hourlyForecast: seq<HourWeather>,
    tenDayForecast: seq<DayWeather>)

  /** What the aggregator shows before any weather has arrived. */
  const InitialDisplay: Display := Display("", "", "H:0 L:0", [], [])

  /** What the aggregator shows after a successful fetch of `b` at `now`. The
      current temperature keeps its unit symbol; every other temperature is
      trimmed. The summary comes from the first daily entry. */
  function DisplayFor(b: WeatherBundle, now: Date): (r: Display)
    requires |b.daily| > 0
    ensures r.currentTemperature == b.current.temperature.formatted
    ensures r.currentCondition == b.current.condition
    ensures r.dailyHighLow == HighLow(b.daily[0])
    ensures |r.hourlyForecast| <= |b.hourly| && |r.tenDayForecast| == |b.daily|
  {
    Display(
      b.current.temperature.formatted,
      b.current.condition,
      HighLow(b.daily[0]),
      HourlyForecast(b.hourly, now),
      DailyForecast(b.daily, now))
  }

  /** The display after a fetch depends only on the bundle and the clock, not
      on what was shown before: a successful fetch replaces every list. */
  lemma DisplayForReplacesLists(b: WeatherBundle, now: Date)
    requires |b.daily| > 0
    ensures |DisplayFor(b, now).tenDayForecast| == |b.daily|
    ensures |DisplayFor(b, now).hourlyForecast| == |QualifyingHours(b.hourly, now)|
    ensures DisplayFor(b, now).tenDayForecast[0].day == DayFormatter(b.daily[0].date, now)
  {
    HourlyForecastSelectsQualifying(b.hourly, now);
  }

  /** The weather aggregator. Weather requests go to the weather service and
      are recorded in `requests`; a request's answer arrives later through
      `CompleteFetch`. */
  class WeatherManager {
    var currentTemperature: string
    var currentCondition: string
    var dailyHighLow: string
    var hourlyForecast: seq<HourWeather>
    var tenDayForecast: seq<DayWeather>
    var userLocation: Option<Coordinate>
    /** The coordinates weather was requested for, oldest first. */
    var requests: seq<Coordinate>

    /** The published fields as one value. */
    function Shown(): Display
      reads this
    {
      Display(currentTemperature, currentCondition, dailyHighLow, hourlyForecast, tenDayForecast)
    }

    constructor ()
      ensures Shown() == InitialDisplay
      ensures userLocation == None && requests == []
    {
      currentTemperature := "";
      currentCondition := "";
      dailyHighLow := "H:0 L:0";
      hourlyForecast := [];
      tenDayForecast := [];
      userLocation := None;
      requests := [];
    }

    /** Stores the coordinate, then fetches for it. */
    method UpdateLocation(latitude: real, longitude: real)
      modifies this
      ensures userLocation == Some(Coordinate(latitude, longitude))
      ensures requests == old(requests) + [Coordinate(latitude, longitude)]
      ensures Shown() == old(Shown())
    {
      userLocation := Some(Coordinate(latitude, longitude));
      FetchCurrentWeather();
    }

    /** Issues a weather request for the stored coordinate; with no coordinate
      stored it does nothing at all. */
    method FetchCurrentWeather()
      modifies this`requests
      ensures requests == old(requests) + (if userLocation.Some? then [userLocation.value] else [])
    {
      match userLocation
      case None =>
      case Some(location) => requests := requests + [location];
    }

    /** The answer to a weather request, seen on the main queue at time `now`.
      On success all five published fields are rebuilt from the bundle: the
      lists are emptied first and then filled in series order. On failure
      nothing changes. */
    method CompleteFetch(outcome: WeatherOutcome, now: Date)
      requires outcome.WeatherFetched? ==> |outcome.bundle.daily| > 0
      modifies this
      ensures outcome.WeatherFetched? ==> Shown() == DisplayFor(outcome.bundle, now)
      ensures outcome.WeatherFailed? ==> Shown() == old(Shown())
      ensures userLocation == old(userLocation) && requests == old(requests)
    {
      match outcome
      case WeatherFailed =>
      case WeatherFetched(weather) =>
        currentTemperature := weather.current.temperature.formatted;
        currentCondition := weather.current.condition;
        dailyHighLow := HighLow(weather.daily[0]);

        hourlyForecast := [];
        tenDayForecast := [];
        AppendHours(weather.hourly, now);
        AppendDays(weather.daily, now);
        assert hourlyForecast == HourlyForecast(weather.hourly, now);
        assert tenDayForecast == DailyForecast(weather.daily, now);
    }
    /** The hourly `forEach`: appends the row of every entry at or after the
      current hour, in series order. */
    method AppendHours(hours: seq<HourForecast>, now: Date)
      modifies this`hourlyForecast
      ensures hourlyForecast == old(hourlyForecast) + HourlyForecast(hours, now)
    {
      var i := 0;
      while i < |hours|
        invariant 0 <= i <= |hours|
        invariant hourlyForecast == old(hourlyForecast) + HourlyForecast(hours[..i], now)
      {
        var h := hours[i];
        assert hours[..i + 1][..i] == hours[..i];
        if IsSameHourOrLater(h.date, now) {
          hourlyForecast := hourlyForecast + [HourWeather(HourFormatter(h.date, now), h.symbolName, DropLast(h.temperature.formatted))];
        }
        i := i + 1;
      }
      assert hours[..|hours|] == hours;
    }

    /** The daily `forEach`: appends the row of every entry, in series order. */
    method AppendDays(days: seq<DayForecast>, now: Date)
      modifies this`tenDayForecast
      ensures tenDayForecast == old(tenDayForecast) + DailyForecast(days, now)
    {
      var j := 0;
      while j < |days|
        invariant 0 <= j <= |days|
        invariant tenDayForecast == old(tenDayForecast) + DailyForecast(days[..j], now)
      {
        var d := days[j];
        assert days[..j + 1][..j] == days[..j];
        tenDayForecast := tenDayForecast + [DayWeather(DayFormatter(d.date, now), d.symbolName, DropLast(d.lowTemperature.formatted), DropLast(d.highTemperature.formatted))];
        j := j + 1;
      }
      assert days[..|days|] == days;
    }
  }

  /** With no coordinate stored, fetching changes nothing and asks for nothing;
      after `UpdateLocation` the request is for exactly that coordinate. */
  method FetchWithoutLocationIsInert(latitude: real, longitude: real)
    returns (before: Display, after: Display, asked: nat, requested: seq<Coordinate>)
    ensures before == after == InitialDisplay && asked == 0
    ensures requested == [Coordinate(latitude, longitude)]
  {
    var m := new WeatherManager();
    before := m.Shown();
    m.FetchCurrentWeather();
    after := m.Shown();
    asked := |m.requests|;
    m.UpdateLocation(latitude, longitude);
    requested := m.requests;
  }
}
