# DryTime location and forecast core, in Dafny

DryTime is a small iOS weather app. The user picks where they dry their
washing: they search for a place, use the device location, or drag a map pin.
The app then shows the current weather, an hourly forecast starting at the
current hour and a ten-day forecast for that spot. This project models the logic between the platform
services and the screens.

- **Weather aggregation** (`Forecast`, for `WeatherManager`). This is the
  lookup tables for symbol and day descriptions, the "Now"/"Today" labels, the
  hour-granularity filter, trimming of the unit symbol from temperatures, the
  `"H:… L:…"` summary, and the object that rebuilds its five published fields
  from a weather bundle.
- **The earlier draft** (`ForecastDraft`, for `WeatherViewModel`). It always
  fetches for Seattle and never empties its lists, so repeated fetches pile up
  rows. `ForecastDraft.RepeatedFetchAccumulates` states the difference from the
  manager.
- **The search pipeline** (`SearchPipeline`). This models the 0.5 s debounce
  and the duplicate filter on the search text, over integer milliseconds.
  Their state is a value, replayed over a trace of text changes and clock
  readings. It is proved that every delivered text stayed unchanged for
  0.5 s, that consecutive deliveries differ, and that a text replaced in
  under 0.5 s is never delivered.
- **Location resolution** (`Location`, for `LocationManager`). This covers
  the permission dispatch, last-fix-wins location updates, the handler of
  delivered search texts, search and reverse-geocoding completions, and the
  pin list.
- **Picking and confirming** (`LocationScreen`, for the actions of
  `LocationView` and `MapViewSelection`). This covers which content the
  picker shows, choosing a result, "use current location", confirming (which
  writes the stored name and coordinate and empties the navigation path), and
  dismissal.

The platform services are modelled as an outbox plus completion events. Each
class keeps a `requests` field that lists, in order, the requests it made:
permission, location fix, place search, reverse geocoding or weather. Each
asynchronous answer is a separate method that takes the provider's outcome as
a parameter. Completions are applied in whatever order they arrive. The code
has no request-ordering guard, and `Location.LateGeocodeAnswerWins` shows that
a late answer for the pin's older point overwrites the answer for its newer one.

A date is a record of six fields, in three groups:

- an absolute hour index, used by the hour-granularity comparison;
- month, day-of-month and hour-of-day, used by the label tests;
- the two texts the `"ha"` and `"EEE"` formatters would print for it.

A formatted temperature is its text. Coordinates are pairs of reals that are
only stored and compared.

The model follows the code in these points:

- The code has no last-request-wins guard for search, geocoding or weather.
- An empty search text is not short-circuited. It goes through the debounce
  like any other value, and when delivered it clears the results.
- A drag does not clear the picked placemark. It sets the picked location to
  the pin's new point and starts a new geocode for it; the old placemark stays
  until the answer arrives.
- The current temperature is stored with its unit symbol. Only the hourly,
  daily and high/low temperatures lose their last character.
- The hour filter compares whole instants at hour granularity. It does not
  compare the hour of the day.

## Model

| member | source | states |
|---|---|---|
| Forecast.SymbolDescription | DryTime/Model/Weather.swift:21-35 | each of the nine symbol keys maps to its text; the result is "Unknown weather condition" exactly for keys outside the table |
| Forecast.DayDescription | DryTime/Model/Weather.swift:37-50 | "Today" and "Mon"…"Sun" map to "Today" and the full weekday names; the result is "Unknown day" exactly for other labels |
| Forecast.CompareToHour | DryTime/Model/Weather.swift:106-108 | the hour-granularity comparison is ascending, same or descending exactly as the hour indices are less, equal or greater |
| Forecast.IsSameHourOrLater | DryTime/Model/Weather.swift:106-110 | true iff the comparison is same or descending, i.e. iff the first instant's hour is at or after the second's |
| Forecast.SameHourOrLaterIsTotalPreorder | DryTime/Model/Weather.swift:106-110 | the at-or-after test is reflexive, transitive and total, and holds both ways exactly when the comparison is "same" |
| Forecast.HourFormatter | DryTime/Model/Weather.swift:91-104 | the label is "Now" when day-of-month and hour equal those of now (month ignored); it is otherwise the "ha" text; and, when that text is not "Now", the label is "Now" iff the components match |
| Forecast.DayFormatter | DryTime/Model/Weather.swift:112-126 | the label is "Today" when the day-of-month equals today's (month ignored); it is otherwise the "EEE" text; and "Today" iff the days match when that text is not "Today" |
| Forecast.DayLabelDescribed | DryTime/Model/Weather.swift:37-50 | the day table reads a day label back: "Today" for today, the full name for a weekday abbreviation, "Unknown day" for anything else |
| Forecast.DropLast | DryTime/Model/Weather.swift:76 | a string of length n becomes its prefix of length max(n-1, 0); a non-empty string is that prefix plus its last character |
| Forecast.HighLow | DryTime/Model/Weather.swift:68 | the summary is "H:", the trimmed high, " L:", the trimmed low, in that layout and of that total length |
| Forecast.HighLowDeterminesTemperatures | DryTime/Model/Weather.swift:68 | the "H:hi L:lo" summary determines the trimmed high and low, as long as the trimmed high has no space |
| Forecast.ToHourWeather | DryTime/Model/Weather.swift:76 | an hourly row is labelled "Now" or the entry's "ha" text, keeps its symbol, and its temperature is the entry's text without its last character |
| Forecast.ToDayWeather | DryTime/Model/Weather.swift:82 | a daily row is labelled "Today" or the entry's "EEE" text, keeps its symbol, and each temperature is the entry's text without its last character |
| Forecast.HourlyForecast | DryTime/Model/Weather.swift:74-78 | one pass over the hourly series yields at most one row per entry |
| Forecast.QualifyingHours | DryTime/Model/Weather.swift:75 | the strictly increasing list of positions whose entry is at or after the current hour, holding every such position and no other |
| Forecast.HourlyForecastSelectsQualifying | DryTime/Model/Weather.swift:74-78 | the hourly rows are exactly the rows of the qualifying entries, in series order, each labelled by `HourFormatter` and with its temperature trimmed |
| Forecast.DailyForecast | DryTime/Model/Weather.swift:81-83 | the daily rows have the series' length, and row k is the labelled, trimmed entry k |
| Forecast.HourlyForecastExample | DryTime/Model/Weather.swift:74-78 | of 22:00 yesterday, the current hour, +1 h and +5 h, the list keeps the last three, and the first is labelled "Now" |
| Forecast.DailyForecastExample | DryTime/Model/Weather.swift:81-83 | today's entry is labelled "Today" and one three days later is labelled by its weekday abbreviation |
| Forecast.DisplayFor | DryTime/Model/Weather.swift:66-83 | after success the current temperature is the untrimmed formatted text, the condition is the provider's, the summary is that of the first day, and the lists have at most one row per hour and exactly one per day |
| Forecast.DisplayForReplacesLists | DryTime/Model/Weather.swift:70-83 | after a successful fetch the daily list has the series' length and the hourly list has the qualifying count, whatever was shown before |
| Forecast.WeatherManager.constructor | DryTime/Model/Weather.swift:12-19 | empty texts, "H:0 L:0", empty lists, no location, no request |
| Forecast.WeatherManager.UpdateLocation | DryTime/Model/Weather.swift:52-55 | the coordinate is stored, then a weather request for it is issued; the display is unchanged |
| Forecast.WeatherManager.FetchCurrentWeather | DryTime/Model/Weather.swift:57-64 | a request is issued for the stored coordinate; with none stored, nothing changes at all |
| Forecast.WeatherManager.CompleteFetch | DryTime/Model/Weather.swift:62-88 | on success all five fields become the bundle's display (lists emptied, then rebuilt); on error all five are unchanged; location and requests are never touched |
| Forecast.WeatherManager.AppendHours | DryTime/Model/Weather.swift:74-78 | the hourly loop appends exactly the qualifying rows after the existing ones |
| Forecast.WeatherManager.AppendDays | DryTime/Model/Weather.swift:81-83 | the daily loop appends every row, in series order, after the existing ones |
| Forecast.FetchWithoutLocationIsInert | DryTime/Model/Weather.swift:52-61 | a fresh manager with no location fetches: display unchanged, no request; after `UpdateLocation` the one request is for exactly that coordinate |
| ForecastDraft.WeatherViewModel.constructor | DryTime/ViewModel/Weather.swift:20-24 | creation shows the initial display and issues one request, for (47.6062, -122.3321) |
| ForecastDraft.WeatherViewModel.FetchCurrentWeather | DryTime/ViewModel/Weather.swift:26-29 | every fetch requests weather for the fixed Seattle coordinate |
| ForecastDraft.WeatherViewModel.CompleteFetch | DryTime/ViewModel/Weather.swift:26-51 | on success the three texts are overwritten and the lists grow, with the old rows kept as a prefix; on error nothing changes |
| ForecastDraft.WeatherViewModel.AppendHours | DryTime/ViewModel/Weather.swift:36-40 | the hourly loop appends exactly the qualifying rows after the existing ones |
| ForecastDraft.WeatherViewModel.AppendDays | DryTime/ViewModel/Weather.swift:43-45 | the daily loop appends every row after the existing ones |
| ForecastDraft.RepeatedFetchAccumulates | DryTime/ViewModel/Weather.swift:36-45 | the same bundle delivered twice leaves the manager with one copy of each list and the draft with two copies; its halves `ForecastDraft.ManagerFetchesTwice` and `ForecastDraft.DraftFetchesTwice` state the manager's and the draft's lists |
| ForecastDraft.ManagerFetchesTwice | DryTime/Model/Weather.swift:70-83 | after a second fetch of the same bundle, the manager holds exactly one copy of the daily and the hourly lists |
| ForecastDraft.DraftFetchesTwice | DryTime/ViewModel/Weather.swift:36-45 | after two deliveries of the same bundle, the draft holds each list twice, the second copy after the first |
| SearchPipeline.Input | DryTime/Model/LocationManager.swift:41-42 | a new text replaces whatever was pending and restarts the timer at now + 500 ms; the duplicate filter's memory is kept |
| SearchPipeline.Run | DryTime/Model/LocationManager.swift:41-43 | replaying a trace gives at most one delivery per event, each made by a clock event of the trace |
| SearchPipeline.Fire | DryTime/Model/LocationManager.swift:41-43 | a value is delivered iff a text is pending, its 0.5 s deadline has come, and it differs from the last delivered value; a due timer is cleared either way |
| SearchPipeline.RunKeepsInvariant | DryTime/Model/LocationManager.swift:41-43 | along any trace, the pending text is the latest change with deadline +500 ms; every delivery is quiet; consecutive deliveries differ |
| SearchPipeline.DeliveriesAreQuiet | DryTime/Model/LocationManager.swift:41-42 | each delivered text is the last change before the delivering clock event, made at least 500 ms earlier |
| SearchPipeline.ConsecutiveDeliveriesDiffer | DryTime/Model/LocationManager.swift:43 | two consecutive deliveries never carry the same text |
| SearchPipeline.SupersededTextNeverDelivered | DryTime/Model/LocationManager.swift:41-42 | with time going forward, a change followed by another change less than 500 ms later is never the one delivered |
| Location.AuthorizationResponse | DryTime/Model/LocationManager.swift:83-95 | always/when-in-use ask for a location fix, not-determined asks for permission again, and denied (whose handler is empty) or any other status asks nothing |
| Location.Lowercased | DryTime/Model/LocationManager.swift:60 | the query has the text's length and no upper-case ASCII letter; A-Z become a-z and every other character is kept |
| Location.LowercasedIdempotent | DryTime/Model/LocationManager.swift:60 | lower-casing an already lower-cased query changes nothing |
| Location.GeocodedPlace | DryTime/Model/LocationManager.swift:121-138 | a geocoding yields a place iff it succeeded with at least one placemark, and the place is the first |
| Location.LocationManager.constructor | DryTime/Model/LocationManager.swift:31-54 | creation asks for permission once and feeds the initial empty search text into the debounce; every other field is empty |
| Location.LocationManager.SearchTextChanged | DryTime/Model/LocationManager.swift:41-42 | a new search text restarts the timer with deadline now + 500 ms and keeps the duplicate filter's memory |
| Location.LocationManager.DebounceTick | DryTime/Model/LocationManager.swift:41-53 | a delivery happens iff the timer is due and the text is new; it is always the current text, unchanged for 500 ms; "" clears the results and sends nothing; any other text sends one lower-cased search |
| Location.LocationManager.FetchPlaces | DryTime/Model/LocationManager.swift:56-60 | one search request with the lower-cased text |
| Location.LocationManager.CompleteSearch | DryTime/Model/LocationManager.swift:61-69 | success stores the returned placemarks as a present, possibly empty, list; failure stores no list |
| Location.LocationManager.DidUpdateLocations | DryTime/Model/LocationManager.swift:77-80 | the last fix of a batch becomes the user location; an empty batch changes nothing |
| Location.LocationManager.DidChangeAuthorization | DryTime/Model/LocationManager.swift:83-95 | the request list grows by exactly the request `AuthorizationResponse` gives, or not at all |
| Location.LocationManager.HandleLocationError | DryTime/Model/LocationManager.swift:93-95 | the permission-denied handler changes no state |
| Location.LocationManager.AddDraggablePin | DryTime/Model/LocationManager.swift:98-104 | exactly one annotation, titled "Drying clothes location", at the coordinate, after the existing ones |
| Location.LocationManager.DidChangeDragState | DryTime/Model/LocationManager.swift:115-119 | the dragged pin moves in place to the new point (title kept, other pins untouched), that point becomes the picked location and one geocode is requested for it; a view without an annotation changes nothing |
| Location.LocationManager.UpdatePlacemark | DryTime/Model/LocationManager.swift:121-132 | one reverse-geocoding request for the coordinate |
| Location.LocationManager.CompleteGeocode | DryTime/Model/LocationManager.swift:121-138 | the first placemark found becomes the picked one; an error or an empty answer keeps the previous one |
| Location.LateGeocodeAnswerWins | DryTime/Model/LocationManager.swift:98-132 | one pin dragged twice stays one pin, at the last point, which is the picked location; answered newest first, the older point's place stays picked (no last-request-wins) |
| Location.TypingBurstSearchesOnce | DryTime/Model/LocationManager.swift:41-53 | "Par" then "Paris" within 0.5 s send one search, for "paris"; the initial "" is delivered first and only clears the results |
| LocationScreen.Screens.constructor | DryTime/View/LocationView.swift:11-17 | the screens share the given manager, hold the given stored-location and navigation-path bindings, and start with no navigation tag |
| LocationScreen.ContentFor | DryTime/View/LocationView.swift:69-80 | the result list is shown iff the fetched list is present and non-empty; otherwise the live-location button is shown |
| LocationScreen.Confirmed | DryTime/View/LocationView.swift:170-172 | the stored name is the placemark's name or "Select Location"; latitude and longitude are present iff the placemark has a location, and then they are exactly its coordinate |
| LocationScreen.Screens.ChooseResult | DryTime/View/LocationView.swift:83-90 | with a location: picked location set, one pin added, one geocode requested; without one, the manager is unchanged; the tag becomes "MAPVIEW" either way |
| LocationScreen.Screens.UseCurrentLocation | DryTime/View/LocationView.swift:121-128 | with no device location nothing changes, tag included; otherwise one pin, one geocode and the tag; the picked location is never set |
| LocationScreen.Screens.Confirm | DryTime/View/LocationView.swift:144-173 | only with a picked placemark: the stored location becomes `Confirmed` of it and the navigation path is emptied |
| LocationScreen.Screens.Dismiss | DryTime/View/LocationView.swift:202-206 | the picked location and placemark become absent and every annotation is removed |
| LocationScreen.PickAndConfirm | DryTime/View/LocationView.swift:83-173 | choosing a place, receiving the geocoder's placemark and confirming stores exactly that placemark's name and coordinate and empties the path |

## Left out

- Screen layout, styling, accessibility text, previews, map region in metres and marker views are left out. They are presentation only.
- `MainView` is left out. It holds the stored-location defaults, the "both coordinates present" branch and the call to `updateLocation`. Persisting values across restarts is therefore not modelled.
- The platform services are left out: the weather service, place search, the geocoder and the location manager. Their answers are parameters of the completion methods.
- `DateFormatter` patterns, calendar and time-zone semantics, and `Measurement.formatted()` are left out. Their outputs are opaque fields of `Date` and `Temperature`.
- The model does not tie the hour index to the day/hour components, because the code never relates them either.
- Tasks, the main queue and main-actor hops are left out. Each completion is one sequential event. In particular, the deferred `fetchedPlaces = nil` of the empty-text branch happens at once.
- The search debounce has no real scheduler. The scheduler is modelled as `ClockAdvanced` events, at any times the environment chooses. Only safety is proved, so nothing guarantees that a text left unchanged for 0.5 s is delivered: a trace whose clock events all come after a later edit never delivers the earlier text.
- `Forecast.WeatherManager.CompleteFetch` reads the clock once per completion (`now`). The code calls `Date()` again for every entry, so entries at a passing hour boundary are not covered.
- `Forecast.WeatherManager.CompleteFetch` requires a non-empty daily series on success, because the code indexes entry 0 without a check and would trap. `ForecastDraft.WeatherViewModel.CompleteFetch` has the same requirement.
- `Forecast.DropLast` drops the last character, not the last grapheme cluster as Swift's `String.dropLast` does.
- `Location.Lowercased` lower-cases ASCII A-Z only. Swift's `lowercased()` also maps other Unicode letters.
- `SearchPipeline.Fire` compares texts code point by code point. Swift's `String ==`, which is what the duplicate filter uses, treats canonically equivalent texts as equal. So "café" with a precomposed é followed by "café" with a combining accent is delivered twice here, but only once by the app. The same applies to `Location.LocationManager.DebounceTick` and `SearchPipeline.ConsecutiveDeliveriesDiffer`.
- Location errors (`didFailWithError`) are left out, because the callback is empty in the code. `handleLocationError` is modelled as the empty method it is.
- Floating-point coordinates are modelled as reals that are only stored and compared.
- Diagnostic printing and the force-unwrap of the placemark name in an accessibility label are left out. The force-unwrap is a crash path, not behaviour.
