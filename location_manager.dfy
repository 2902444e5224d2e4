/** The location resolver (`LocationManager`): location permission, the
    device's location fix, place search behind the debounced search text,
    the map's pin list and reverse geocoding of the picked point.

    Every request to a platform service is appended to `requests`; its answer
    arrives later, and in any order, through a completion method. The
    completions carry no request number and apply whatever answer arrives. */
module Location {
  import opened Platform
  import opened SearchPipeline

  /** The device's location permission states. */
  datatype AuthorizationStatus = NotDetermined | Restricted | Denied | AuthorizedAlways | AuthorizedWhenInUse

  /** Requests made to the platform services. */
  datatype Request =
    | RequestWhenInUseAuthorization   // ask the user for permission
    | RequestLocation                 // ask for one location fix
    | SearchPlaces(query: string)     // a natural-language place search
    | ReverseGeocode(coordinate: Coordinate)

  /** A map annotation: the point it marks and its title. */
  datatype Annotation = Annotation(coordinate: Coordinate, title: string)

  /** The title every dropped pin carries. */
  const PinTitle: string := "Drying clothes location"

  /** The answer of a place search: the placemarks of the returned map items,
      or a thrown error. */
  datatype SearchOutcome = SearchSucceeded(placemarks: seq<Placemark>) | SearchFailed

  /** The answer of a reverse geocoding: the returned placemarks, or a thrown error. */
  datatype GeocodeOutcome = GeocodeSucceeded(placemarks: seq<Placemark>) | GeocodeFailed

  /** What a change of permission status asks of the platform. A denial goes
      to the error handler, which does nothing. */
  function AuthorizationResponse(status: AuthorizationStatus): (r: Option<Request>)
    ensures r == Some(RequestLocation) <==> status == AuthorizedAlways || status == AuthorizedWhenInUse
    ensures r == Some(RequestWhenInUseAuthorization) <==> status == NotDetermined
    ensures r == None <==> status == Denied || status == Restricted
  {
    match status
    case AuthorizedAlways => Some(RequestLocation)
    case AuthorizedWhenInUse => Some(RequestLocation)
    case Denied => None
    case NotDetermined => Some(RequestWhenInUseAuthorization)
    case _ => None
  }

  /** `c` lower-cased; letters outside A-Z are kept as they are. */
  function LowerChar(c: char): char
  {
    if 'A' <= c <= 'Z' then (c as int + 32) as char else c
  }

  /** The query text a search sends: the typed text, lower-cased. */
  function Lowercased(s: string): (r: string)
    ensures |r| == |s|
    ensures forall i :: 0 <= i < |r| ==> !('A' <= r[i] <= 'Z')
    ensures forall i :: 0 <= i < |s| && !('A' <= s[i] <= 'Z') ==> r[i] == s[i]
    ensures forall i :: 0 <= i < |s| && 'A' <= s[i] <= 'Z' ==> r[i] as int == s[i] as int + 32
  {
    seq(|s|, i requires 0 <= i < |s| => LowerChar(s[i]))
  }

  /** Lower-casing an already lower-cased query changes nothing. */
  lemma LowercasedIdempotent(s: string)
    ensures Lowercased(Lowercased(s)) == Lowercased(s)
  {
  }

  /** The first placemark of a reverse geocoding, if it succeeded and found one. */
  function GeocodedPlace(outcome: GeocodeOutcome): (r: Option<Placemark>)
    ensures r.Some? <==> outcome.GeocodeSucceeded? && |outcome.placemarks| > 0
    ensures r.Some? ==> r.value == outcome.placemarks[0]
  {
    match outcome
    case GeocodeFailed => None
    case GeocodeSucceeded(places) => if |places| == 0 then None else Some(places[0])
  }

  class LocationManager {
    /** The text of the search field. */
    var searchText: string
    /** The hidden state of the debounce and duplicate filter. */
    var debouncer: Debouncer
    /** Every text change and clock reading the search pipeline has seen. */
    ghost var searchLog: seq<SearchEvent>
    var fetchedPlaces: Option<seq<Placemark>>
    var userLocation: Option<Coordinate>
    var pickedLocation: Option<Coordinate>
    var pickedPlaceMark: Option<Placemark>
    /** The annotations of the map view, in the order they were added. */
    var annotations: seq<Annotation>
    /** The requests made to the platform services, oldest first. */
    var requests: seq<Request>

    /** The pipeline state is the replay of its log, whose last text change is
        the current search text. */
    ghost predicate Valid()
      reads this
    {
      && debouncer == Run(searchLog).0
      && LastEdit(searchLog).Some?
      && searchLog[LastEdit(searchLog).value].text == searchText
    }

    /** When the search text last changed. */
    ghost function LastEditTime(): int
      reads this
      requires Valid()
    {
      searchLog[LastEdit(searchLog).value].time
    }

    /** Creation asks for permission and subscribes to the search text, which
        sends its current value ("") into the pipeline at once. */
    constructor (now: int)
      ensures Valid()
      ensures searchText == "" && searchLog == [TextChanged(now, "")]
      ensures debouncer == Debouncer(Some(Pending("", now + DebounceMs)), None)
      ensures fetchedPlaces == None && userLocation == None
      ensures pickedLocation == None && pickedPlaceMark == None
      ensures annotations == [] && requests == [RequestWhenInUseAuthorization]
    {
      searchText := "";
      fetchedPlaces := None;
      userLocation := None;
      pickedLocation := None;
      pickedPlaceMark := None;
      annotations := [];
      requests := [RequestWhenInUseAuthorization];
      searchLog := [TextChanged(now, "")];
      debouncer := Input(Idle, "", now);
      assert [TextChanged(now, "")][..0] == [];
    }

    /** The user edits the search field at time `now`: the new text restarts
        the debounce timer. */
    method SearchTextChanged(text: string, now: int)
      requires Valid()
      modifies this`searchText, this`debouncer, this`searchLog
      ensures Valid()
      ensures searchText == text && searchLog == old(searchLog) + [TextChanged(now, text)]
      ensures debouncer == Debouncer(Some(Pending(text, now + DebounceMs)), old(debouncer).lastDelivered)
      ensures LastEditTime() == now
    {
      RunStep(searchLog, TextChanged(now, text));
      searchText := text;
      searchLog := searchLog + [TextChanged(now, text)];
      debouncer := Input(debouncer, text, now);
    }

    /** The clock reaches `now`. When the debounce timer is due, the search
        text goes through the duplicate filter, and a value it lets through
        reaches the handler: an empty text clears the results, any other text
        starts a search for its lower-cased form. */
    method DebounceTick(now: int) returns (delivered: Option<string>)
      requires Valid()
      modifies this
      ensures Valid()
      ensures searchLog == old(searchLog) + [ClockAdvanced(now)]
      ensures searchText == old(searchText)
      ensures delivered.Some? <==>
                old(debouncer).pending.Some? && now >= old(debouncer).pending.value.deadline
                && old(debouncer).lastDelivered != Some(searchText)
      ensures delivered.Some? ==> delivered.value == searchText && now >= old(LastEditTime()) + DebounceMs
      ensures delivered == Some("") ==> fetchedPlaces == None && requests == old(requests)
      ensures delivered.Some? && delivered.value != "" ==>
                fetchedPlaces == old(fetchedPlaces) && requests == old(requests) + [SearchPlaces(Lowercased(delivered.value))]
      ensures delivered.None? ==> fetchedPlaces == old(fetchedPlaces) && requests == old(requests)
      ensures userLocation == old(userLocation) && pickedLocation == old(pickedLocation)
      ensures pickedPlaceMark == old(pickedPlaceMark) && annotations == old(annotations)
    {
      RunKeepsInvariant(searchLog);
      RunStep(searchLog, ClockAdvanced(now));
      var fired := Fire(debouncer, now);
      searchLog := searchLog + [ClockAdvanced(now)];
      debouncer := fired.0;
      delivered := fired.1;
      match delivered
      case None =>
      case Some(value) =>
        if value != "" {
          FetchPlaces(value);
        } else {
          fetchedPlaces := None;
        }
    }

    /** Starts a place search for the lower-cased text. */
    method FetchPlaces(value: string)
      modifies this`requests
      ensures requests == old(requests) + [SearchPlaces(Lowercased(value))]
    {
      requests := requests + [SearchPlaces(Lowercased(value))];
    }

    /** The answer to a place search: the returned placemarks, possibly none,
        or no list at all after an error. */
    method CompleteSearch(outcome: SearchOutcome)
      modifies this`fetchedPlaces
      ensures outcome.SearchSucceeded? ==> fetchedPlaces == Some(outcome.placemarks)
      ensures outcome.SearchFailed? ==> fetchedPlaces == None
    {
      match outcome
      case SearchSucceeded(places) => fetchedPlaces := Some(places);
      case SearchFailed => fetchedPlaces := None;
    }

    /** A batch of location fixes: the last one wins; an empty batch changes nothing. */
    method DidUpdateLocations(locations: seq<Coordinate>)
      modifies this`userLocation
      ensures |locations| > 0 ==> userLocation == Some(locations[|locations| - 1])
      ensures |locations| == 0 ==> userLocation == old(userLocation)
    {
      if |locations| > 0 {
        userLocation := Some(locations[|locations| - 1]);
      }
    }

    /** The permission status changed: make the request the status calls for. */
    method DidChangeAuthorization(status: AuthorizationStatus)
      modifies this`requests
      ensures AuthorizationResponse(status).Some? ==> requests == old(requests) + [AuthorizationResponse(status).value]
      ensures AuthorizationResponse(status).None? ==> requests == old(requests)
    {
      match status
      case AuthorizedAlways => requests := requests + [RequestLocation];
      case AuthorizedWhenInUse => requests := requests + [RequestLocation];
      case Denied => HandleLocationError();
      case NotDetermined => requests := requests + [RequestWhenInUseAuthorization];
      case _ =>
    }

    /** The permission-denied handler: it does nothing. */
    method HandleLocationError()
      ensures unchanged(this)
    {
    }

    /** Drops one pin with the fixed title at `coordinate`, after the pins already there. */
    method AddDraggablePin(coordinate: Coordinate)
      modifies this`annotations
      ensures annotations == old(annotations) + [Annotation(coordinate, PinTitle)]
    {
      annotations := annotations + [Annotation(coordinate, PinTitle)];
    }

    /** A pin's drag state changed (in any way). The map has moved the pin at
        index `pin` of the annotations to `coordinate` in place; that point
        becomes the picked location, and reverse geocoding starts for it. The
        placemark picked so far is kept until the answer arrives. A view
        without an annotation (`pin == None`) changes nothing. */
    method DidChangeDragState(pin: Option<nat>, coordinate: Coordinate)
      requires pin.Some? ==> pin.value < |annotations|
      modifies this`annotations, this`pickedLocation, this`requests
      ensures pin.Some? ==>
                annotations == old(annotations)[pin.value := Annotation(coordinate, old(annotations)[pin.value].title)]
      ensures pin.Some? ==> pickedLocation == Some(coordinate)
      ensures pin.Some? ==> requests == old(requests) + [ReverseGeocode(coordinate)]
      ensures pin.None? ==>
                annotations == old(annotations) && pickedLocation == old(pickedLocation) && requests == old(requests)
    {
      match pin
      case None =>
      case Some(i) =>
        annotations := annotations[i := Annotation(coordinate, annotations[i].title)];
        pickedLocation := Some(coordinate);
        UpdatePlacemark(coordinate);
    }

    /** Starts reverse geocoding of `coordinate`. */
    method UpdatePlacemark(coordinate: Coordinate)
      modifies this`requests
      ensures requests == old(requests) + [ReverseGeocode(coordinate)]
    {
      requests := requests + [ReverseGeocode(coordinate)];
    }

    /** The answer to a reverse geocoding: its first placemark becomes the
        picked one; an error or an empty answer keeps the previous one. The
        answer is applied whichever request it belongs to. */
    method CompleteGeocode(outcome: GeocodeOutcome)
      modifies this`pickedPlaceMark
      ensures GeocodedPlace(outcome).Some? ==> pickedPlaceMark == GeocodedPlace(outcome)
      ensures GeocodedPlace(outcome).None? ==> pickedPlaceMark == old(pickedPlaceMark)
    {
      var place := GeocodedPlace(outcome);
      if place.Some? {
        pickedPlaceMark := place;
      }
    }
  }

  /** A pin dropped at `c0` and dragged to `c1` and then to `c2` stays one pin,
      now at `c2`, which is also the picked location. Geocoding answers are
      applied in arrival order, not request order: when the answer for `c1`
      arrives after the answer for `c2`, the place found for `c1` is what
      stays picked. */
  method LateGeocodeAnswerWins(first: Placemark, second: Placemark, c0: Coordinate, c1: Coordinate, c2: Coordinate)
    returns (requested: seq<Request>, pins: seq<Annotation>, located: Option<Coordinate>, picked: Option<Placemark>)
    ensures requested == [RequestWhenInUseAuthorization, ReverseGeocode(c1), ReverseGeocode(c2)]
    ensures pins == [Annotation(c2, PinTitle)] && located == Some(c2)
    ensures picked == Some(first)
  {
    var m := new LocationManager(0);
    m.AddDraggablePin(c0);
    m.DidChangeDragState(Some(0), c1);
    m.DidChangeDragState(Some(0), c2);
    m.CompleteGeocode(GeocodeSucceeded([second]));
    m.CompleteGeocode(GeocodeSucceeded([first]));
    requested, pins, located, picked := m.requests, m.annotations, m.pickedLocation, m.pickedPlaceMark;
  }

  /** Typing "Par" and then "Paris" within 0.5 s and letting the clock run
      sends one search, for "paris"; the initial empty text, delivered first,
      only clears the results. */
  method TypingBurstSearchesOnce() returns (requested: seq<Request>, places: Option<seq<Placemark>>)
    ensures requested == [RequestWhenInUseAuthorization, SearchPlaces("paris")]
    ensures places == None
  {
    var m := new LocationManager(0);
    var d0 := m.DebounceTick(DebounceMs);
    m.SearchTextChanged("Par", 1000);
    var d1 := m.DebounceTick(1200);
    m.SearchTextChanged("Paris", 1300);
    var d2 := m.DebounceTick(1700);
    var d3 := m.DebounceTick(1800);
    var d4 := m.DebounceTick(5000);
    assert d0 == Some("") && d1 == None && d2 == None && d3 == Some("Paris") && d4 == None;
    assert Lowercased("Paris") == "paris";
    requested, places := m.requests, m.fetchedPlaces;
  }
}
