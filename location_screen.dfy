/** The actions of the location picker (`LocationView`) and of the map
    confirmation screen (`MapViewSelection`). Both screens share one location
    manager and the same bindings to the stored location and the navigation
    path; the picker also owns the navigation tag that opens the map screen. */
module LocationScreen {
  import opened Platform
  import opened Location

  /** The tag that opens the map screen. */
  const MapViewTag: string := "MAPVIEW"

  /** The name stored when the confirmed placemark has none. */
  const DefaultLocationName: string := "Select Location"

  /** What the picker shows below the search field. */
  datatype Content = ResultList(places: seq<Placemark>) | LiveLocationButton

  /** The result list when the search returned at least one place; the
      "use current location" button when there is no list or it is empty. */
  function ContentFor(fetchedPlaces: Option<seq<Placemark>>): (c: Content)
    ensures c.ResultList? <==> fetchedPlaces.Some? && |fetchedPlaces.value| > 0
    ensures c.ResultList? ==> c.places == fetchedPlaces.value
    ensures c.LiveLocationButton? <==> fetchedPlaces.None? || fetchedPlaces.value == []
  {
    match fetchedPlaces
    case Some(places) => if |places| > 0 then ResultList(places) else LiveLocationButton
    case None => LiveLocationButton
  }

  /** The stored location a confirmation writes: the placemark's name (or a
      fixed default) and the two halves of its coordinate (or none). */
  datatype StoredLocation = StoredLocation(name: string, latitude: Option<real>, longitude: Option<real>)

  function Confirmed(place: Placemark): (s: StoredLocation)
    ensures place.name.Some? ==> s.name == place.name.value
    ensures place.name.None? ==> s.name == DefaultLocationName
    ensures s.latitude.Some? <==> place.location.Some?
    ensures s.longitude.Some? <==> place.location.Some?
    ensures place.location.Some? ==>
              Coordinate(s.latitude.value, s.longitude.value) == place.location.value
  {
    StoredLocation(
      match place.name case Some(n) => n case None => DefaultLocationName,
      match place.location case Some(c) => Some(c.latitude) case None => None,
      match place.location case Some(c) => Some(c.longitude) case None => None)
  }

  class Screens {
    const manager: LocationManager
    var navigationTag: Option<string>
    /** The bound stored location and navigation path. */
    var location: string
    var latitude: Option<real>
    var longitude: Option<real>
    var navigationPath: seq<int>

    constructor (manager: LocationManager, location: string, latitude: Option<real>, longitude: Option<real>, navigationPath: seq<int>)
      ensures this.manager == manager && navigationTag == None
      ensures this.location == location && this.latitude == latitude && this.longitude == longitude
      ensures this.navigationPath == navigationPath
    {
      this.manager := manager;
      navigationTag := None;
      this.location := location;
      this.latitude := latitude;
      this.longitude := longitude;
      this.navigationPath := navigationPath;
    }

    /** What the picker shows now. */
    function ShownContent(): Content
      reads this, manager
    {
      ContentFor(manager.fetchedPlaces)
    }

    /** The stored location as one value. */
    function Stored(): StoredLocation
      reads this
    {
      StoredLocation(location, latitude, longitude)
    }

    /** A search result was tapped. When it has a location, that point becomes
        the picked location, gets a pin and is reverse geocoded; in every case
        the map screen opens. */
    method ChooseResult(place: Placemark)
      modifies this`navigationTag, manager`pickedLocation, manager`annotations, manager`requests
      ensures navigationTag == Some(MapViewTag)
      ensures place.location.Some? ==>
                && manager.pickedLocation == place.location
                && manager.annotations == old(manager.annotations) + [Annotation(place.location.value, PinTitle)]
                && manager.requests == old(manager.requests) + [ReverseGeocode(place.location.value)]
      ensures place.location.None? ==>
                && manager.pickedLocation == old(manager.pickedLocation)
                && manager.annotations == old(manager.annotations)
                && manager.requests == old(manager.requests)
    {
      if place.location.Some? {
        var coordinate := place.location.value;
        manager.pickedLocation := Some(coordinate);
        manager.AddDraggablePin(coordinate);
        manager.UpdatePlacemark(coordinate);
      }
      navigationTag := Some(MapViewTag);
    }

    /** "Use current location" was tapped. Without a device location nothing
        happens; with one, it gets a pin, is reverse geocoded and the map
        screen opens. The picked location is left as it was. */
    method UseCurrentLocation()
      modifies this`navigationTag, manager`annotations, manager`requests
      ensures manager.userLocation.None? ==>
                && navigationTag == old(navigationTag)
                && manager.annotations == old(manager.annotations)
                && manager.requests == old(manager.requests)
      ensures manager.userLocation.Some? ==>
                && navigationTag == Some(MapViewTag)
                && manager.annotations == old(manager.annotations) + [Annotation(manager.userLocation.value, PinTitle)]
                && manager.requests == old(manager.requests) + [ReverseGeocode(manager.userLocation.value)]
    {
      match manager.userLocation
      case None =>
      case Some(coordinate) =>
        manager.AddDraggablePin(coordinate);
        manager.UpdatePlacemark(coordinate);
        navigationTag := Some(MapViewTag);
    }

    /** "Confirm location" was tapped; the button exists only while a placemark
        is picked. The placemark's name and coordinate are stored and the
        navigation path is emptied, returning to the forecast screen. */
    method Confirm()
      requires manager.pickedPlaceMark.Some?
      modifies this`location, this`latitude, this`longitude, this`navigationPath
      ensures Stored() == Confirmed(manager.pickedPlaceMark.value)
      ensures navigationPath == []
    {
      var place := manager.pickedPlaceMark.value;
      location := match place.name case Some(n) => n case None => DefaultLocationName;
      latitude := match place.location case Some(c) => Some(c.latitude) case None => None;
      longitude := match place.location case Some(c) => Some(c.longitude) case None => None;
      navigationPath := [];
    }

    /** The map screen went away: the pick is forgotten and every annotation
        is removed from the map. */
    method Dismiss()
      modifies manager`pickedLocation, manager`pickedPlaceMark, manager`annotations
      ensures manager.pickedLocation == None && manager.pickedPlaceMark == None
      ensures manager.annotations == []
    {
      manager.pickedLocation := None;
      manager.pickedPlaceMark := None;
      manager.annotations := [];
    }
  }

  /** Choosing a searched place and confirming the placemark the geocoder
      returns for it stores exactly that placemark's name and coordinate. */
  method PickAndConfirm(place: Placemark, found: Placemark)
    returns (stored: StoredLocation, path: seq<int>, requested: seq<Request>)
    requires place.location.Some?
    ensures stored == Confirmed(found) && path == []
    ensures requested == [RequestWhenInUseAuthorization, ReverseGeocode(place.location.value)]
  {
    var m := new LocationManager(0);
    var screens := new Screens(m, DefaultLocationName, None, None, [1]);
    screens.ChooseResult(place);
    m.CompleteGeocode(GeocodeSucceeded([found]));
    screens.Confirm();
    stored, path, requested := screens.Stored(), screens.navigationPath, m.requests;
  }
}
