/**
 * The campus map page, the session controller of the navigator: it tracks the user's
 * position, lets a map click choose the destination, keeps the distance between the two
 * up to date, zooms within [0.3, 4], and starts, cancels, clears and completes a
 * navigation. The great-circle distance is the `measure` the session is created with.
 */
module CampusMapNavigation {
  import opened Wrappers
  import opened GeoRef
  import opened Geolocation
  import Zoom

  const MinZoom: real := 0.3
  const MaxZoom: real := 4.0
  const RecenterZoom: real := 1.5
  const FitZoom: real := 1.2

  const SelectedLocationName := "Selected Location"
  const NoGeolocationMessage := "Geolocation is not supported by this browser"

  /** A destination picked on the map: its point, its name and the SVG point clicked. */
  datatype Target = Target(point: GeoPoint, name: string, pixel: PixelPoint)

  /**
   * Where a watch error sends the user: permission denied to the permission setup,
   * unavailable position and timeout to the signal-lost page, any other code nowhere.
   */
  function ErrorRoute(code: ErrorCode): (r: Option<Route>)
    ensures r == Some(LocationPermissionSetup) <==> code == PermissionDenied
    ensures r == Some(GpsSignalLost) <==> code == PositionUnavailable || code == Timeout
    ensures r == None <==> code == UnknownCode
  {
    match code
    case PermissionDenied => Some(LocationPermissionSetup)
    case PositionUnavailable => Some(GpsSignalLost)
    case Timeout => Some(GpsSignalLost)
    case UnknownCode => None
  }

  class Session {
    /** The distance in metres between two points (the page's haversine formula). */
    const measure: (GeoPoint, GeoPoint) -> real
    var userLocation: Option<GeoPoint>
    var gpsAccuracy: Option<real>
    var locationError: Option<string>
    var watching: bool
    var zoom: real
    var destination: Option<Target>
    var distance: Option<real>
    var isNavigating: bool
    var hasArrived: bool
    /** How many 5 s timers started by arrivals are still to fire. */
    var arrivalTimers: nat
    /** The page most recently navigated to, if any. */
    var route: Option<Route>

    /** The distance the page should show: present exactly when both ends are known. */
    function ExpectedDistance(): (r: Option<real>)
      reads this
      ensures r.Some? <==> userLocation.Some? && destination.Some?
      ensures r.Some? ==> r.value == measure(userLocation.value, destination.value.point)
    {
      if userLocation.Some? && destination.Some? then Some(measure(userLocation.value, destination.value.point))
      else None
    }

    /** The distance is always the one the current location and destination call for, and the zoom stays within its limits. */
    ghost predicate Valid()
      reads this
    {
      distance == ExpectedDistance() && MinZoom <= zoom <= MaxZoom
    }

    constructor(measure: (GeoPoint, GeoPoint) -> real)
      ensures Valid() && this.measure == measure
      ensures userLocation == None && gpsAccuracy == None && locationError == None && !watching
      ensures zoom == 1.0 && destination == None && distance == None
      ensures !isNavigating && !hasArrived && arrivalTimers == 0 && route == None
    {
      this.measure := measure;
      userLocation := None;
      gpsAccuracy := None;
      locationError := None;
      watching := false;
      zoom := 1.0;
      destination := None;
      distance := None;
      isNavigating := false;
      hasArrived := false;
      arrivalTimers := 0;
      route := None;
    }

    /** The distance effect, run after every change of location or destination. */
    method DistanceEffect()
      modifies this`distance
      ensures distance == ExpectedDistance()
    {
      if userLocation.Some? && destination.Some? {
        distance := Some(measure(userLocation.value, destination.value.point));
      } else {
        distance := None;
      }
    }

    /** The tracking effect: without a sensor, an error message and the permission setup page. */
    method StartTracking(geolocationAvailable: bool)
      requires Valid()
      modifies this`locationError, this`route, this`watching
      ensures Valid()
      ensures !geolocationAvailable ==>
                locationError == Some(NoGeolocationMessage) && route == Some(LocationPermissionSetup) &&
                watching == old(watching)
      ensures geolocationAvailable ==> watching && locationError == old(locationError) && route == old(route)
    {
      if !geolocationAvailable {
        locationError := Some(NoGeolocationMessage);
        route := Some(LocationPermissionSetup);
        return;
      }
      watching := true;
    }

    /** The watch's success callback, followed by the distance effect. */
    method PositionSuccess(lat: real, lng: real, accuracy: real)
      requires Valid()
      modifies this`userLocation, this`gpsAccuracy, this`locationError, this`distance
      ensures Valid()
      ensures userLocation == Some(GeoPoint(lat, lng)) && gpsAccuracy == Some(accuracy) && locationError == None
      ensures destination.Some? ==> distance == Some(measure(GeoPoint(lat, lng), destination.value.point))
    {
      userLocation := Some(GeoPoint(lat, lng));
      gpsAccuracy := Some(accuracy);
      locationError := None;
      DistanceEffect();
    }

    /** The watch's error callback: record the message and route by the error code. */
    method PositionError(code: ErrorCode, message: string)
      requires Valid()
      modifies this`locationError, this`route
      ensures Valid()
      ensures locationError == Some(message)
      ensures ErrorRoute(code).Some? ==> route == ErrorRoute(code)
      ensures ErrorRoute(code).None? ==> route == old(route)
    {
      locationError := Some(message);
      var next := ErrorRoute(code);
      if next.Some? {
        route := next;
      }
    }

    /** handleMapClick: ignored while navigating; otherwise the clicked point becomes the destination. */
    method MapClick(gps: GeoPoint, pixel: PixelPoint)
      requires Valid()
      modifies this`destination, this`distance
      ensures Valid()
      ensures old(isNavigating) ==> destination == old(destination) && distance == old(distance)
      ensures !old(isNavigating) ==> destination == Some(Target(gps, SelectedLocationName, pixel))
    {
      if isNavigating {
        return;
      }
      destination := Some(Target(gps, SelectedLocationName, pixel));
      DistanceEffect();
    }

    method ZoomIn()
      requires Valid()
      modifies this`zoom
      ensures Valid() && zoom == Zoom.In(old(zoom), MaxZoom) && old(zoom) <= zoom
    {
      zoom := Zoom.In(zoom, MaxZoom);
    }

    method ZoomOut()
      requires Valid()
      modifies this`zoom
      ensures Valid() && zoom == Zoom.Out(old(zoom), MinZoom) && zoom <= old(zoom)
    {
      zoom := Zoom.Out(zoom, MinZoom);
    }

    /** Recenter: zoom 1.5, but only with a known location. */
    method Recenter()
      requires Valid()
      modifies this`zoom
      ensures Valid()
      ensures userLocation.Some? ==> zoom == RecenterZoom
      ensures userLocation.None? ==> zoom == old(zoom)
    {
      if userLocation.Some? {
        zoom := RecenterZoom;
      }
    }

    /** Fit to bounds: zoom 1.2, but only with both a location and a destination. */
    method FitToBounds()
      requires Valid()
      modifies this`zoom
      ensures Valid()
      ensures userLocation.Some? && destination.Some? ==> zoom == FitZoom
      ensures !(userLocation.Some? && destination.Some?) ==> zoom == old(zoom)
    {
      if userLocation.Some? && destination.Some? {
        zoom := FitZoom;
      }
    }

    /** Start: only with both a location and a destination; then on to the active-navigation page. */
    method StartNavigation()
      requires Valid()
      modifies this`isNavigating, this`hasArrived, this`route
      ensures Valid()
      ensures userLocation.Some? && destination.Some? ==>
                isNavigating && !hasArrived && route == Some(NavigationActiveMode) && distance.Some?
      ensures !(userLocation.Some? && destination.Some?) ==>
                isNavigating == old(isNavigating) && hasArrived == old(hasArrived) && route == old(route)
    {
      if userLocation.None? || destination.None? {
        return;
      }
      isNavigating := true;
      hasArrived := false;
      route := Some(NavigationActiveMode);
    }

    /** Cancel: stop navigating and forget the arrival, keeping the destination. */
    method CancelNavigation()
      requires Valid()
      modifies this`isNavigating, this`hasArrived
      ensures Valid() && !isNavigating && !hasArrived
    {
      isNavigating := false;
      hasArrived := false;
    }

    /** Clear: drop the destination (and with it the distance), stop navigating, forget the arrival. */
    method ClearDestination()
      requires Valid()
      modifies this`destination, this`distance, this`isNavigating, this`hasArrived
      ensures Valid()
      ensures destination == None && distance == None && !isNavigating && !hasArrived
    {
      destination := None;
      distance := None;
      isNavigating := false;
      hasArrived := false;
      DistanceEffect();
    }

    /** handleArrival: latch the arrival, stop navigating, and start the 5 s timer. */
    method Arrival()
      requires Valid()
      modifies this`hasArrived, this`isNavigating, this`arrivalTimers
      ensures Valid() && hasArrived && !isNavigating && arrivalTimers == old(arrivalTimers) + 1
    {
      hasArrived := true;
      isNavigating := false;
      arrivalTimers := arrivalTimers + 1;
    }

    /**
     * One arrival timer fires: the notice closes and the destination (with its distance) is
     * dropped, whatever destination was chosen since that arrival.
     */
    method ArrivalTimerFires()
      requires Valid()
      modifies this`hasArrived, this`destination, this`distance, this`arrivalTimers
      ensures Valid()
      ensures old(arrivalTimers) > 0 ==>
                !hasArrived && destination == None && distance == None && arrivalTimers == old(arrivalTimers) - 1
      ensures old(arrivalTimers) == 0 ==>
                hasArrived == old(hasArrived) && destination == old(destination) && distance == old(distance) &&
                arrivalTimers == 0
    {
      if arrivalTimers == 0 {
        return;
      }
      arrivalTimers := arrivalTimers - 1;
      hasArrived := false;
      destination := None;
      DistanceEffect();
    }
  }

  /** A click made while navigating cannot change where the navigation goes. */
  method ClickWhileNavigating(s: Session, gps: GeoPoint, pixel: PixelPoint)
    requires s.Valid() && s.isNavigating
    modifies s
    ensures s.Valid() && s.destination == old(s.destination) && s.distance == old(s.distance)
  {
    s.MapClick(gps, pixel);
  }

  /**
   * The whole happy path from a fresh page: a fix, a click, start, arrival and the timer.
   * The page ends with no destination and no distance, back where it can take a new one.
   */
  method HappyPath(measure: (GeoPoint, GeoPoint) -> real, here: GeoPoint, there: GeoPoint, pixel: PixelPoint)
    returns (s: Session)
    ensures s.Valid() && !s.isNavigating && !s.hasArrived && s.destination == None && s.distance == None
    ensures s.route == Some(NavigationActiveMode)
  {
    s := new Session(measure);
    s.StartTracking(true);
    s.PositionSuccess(here.lat, here.lng, 5.0);
    s.MapClick(there, pixel);
    assert s.distance == Some(measure(here, there));
    s.StartNavigation();
    s.Arrival();
    s.ArrivalTimerFires();
  }
}
