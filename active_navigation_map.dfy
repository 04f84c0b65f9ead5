/**
 * The map shown during active navigation: a third copy of the anchor mapping (with the
 * anchors written flat), the inclusive bounds test, its own zoom limits [0.5, 5] starting
 * at 1.8, recentring, and the follow effect that eases the pan back toward the centre.
 */
module ActiveNavigationMap {
  import opened Wrappers
  import opened JsMath
  import opened GeoRef
  import Zoom
  import CampusMapViewer

  /** An anchor as this component writes it: pixel and GPS coordinates side by side. */
  datatype FlatAnchor = FlatAnchor(x: real, y: real, lat: real, lng: real)

  const TopLeft := FlatAnchor(132.75, 133.55, 18.5271557, 73.7276252)
  const BottomRight := FlatAnchor(2512.5, 3776.5, 18.5180856, 73.7339646)

  const MinZoom: real := 0.5
  const MaxZoom: real := 5.0
  /** The zoom the map starts at and returns to on recentring. */
  const HomeZoom: real := 1.8

  /**
   * gpsToSvgPixel: the ratio is multiplied on the left here, but the pixel is the same as
   * the reference mapping's and as the campus map's gpsToPixel.
   */
  function GpsToSvgPixel(lat: real, lng: real): (p: PixelPoint)
    ensures p == ToPixelRounded(GeoPoint(lat, lng))
    ensures p == CampusMapViewer.GpsToPixel(lat, lng)
  {
    var latRatio := (lat - TopLeft.lat) / (BottomRight.lat - TopLeft.lat);
    var lngRatio := (lng - TopLeft.lng) / (BottomRight.lng - TopLeft.lng);
    var x := TopLeft.x + (lngRatio * (BottomRight.x - TopLeft.x));
    var y := TopLeft.y + (latRatio * (BottomRight.y - TopLeft.y));
    PixelPoint(Round(x * 100.0) as real / 100.0, Round(y * 100.0) as real / 100.0)
  }

  /** isLocationWithinBounds: the inclusive anchor box, read from this component's anchors. */
  function IsLocationWithinBounds(lat: real, lng: real): (r: bool)
    ensures r <==> InBounds(GeoPoint(lat, lng))
    ensures r <==> CampusMapViewer.IsLocationWithinBounds(lat, lng) == CampusMapViewer.Ok(true)
  {
    lat >= BottomRight.lat && lat <= TopLeft.lat && lng >= TopLeft.lng && lng <= BottomRight.lng
  }

  /** The user or destination pixel: present exactly for a location inside the box. */
  function PixelOf(location: Option<GeoPoint>): (r: Option<PixelPoint>)
    ensures r.Some? <==> location.Some? && InBounds(location.value)
    ensures r.Some? ==> r.value == ToPixelRounded(location.value)
    ensures r == CampusMapViewer.MarkerPosition(location)
  {
    if location.Some? && IsLocationWithinBounds(location.value.lat, location.value.lng)
    then Some(GpsToSvgPixel(location.value.lat, location.value.lng))
    else None
  }

  /** The recenter button is disabled exactly when there is no user pixel. */
  function RecenterDisabled(userLocation: Option<GeoPoint>): (r: bool)
    ensures r <==> userLocation.None? || !InBounds(userLocation.value)
  {
    PixelOf(userLocation).None?
  }

  /** The follow effect's easing of one pan component. */
  function Ease(v: real): (r: real)
    ensures v >= 0.0 ==> 0.0 <= r <= v
    ensures v <= 0.0 ==> v <= r <= 0.0
    ensures r == 0.0 <==> v == 0.0
  {
    v * 0.9
  }

  /** The pan after `n` in-bounds location updates. */
  function EasedPan(pan: PixelPoint, n: nat): PixelPoint
    decreases n
  {
    if n == 0 then pan else EasedPan(PixelPoint(Ease(pan.x), Ease(pan.y)), n - 1)
  }

  /** However many updates arrive, each pan component keeps its sign and never grows. */
  lemma {:induction false} EasedPanNeverGrows(pan: PixelPoint, n: nat)
    ensures pan.x >= 0.0 ==> 0.0 <= EasedPan(pan, n).x <= pan.x
    ensures pan.x <= 0.0 ==> pan.x <= EasedPan(pan, n).x <= 0.0
    ensures pan.y >= 0.0 ==> 0.0 <= EasedPan(pan, n).y <= pan.y
    ensures pan.y <= 0.0 ==> pan.y <= EasedPan(pan, n).y <= 0.0
    decreases n
  {
    if n > 0 {
      EasedPanNeverGrows(PixelPoint(Ease(pan.x), Ease(pan.y)), n - 1);
    }
  }

  class NavMap {
    var zoom: real
    var pan: PixelPoint
    var mapLoaded: bool
    var mapError: bool

    /** The zoom never leaves the component's limits. */
    ghost predicate Valid()
      reads this
    {
      MinZoom <= zoom <= MaxZoom
    }

    constructor()
      ensures Valid() && zoom == HomeZoom && pan == PixelPoint(0.0, 0.0) && !mapLoaded && !mapError
    {
      zoom := HomeZoom;
      pan := PixelPoint(0.0, 0.0);
      mapLoaded := false;
      mapError := false;
    }

    method MapLoad()
      modifies this`mapLoaded, this`mapError
      ensures mapLoaded && !mapError
    {
      mapLoaded := true;
      mapError := false;
    }

    method MapError()
      modifies this`mapLoaded, this`mapError
      ensures mapError && !mapLoaded
    {
      mapError := true;
      mapLoaded := false;
    }

    method ZoomIn()
      requires Valid()
      modifies this`zoom
      ensures Valid() && zoom == Zoom.In(old(zoom), MaxZoom) && old(zoom) <= zoom
    {
      zoom := Zoom.In(zoom, MaxZoom);
    }

    method ZoomOut()
      requires Valid()
      modifies this`zoom
      ensures Valid() && zoom == Zoom.Out(old(zoom), MinZoom) && zoom <= old(zoom)
    {
      zoom := Zoom.Out(zoom, MinZoom);
    }

    /**
     * handleRecenter: with a user location and a mounted container, the pan returns to
     * the origin, the zoom to 1.8, and the user's pixel (not bounds-checked) is reported
     * as a 'recenter' interaction; otherwise nothing happens.
     */
    method Recenter(userLocation: Option<GeoPoint>, containerMounted: bool) returns (reported: Option<PixelPoint>)
      requires Valid()
      modifies this`zoom, this`pan
      ensures Valid()
      ensures userLocation.Some? && containerMounted ==>
                zoom == HomeZoom && pan == PixelPoint(0.0, 0.0) &&
                reported == Some(ToPixelRounded(userLocation.value))
      ensures !(userLocation.Some? && containerMounted) ==>
                zoom == old(zoom) && pan == old(pan) && reported == None
    {
      reported := None;
      if userLocation.Some? && containerMounted {
        var userPixel := GpsToSvgPixel(userLocation.value.lat, userLocation.value.lng);
        pan := PixelPoint(0.0, 0.0);
        zoom := HomeZoom;
        reported := Some(userPixel);
      }
    }

    /** The follow effect: an in-bounds user location eases both pan components by 0.9. */
    method Follow(userLocation: Option<GeoPoint>)
      modifies this`pan
      ensures userLocation.Some? && InBounds(userLocation.value) ==> pan == EasedPan(old(pan), 1)
      ensures !(userLocation.Some? && InBounds(userLocation.value)) ==> pan == old(pan)
    {
      if userLocation.Some? && IsLocationWithinBounds(userLocation.value.lat, userLocation.value.lng) {
        pan := PixelPoint(Ease(pan.x), Ease(pan.y));
      }
    }

    /** The zoom-in button is disabled exactly when pressing it would leave the zoom where it is. */
    function ZoomInDisabled(): (r: bool)
      requires Valid()
      reads this
      ensures r <==> Zoom.In(zoom, MaxZoom) == zoom
    {
      zoom >= 5.0
    }

    /** The zoom-out button is disabled exactly when pressing it would leave the zoom where it is. */
    function ZoomOutDisabled(): (r: bool)
      requires Valid()
      reads this
      ensures r <==> Zoom.Out(zoom, MinZoom) == zoom
    {
      zoom <= 0.5
    }
  }
}
