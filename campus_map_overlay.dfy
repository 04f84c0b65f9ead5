/**
 * The map on the signal-lost page: the last known position drawn with an accuracy circle.
 * Its copy of the anchor mapping does not round and does not check bounds, so a position
 * off campus is extrapolated linearly off the picture.
 */
module CampusMapOverlay {
  import opened Wrappers
  import opened GeoRef

  /** A position report: where, and how accurate (metres). */
  datatype Position = Position(lat: real, lng: real, accuracy: real)

  /** The accuracy circle and the marker share this centre. */
  datatype Marker = Marker(centre: PixelPoint, radius: real)

  /** An anchor as this component writes it: pixel and GPS coordinates side by side. */
  datatype FlatAnchor = FlatAnchor(x: real, y: real, lat: real, lng: real)

  /** convertGPSToPixel: the two-anchor interpolation, unrounded. */
  function ConvertGpsToPixel(lat: real, lng: real): (p: PixelPoint)
    ensures p == ToPixel(GeoPoint(lat, lng))
    ensures ToGps(p) == GeoPoint(lat, lng)
  {
    var topLeft := FlatAnchor(132.75, 133.55, 18.5271557, 73.7276252);
    var bottomRight := FlatAnchor(2512.5, 3776.5, 18.5180856, 73.7339646);
    var latRatio := (lat - topLeft.lat) / (bottomRight.lat - topLeft.lat);
    var lngRatio := (lng - topLeft.lng) / (bottomRight.lng - topLeft.lng);
    PixelPoint(topLeft.x + (bottomRight.x - topLeft.x) * lngRatio,
               topLeft.y + (bottomRight.y - topLeft.y) * latRatio)
  }

  /**
   * Without a bounds check, a position is drawn inside the anchor rectangle exactly when it
   * is on campus; any other position gets a pixel outside it.
   */
  lemma OffCampusIsExtrapolated(lat: real, lng: real)
    ensures !InBounds(GeoPoint(lat, lng)) <==>
              !(TopLeftX <= ConvertGpsToPixel(lat, lng).x <= BottomRightX &&
                TopLeftY <= ConvertGpsToPixel(lat, lng).y <= BottomRightY)
  {
    InBoundsIffPixelInAnchorRectangle(GeoPoint(lat, lng));
  }

  /**
   * What is drawn: a marker needs both a computed position and a last known position, and
   * its accuracy circle has twice the reported accuracy as radius.
   */
  function MarkerOf(markerPosition: Option<PixelPoint>, lastKnown: Option<Position>): (r: Option<Marker>)
    ensures r.Some? <==> markerPosition.Some? && lastKnown.Some?
    ensures r.Some? ==> r.value.centre == markerPosition.value && r.value.radius == 2.0 * lastKnown.value.accuracy
  {
    if markerPosition.Some? && lastKnown.Some? then Some(Marker(markerPosition.value, lastKnown.value.accuracy * 2.0))
    else None
  }

  class Overlay {
    var mapLoaded: bool
    var mapError: bool
    var markerPosition: Option<PixelPoint>

    constructor()
      ensures !mapLoaded && !mapError && markerPosition == None
    {
      mapLoaded := false;
      mapError := false;
      markerPosition := None;
    }

    /** The position effect: a new last known position moves the marker; without one it stays. */
    method PositionChanged(lastKnown: Option<Position>)
      modifies this`markerPosition
      ensures lastKnown.Some? ==> markerPosition == Some(ToPixel(GeoPoint(lastKnown.value.lat, lastKnown.value.lng)))
      ensures lastKnown.None? ==> markerPosition == old(markerPosition)
    {
      if lastKnown.Some? {
        markerPosition := Some(ConvertGpsToPixel(lastKnown.value.lat, lastKnown.value.lng));
      }
    }

    method MapLoad()
      modifies this`mapLoaded, this`mapError
      ensures mapLoaded && !mapError
    {
      mapLoaded := true;
      mapError := false;
    }

    method MapError()
      modifies this`mapLoaded, this`mapError
      ensures mapError && !mapLoaded
    {
      mapError := true;
      mapLoaded := false;
    }

    /** 'Try again' clears both flags, back to the loading state. */
    method TryAgain()
      modifies this`mapLoaded, this`mapError
      ensures !mapLoaded && !mapError
    {
      mapError := false;
      mapLoaded := false;
    }
  }
}
