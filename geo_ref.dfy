/**
 * Geo-referencing of the campus map: the one axis-aligned linear mapping between GPS
 * coordinates and map pixels that three components of the navigator each write out on
 * their own. Two calibrated anchors, the north-west (top-left) and south-east
 * (bottom-right) corners of the map, fix the mapping; longitude drives x and latitude
 * drives y, with north at the top of the image (y grows southward).
 */
module GeoRef {
  import opened JsMath

  datatype GeoPoint = GeoPoint(lat: real, lng: real)
  datatype PixelPoint = PixelPoint(x: real, y: real)

  // The two calibration anchors shared by every copy of the mapping.
  const TopLeftX: real := 132.75
  const TopLeftY: real := 133.55
  const TopLeftLat: real := 18.5271557
  const TopLeftLng: real := 73.7276252
  const BottomRightX: real := 2512.5
  const BottomRightY: real := 3776.5
  const BottomRightLat: real := 18.5180856
  const BottomRightLng: real := 73.7339646

  const TopLeftGps := GeoPoint(TopLeftLat, TopLeftLng)
  const BottomRightGps := GeoPoint(BottomRightLat, BottomRightLng)
  const TopLeftPixel := PixelPoint(TopLeftX, TopLeftY)
  const BottomRightPixel := PixelPoint(BottomRightX, BottomRightY)

  /** Exact GPS -> pixel: independent linear interpolation on each axis. */
  function ToPixel(g: GeoPoint): (p: PixelPoint)
    ensures ToGps(p) == g
    ensures g == TopLeftGps ==> p == TopLeftPixel
    ensures g == BottomRightGps ==> p == BottomRightPixel
  {
    PixelPoint(
      TopLeftX + (BottomRightX - TopLeftX) * ((g.lng - TopLeftLng) / (BottomRightLng - TopLeftLng)),
      TopLeftY + (BottomRightY - TopLeftY) * ((g.lat - TopLeftLat) / (BottomRightLat - TopLeftLat)))
  }

  /** Exact pixel -> GPS: the same interpolation read the other way. */
  function ToGps(p: PixelPoint): (g: GeoPoint)
    ensures p == TopLeftPixel ==> g == TopLeftGps
    ensures p == BottomRightPixel ==> g == BottomRightGps
  {
    GeoPoint(
      TopLeftLat + (BottomRightLat - TopLeftLat) * ((p.y - TopLeftY) / (BottomRightY - TopLeftY)),
      TopLeftLng + (BottomRightLng - TopLeftLng) * ((p.x - TopLeftX) / (BottomRightX - TopLeftX)))
  }

  /** The rendered pixel: both coordinates rounded to two decimals. */
  function ToPixelRounded(g: GeoPoint): PixelPoint {
    var p := ToPixel(g);
    PixelPoint(RoundCents(p.x), RoundCents(p.y))
  }

  /** The reported GPS point: both coordinates rounded to seven decimals. */
  function ToGpsRounded(p: PixelPoint): GeoPoint {
    var g := ToGps(p);
    GeoPoint(RoundSeventh(g.lat), RoundSeventh(g.lng))
  }

  /** The intended bounds test: the inclusive box spanned by the two anchors. */
  predicate InBounds(g: GeoPoint) {
    BottomRightLat <= g.lat <= TopLeftLat && TopLeftLng <= g.lng <= BottomRightLng
  }

  /** Every pixel is the image of exactly the GPS point it converts to. */
  lemma GpsRoundTrip(p: PixelPoint)
    ensures ToPixel(ToGps(p)) == p
  {
  }

  /**
   * x strictly increases with longitude, and y strictly increases as latitude
   * decreases: north is at the top of the image.
   */
  lemma ToPixelStrictlyMonotone(g1: GeoPoint, g2: GeoPoint)
    ensures g1.lng < g2.lng ==> ToPixel(g1).x < ToPixel(g2).x
    ensures g1.lat > g2.lat ==> ToPixel(g1).y < ToPixel(g2).y
    ensures g1.lng == g2.lng ==> ToPixel(g1).x == ToPixel(g2).x
    ensures g1.lat == g2.lat ==> ToPixel(g1).y == ToPixel(g2).y
  {
  }

  /** A point is inside the anchor box exactly when its pixel lies in the anchor pixel rectangle. */
  lemma InBoundsIffPixelInAnchorRectangle(g: GeoPoint)
    ensures InBounds(g) <==>
      (TopLeftX <= ToPixel(g).x <= BottomRightX && TopLeftY <= ToPixel(g).y <= BottomRightY)
  {
  }

  /** Both anchors are inside the box; a point one degree north of the top-left anchor is not. */
  lemma InBoundsAnchors()
    ensures InBounds(TopLeftGps) && InBounds(BottomRightGps)
    ensures !InBounds(GeoPoint(TopLeftLat + 1.0, TopLeftLng))
  {
  }

  /**
   * The rendered pixel is within half a hundredth of a pixel of the exact one on each axis,
   * and never reverses the order of two longitudes or latitudes.
   */
  lemma ToPixelRoundedError(g: GeoPoint)
    ensures ToPixel(g).x - 0.005 < ToPixelRounded(g).x <= ToPixel(g).x + 0.005
    ensures ToPixel(g).y - 0.005 < ToPixelRounded(g).y <= ToPixel(g).y + 0.005
  {
  }

  lemma ToPixelRoundedMonotone(g1: GeoPoint, g2: GeoPoint)
    ensures g1.lng <= g2.lng ==> ToPixelRounded(g1).x <= ToPixelRounded(g2).x
    ensures g1.lat >= g2.lat ==> ToPixelRounded(g1).y <= ToPixelRounded(g2).y
  {
    if g1.lng <= g2.lng {
      RoundMonotone(ToPixel(g1).x * 100.0, ToPixel(g2).x * 100.0);
    }
    if g1.lat >= g2.lat {
      RoundMonotone(ToPixel(g1).y * 100.0, ToPixel(g2).y * 100.0);
    }
  }

  /**
   * Rounding on both legs of GPS -> pixel -> GPS loses at most 1e-7 degrees per axis:
   * 5e-8 from the seven-decimal rounding, and the rest from the two-decimal pixel.
   */
  lemma RoundedRoundTripError(g: GeoPoint)
    ensures -0.0000001 <= ToGpsRounded(ToPixelRounded(g)).lat - g.lat <= 0.0000001
    ensures -0.0000001 <= ToGpsRounded(ToPixelRounded(g)).lng - g.lng <= 0.0000001
  {
    var p := ToPixel(g);
    var q := ToPixelRounded(g);
    assert ToGps(p) == g;
    var h := ToGps(q);
    assert -0.0000000125 <= h.lat - g.lat <= 0.0000000125;
    assert -0.0000000134 <= h.lng - g.lng <= 0.0000000134;
  }

  /**
   * A pixel converted to a reported (rounded) GPS point and back lands within 0.03 px of
   * where it started: the seven-decimal rounding moves it by about 0.02 px at most.
   */
  lemma ClickRoundTripError(p: PixelPoint)
    ensures -0.03 <= ToPixel(ToGpsRounded(p)).x - p.x <= 0.03
    ensures -0.03 <= ToPixel(ToGpsRounded(p)).y - p.y <= 0.03
  {
    GpsRoundTrip(p);
  }
}
