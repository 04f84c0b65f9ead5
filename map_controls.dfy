/**
 * The zoom and recenter buttons of the campus map page. Each zoom button calls the page
 * only while its guard allows it and is disabled exactly when the guard refuses; the
 * limits default to the page's own [0.3, 4].
 */
module MapControls {
  import opened Wrappers
  import opened GeoRef
  import Zoom
  import CampusMapNavigation

  const DefaultMaxZoom: real := 4.0
  const DefaultMinZoom: real := 0.3

  /** The zoom-in button is disabled at or beyond the maximum, which is where its guard refuses. */
  predicate ZoomInDisabled(zoom: real, maxZoom: real) {
    zoom >= maxZoom
  }

  /** The zoom-out button is disabled at or below the minimum, which is where its guard refuses. */
  predicate ZoomOutDisabled(zoom: real, minZoom: real) {
    zoom <= minZoom
  }

  /**
   * With the default limits, which are the page's, a button is disabled exactly when
   * pressing it would leave the zoom unchanged: the guard and the page's clamp agree.
   */
  lemma DisabledIffNoEffect(zoom: real)
    requires CampusMapNavigation.MinZoom <= zoom <= CampusMapNavigation.MaxZoom
    ensures ZoomInDisabled(zoom, DefaultMaxZoom) <==> Zoom.In(zoom, CampusMapNavigation.MaxZoom) == zoom
    ensures ZoomOutDisabled(zoom, DefaultMinZoom) <==> Zoom.Out(zoom, CampusMapNavigation.MinZoom) == zoom
  {
  }

  /**
   * getZoomStep: the step the page's zoom-in takes from this zoom, unless the cap at 4
   * cuts it short.
   */
  function ZoomStep(zoom: real): (step: real)
    ensures step == 0.1 || step == 0.2 || step == 0.3
    ensures zoom + step <= CampusMapNavigation.MaxZoom ==> Zoom.In(zoom, CampusMapNavigation.MaxZoom) == zoom + step
    ensures zoom + step > CampusMapNavigation.MaxZoom ==> Zoom.In(zoom, CampusMapNavigation.MaxZoom) == CampusMapNavigation.MaxZoom
  {
    if zoom < 1.0 then 0.1 else if zoom < 2.0 then 0.2 else 0.3
  }

  /** Both recenter buttons are disabled without a user location. */
  function RecenterDisabled(userLocation: Option<GeoPoint>): (r: bool)
    ensures r <==> userLocation.None?
  {
    userLocation.None?
  }

  /** handleZoomIn: asks the page to zoom in only below `maxZoom`. */
  method HandleZoomIn(page: CampusMapNavigation.Session, maxZoom: real)
    requires page.Valid()
    modifies page`zoom
    ensures page.Valid()
    ensures old(page.zoom) < maxZoom ==> page.zoom == Zoom.In(old(page.zoom), CampusMapNavigation.MaxZoom)
    ensures old(page.zoom) >= maxZoom ==> page.zoom == old(page.zoom)
  {
    if page.zoom < maxZoom {
      page.ZoomIn();
    }
  }

  /** handleZoomOut: asks the page to zoom out only above `minZoom`. */
  method HandleZoomOut(page: CampusMapNavigation.Session, minZoom: real)
    requires page.Valid()
    modifies page`zoom
    ensures page.Valid()
    ensures old(page.zoom) > minZoom ==> page.zoom == Zoom.Out(old(page.zoom), CampusMapNavigation.MinZoom)
    ensures old(page.zoom) <= minZoom ==> page.zoom == old(page.zoom)
  {
    if page.zoom > minZoom {
      page.ZoomOut();
    }
  }

  /** A recenter press that the button lets through always lands on the recentring zoom. */
  method HandleRecenter(page: CampusMapNavigation.Session)
    requires page.Valid() && !RecenterDisabled(page.userLocation)
    modifies page`zoom
    ensures page.Valid() && page.zoom == CampusMapNavigation.RecenterZoom
  {
    page.Recenter();
  }
}
