/**
 * The status bar of the campus map page: a four-way GPS status derived from the presence
 * of a location and its accuracy, the accuracy badge, the distance shown while navigating
 * and the width of the progress bar.
 */
module NavigationStatusBar {
  import opened Wrappers
  import opened JsMath
  import opened GeoRef
  import opened Geolocation
  import opened Format

  /**
   * The status for a location and its accuracy (metres). Without a location it is 'lost';
   * with one it is never 'lost', and a missing accuracy compares like 0, so it reads
   * 'accurate'.
   */
  function StatusFor(location: Option<GeoPoint>, accuracy: Option<real>): (s: GpsStatus)
    ensures location.None? ==> s == Lost
    ensures location.Some? ==> s != Lost
    ensures s == Accurate <==> location.Some? && (accuracy.None? || accuracy.value <= 10.0)
    ensures s == Searching <==> location.Some? && accuracy.Some? && 10.0 < accuracy.value <= 50.0
    ensures s == Poor <==> location.Some? && accuracy.Some? && accuracy.value > 50.0
  {
    var a := accuracy.GetOr(0.0);
    if location.None? then Lost
    else if a <= 10.0 then Accurate
    else if a <= 50.0 then Searching
    else Poor
  }

  /**
   * With a location and an accuracy, the bar agrees with the per-sample classification
   * except that it calls a fix worse than 50 m 'poor' where the other says 'lost'.
   */
  lemma StatusForVersusSample(location: GeoPoint, accuracy: real)
    ensures ClassifySample(accuracy) != Lost ==> StatusFor(Some(location), Some(accuracy)) == ClassifySample(accuracy)
    ensures ClassifySample(accuracy) == Lost <==> StatusFor(Some(location), Some(accuracy)) == Poor
  {
  }

  /** The accuracy badge: a truthy accuracy, and a status other than 'lost'. */
  predicate BadgeShown(accuracy: Option<real>, status: GpsStatus) {
    Truthy(accuracy) && status != Lost
  }

  /** Once the status effect has run, the badge shows exactly for a located, truthy accuracy. */
  lemma BadgeAfterEffect(location: Option<GeoPoint>, accuracy: Option<real>)
    ensures BadgeShown(accuracy, StatusFor(location, accuracy)) <==> location.Some? && Truthy(accuracy)
  {
  }

  /**
   * The progress bar width in percent for the remaining distance: never below 10, and
   * pinned at 10 from 900 m on.
   */
  function ProgressWidth(d: real): (w: real)
    ensures w >= 10.0
    ensures d >= 900.0 ==> w == 10.0
    ensures d <= 900.0 ==> w == 100.0 - d / 10.0
  {
    Max(10.0, 100.0 - d / 10.0)
  }

  /** The bar only shrinks as the remaining distance grows. */
  lemma ProgressWidthAntitone(d1: real, d2: real)
    requires d1 <= d2
    ensures ProgressWidth(d2) <= ProgressWidth(d1)
  {
  }

  /** The progress bar is drawn while navigating with a truthy distance. */
  function ProgressBar(isNavigating: bool, distance: Option<real>): (r: Option<real>)
    ensures r.Some? <==> isNavigating && Truthy(distance)
    ensures r.Some? ==> 10.0 <= r.value && (distance.value >= 900.0 ==> r.value == 10.0)
  {
    if isNavigating && Truthy(distance) then Some(ProgressWidth(distance.value)) else None
  }

  /**
   * The distance beside 'Navigating': shown while navigating to a destination with a
   * truthy distance, as metres below 1000 and kilometres to one decimal from there on.
   */
  function DistanceShown(isNavigating: bool, hasDestination: bool, distance: Option<real>): (r: Option<DistanceLabel>)
    ensures r.Some? <==> isNavigating && hasDestination && Truthy(distance)
    ensures r.Some? && distance.value < 1000.0 ==>
              r.value.Metres? && r.value.m as real - 0.5 <= distance.value < r.value.m as real + 0.5
    ensures r.Some? && distance.value >= 1000.0 ==>
              r.value.Kilometres? && r.value.tenths as real * 100.0 - 50.0 <= distance.value < r.value.tenths as real * 100.0 + 50.0
  {
    if isNavigating && hasDestination && Truthy(distance) then Some(Metric(distance.value)) else None
  }

  class Bar {
    var gpsStatus: GpsStatus

    constructor()
      ensures gpsStatus == Searching
    {
      gpsStatus := Searching;
    }

    /** The status effect, run when the location or the accuracy changes. */
    method StatusEffect(location: Option<GeoPoint>, accuracy: Option<real>)
      modifies this`gpsStatus
      ensures gpsStatus == StatusFor(location, accuracy)
    {
      if location.None? {
        gpsStatus := Lost;
      } else if accuracy.GetOr(0.0) <= 10.0 {
        gpsStatus := Accurate;
      } else if accuracy.GetOr(0.0) <= 50.0 {
        gpsStatus := Searching;
      } else {
        gpsStatus := Poor;
      }
    }
  }
}
