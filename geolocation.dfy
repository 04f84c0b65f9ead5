/**
 * Vocabulary shared by the pages that consume the browser's location sensor: the GPS
 * status names, the sensor's error codes, the pages a component can redirect to, and the
 * three-way accuracy classification that two components apply to each position sample.
 */
module Geolocation {

  /** Status names used across the components ('poor' appears only in the campus status bar). */
  datatype GpsStatus = Accurate | Searching | Poor | Lost

  /** Error codes a geolocation request can fail with (1, 2 and 3 in the browser; anything else is unknown). */
  datatype ErrorCode = PermissionDenied | PositionUnavailable | Timeout | UnknownCode

  /** Pages of the application that components redirect to. */
  datatype Route = CampusMapNavigation | NavigationActiveMode | LocationPermissionSetup | GpsSignalLost

  /** How bad a status is: 0 for accurate up to 3 for lost. */
  function Severity(s: GpsStatus): nat {
    match s
    case Accurate => 0
    case Searching => 1
    case Poor => 2
    case Lost => 3
  }

  /**
   * Per-sample classification: accuracy (metres) at most 10 is 'accurate', at most 50 is
   * 'searching', anything worse is 'lost'; 'poor' is never produced here.
   */
  function ClassifySample(accuracy: real): (s: GpsStatus)
    ensures s != Poor
    ensures s == Accurate <==> accuracy <= 10.0
    ensures s == Lost <==> accuracy > 50.0
  {
    if accuracy <= 10.0 then Accurate
    else if accuracy <= 50.0 then Searching
    else Lost
  }

  /** A worse (larger) accuracy figure never yields a better status. */
  lemma ClassifySampleMonotone(a: real, b: real)
    requires a <= b
    ensures Severity(ClassifySample(a)) <= Severity(ClassifySample(b))
  {
  }

  /** The boundary cases: 10 and 50 are inclusive upper limits. */
  lemma ClassifySampleBoundaries()
    ensures ClassifySample(10.0) == Accurate && ClassifySample(10.01) == Searching
    ensures ClassifySample(50.0) == Searching && ClassifySample(50.01) == Lost
  {
  }
}
