/**
 * The zoom step schedule shared by the campus map page, its map controls and the
 * active-navigation map: small steps when zoomed out, larger ones when zoomed in,
 * and a clamp to the page's own limits.
 */
module Zoom {

  /** Step used when zooming in (and the map controls' getZoomStep): 0.1 below 1, 0.2 below 2, else 0.3. */
  function InStep(zoom: real): (step: real)
    ensures step == 0.1 || step == 0.2 || step == 0.3
    ensures zoom < 1.0 <==> step == 0.1
    ensures 2.0 <= zoom <==> step == 0.3
  {
    if zoom < 1.0 then 0.1 else if zoom < 2.0 then 0.2 else 0.3
  }

  /** Step used when zooming out: 0.1 up to and including 1, 0.2 up to and including 2, else 0.3. */
  function OutStep(zoom: real): (step: real)
    ensures step == 0.1 || step == 0.2 || step == 0.3
    ensures zoom <= 1.0 <==> step == 0.1
    ensures 2.0 < zoom <==> step == 0.3
  {
    if zoom <= 1.0 then 0.1 else if zoom <= 2.0 then 0.2 else 0.3
  }

  /** `Math.min(zoom + step, max)`. */
  function In(zoom: real, max: real): (z: real)
    ensures z <= max
    ensures zoom <= max ==> zoom <= z
    ensures zoom < max ==> zoom < z
    ensures zoom + InStep(zoom) <= max ==> z == zoom + InStep(zoom)
    ensures zoom + InStep(zoom) > max ==> z == max
  {
    if zoom + InStep(zoom) <= max then zoom + InStep(zoom) else max
  }

  /** `Math.max(zoom - step, min)`. */
  function Out(zoom: real, min: real): (z: real)
    ensures min <= z
    ensures min <= zoom ==> z <= zoom
    ensures min < zoom ==> z < zoom
    ensures zoom - OutStep(zoom) >= min ==> z == zoom - OutStep(zoom)
    ensures zoom - OutStep(zoom) < min ==> z == min
  {
    if zoom - OutStep(zoom) >= min then zoom - OutStep(zoom) else min
  }

  /** A larger zoom never takes a smaller step in either direction. */
  lemma StepsNonDecreasing(a: real, b: real)
    requires a <= b
    ensures InStep(a) <= InStep(b) && OutStep(a) <= OutStep(b)
  {
  }

  /**
   * The asymmetric band edges make a step in followed by a step out return to the start
   * whenever the step in does not cross the next band edge strictly: e.g. 0.9 -> 1.0 -> 0.9
   * and 1.8 -> 2.0 -> 1.8, whereas 1.9 -> 2.1 -> 1.8.
   */
  lemma InThenOut(zoom: real, min: real, max: real)
    requires min <= zoom && zoom + InStep(zoom) <= max
    requires OutStep(zoom + InStep(zoom)) == InStep(zoom)
    ensures Out(In(zoom, max), min) == zoom
  {
  }

  lemma InThenOutCrossingBand()
    ensures Out(In(1.9, 4.0), 0.3) == 1.8
  {
  }

  datatype Press = ZoomInPress | ZoomOutPress

  /** The zoom after a sequence of button presses under the limits [min, max]. */
  function After(zoom: real, presses: seq<Press>, min: real, max: real): real
    decreases |presses|
  {
    if presses == [] then zoom
    else
      var z := if presses[0] == ZoomInPress then In(zoom, max) else Out(zoom, min);
      After(z, presses[1..], min, max)
  }

  /** Starting inside [min, max], no sequence of presses ever leaves it. */
  lemma {:induction false} AfterStaysInRange(zoom: real, presses: seq<Press>, min: real, max: real)
    requires min <= zoom <= max
    ensures min <= After(zoom, presses, min, max) <= max
    decreases |presses|
  {
    if presses != [] {
      var z := if presses[0] == ZoomInPress then In(zoom, max) else Out(zoom, min);
      AfterStaysInRange(z, presses[1..], min, max);
    }
  }
}
