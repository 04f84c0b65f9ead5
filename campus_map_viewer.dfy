/**
 * The campus map of the navigation page: its own copy of the two-anchor GPS <-> pixel
 * mapping (rounded to cents and to seven decimals), the bounds test, the click that picks
 * a destination, drag panning with mouse and touch, and the guards on the two markers.
 *
 * The bounds test as written destructures the anchors from the wrong object and so reads
 * a field of `undefined`. A small model of JavaScript values (`JsVal`) makes that
 * evaluation precise; the rest of the module uses the intended test.
 */
module CampusMapViewer {
  import opened Wrappers
  import opened JsMath
  import opened GeoRef

  /** One calibration anchor as this component writes it: a pixel and a GPS point. */
  datatype Anchor = Anchor(pixel: PixelPoint, gps: GeoPoint)

  const TopLeft := Anchor(PixelPoint(132.75, 133.55), GeoPoint(18.5271557, 73.7276252))
  const BottomRight := Anchor(PixelPoint(2512.5, 3776.5), GeoPoint(18.5180856, 73.7339646))

  /** gpsToPixel: latitude and longitude ratios, interpolated and rounded to two decimals. */
  function GpsToPixel(lat: real, lng: real): (p: PixelPoint)
    ensures p == ToPixelRounded(GeoPoint(lat, lng))
    ensures ToPixel(GeoPoint(lat, lng)).x - 0.005 < p.x <= ToPixel(GeoPoint(lat, lng)).x + 0.005
    ensures ToPixel(GeoPoint(lat, lng)).y - 0.005 < p.y <= ToPixel(GeoPoint(lat, lng)).y + 0.005
  {
    var latRatio := (lat - TopLeft.gps.lat) / (BottomRight.gps.lat - TopLeft.gps.lat);
    var lngRatio := (lng - TopLeft.gps.lng) / (BottomRight.gps.lng - TopLeft.gps.lng);
    var x := TopLeft.pixel.x + (BottomRight.pixel.x - TopLeft.pixel.x) * lngRatio;
    var y := TopLeft.pixel.y + (BottomRight.pixel.y - TopLeft.pixel.y) * latRatio;
    PixelPoint(Round(x * 100.0) as real / 100.0, Round(y * 100.0) as real / 100.0)
  }

  /** pixelToGps: pixel ratios, interpolated and rounded to seven decimals. */
  function PixelToGps(x: real, y: real): (g: GeoPoint)
    ensures g == ToGpsRounded(PixelPoint(x, y))
    ensures ToGps(PixelPoint(x, y)).lat - 0.00000005 < g.lat <= ToGps(PixelPoint(x, y)).lat + 0.00000005
    ensures ToGps(PixelPoint(x, y)).lng - 0.00000005 < g.lng <= ToGps(PixelPoint(x, y)).lng + 0.00000005
  {
    var xRatio := (x - TopLeft.pixel.x) / (BottomRight.pixel.x - TopLeft.pixel.x);
    var yRatio := (y - TopLeft.pixel.y) / (BottomRight.pixel.y - TopLeft.pixel.y);
    var lat := TopLeft.gps.lat + (BottomRight.gps.lat - TopLeft.gps.lat) * yRatio;
    var lng := TopLeft.gps.lng + (BottomRight.gps.lng - TopLeft.gps.lng) * xRatio;
    GeoPoint(Round(lat * 10000000.0) as real / 10000000.0, Round(lng * 10000000.0) as real / 10000000.0)
  }

  /** The exact (unrounded) anchors of this copy map onto each other. */
  lemma AnchorsMapExactly()
    ensures ToPixel(TopLeft.gps) == TopLeft.pixel && ToPixel(BottomRight.gps) == BottomRight.pixel
    ensures ToGps(TopLeft.pixel) == TopLeft.gps && ToGps(BottomRight.pixel) == BottomRight.gps
  {
  }

  // ---------------------------------------------------------------------------
  // JavaScript values, just enough to evaluate the bounds test.

  /** `undefined`, a number, or a plain object with named properties. */
  datatype JsVal = Undefined | Num(n: real) | Obj(fields: map<string, JsVal>)

  /** The outcome of evaluating an expression: a value, or a thrown TypeError. */
  datatype Eval<T> = Ok(value: T) | TypeError

  /** Property read `v.key` (and object destructuring): throws on `undefined`. */
  function Get(v: JsVal, key: string): (r: Eval<JsVal>)
    ensures r.TypeError? <==> v.Undefined?
    ensures v.Obj? && key in v.fields ==> r == Ok(v.fields[key])
  {
    match v
    case Undefined => TypeError
    case Num(_) => Ok(Undefined)
    case Obj(f) => Ok(if key in f then f[key] else Undefined)
  }

  /** A chain of property reads `v.k1.k2...`, stopping at the first TypeError. */
  function GetPath(v: JsVal, keys: seq<string>): Eval<JsVal>
    decreases |keys|
  {
    if keys == [] then Ok(v)
    else
      match Get(v, keys[0])
      case TypeError => TypeError
      case Ok(w) => GetPath(w, keys[1..])
  }

  predicate JsTruthy(v: JsVal) {
    match v
    case Undefined => false
    case Num(n) => n != 0.0
    case Obj(_) => true
  }

  /** `x >= v` and `x <= v`: a comparison with anything but a number is with NaN, hence false. */
  predicate AtLeast(x: real, v: JsVal) {
    v.Num? && x >= v.n
  }

  predicate AtMost(x: real, v: JsVal) {
    v.Num? && x <= v.n
  }

  function PointValue(g: GeoPoint): JsVal {
    Obj(map["lat" := Num(g.lat), "lng" := Num(g.lng)])
  }

  function AnchorValue(a: Anchor): JsVal {
    Obj(map["pixel" := Obj(map["x" := Num(a.pixel.x), "y" := Num(a.pixel.y)]), "gps" := PointValue(a.gps)])
  }

  /** The component's `anchorPoints` object. */
  function AnchorPointsValue(): JsVal {
    Obj(map["topLeft" := AnchorValue(TopLeft), "bottomRight" := AnchorValue(BottomRight)])
  }

  /**
   * The test once `{ topLeft, bottomRight }` has been destructured from `box`: the four
   * comparisons, left to right, each reading its bound only when the ones before held.
   */
  function BoxTest(box: JsVal, lat: real, lng: real): Eval<bool> {
    match Get(box, "topLeft")
    case TypeError => TypeError
    case Ok(tl) =>
      match Get(box, "bottomRight")
      case TypeError => TypeError
      case Ok(br) =>
        match Get(br, "lat")
        case TypeError => TypeError
        case Ok(southLat) =>
          if !AtLeast(lat, southLat) then Ok(false)
          else
            match Get(tl, "lat")
            case TypeError => TypeError
            case Ok(northLat) =>
              if !AtMost(lat, northLat) then Ok(false)
              else
                match Get(tl, "lng")
                case TypeError => TypeError
                case Ok(westLng) =>
                  if !AtLeast(lng, westLng) then Ok(false)
                  else
                    match Get(br, "lng")
                    case TypeError => TypeError
                    case Ok(eastLng) => Ok(AtMost(lng, eastLng))
  }

  /**
   * isLocationWithinBounds as written: the anchors are destructured from
   * `anchorPoints.gps || anchorPoints.topLeft.gps`, a GPS point that has neither a
   * `topLeft` nor a `bottomRight` property, so reading `bottomRight.lat` throws for every
   * input.
   */
  function IsLocationWithinBoundsAsWritten(lat: real, lng: real): (r: Eval<bool>)
    ensures r == TypeError
  {
    match GetPath(AnchorPointsValue(), ["gps"])
    case TypeError => TypeError
    case Ok(first) =>
      var source := if JsTruthy(first) then Ok(first) else GetPath(AnchorPointsValue(), ["topLeft", "gps"]);
      match source
      case TypeError => TypeError
      case Ok(box) => BoxTest(box, lat, lng)
  }

  /**
   * The intended test: the same comparisons on the two anchors' GPS points. It never
   * throws, and it is exactly the inclusive anchor box.
   */
  function IsLocationWithinBounds(lat: real, lng: real): (r: Eval<bool>)
    ensures r == Ok(InBounds(GeoPoint(lat, lng)))
  {
    match GetPath(AnchorPointsValue(), ["topLeft", "gps"])
    case TypeError => TypeError
    case Ok(tl) =>
      match GetPath(AnchorPointsValue(), ["bottomRight", "gps"])
      case TypeError => TypeError
      case Ok(br) => BoxTest(Obj(map["topLeft" := tl, "bottomRight" := br]), lat, lng)
  }

  // ---------------------------------------------------------------------------
  // Clicks, markers and panning.

  /** What a click forwards to the page: the reported GPS point and the SVG point clicked. */
  datatype Click = Click(gps: GeoPoint, svg: PixelPoint)

  /** The SVG point under a click: `(client - rect) / zoom + pan` on each axis. */
  function SvgPoint(client: PixelPoint, rectOrigin: PixelPoint, zoom: real, pan: PixelPoint): PixelPoint
    requires zoom != 0.0
  {
    PixelPoint((client.x - rectOrigin.x) / zoom + pan.x, (client.y - rectOrigin.y) / zoom + pan.y)
  }

  /**
   * handleMapClick (with the intended bounds test): nothing while dragging or before the
   * SVG is mounted; otherwise the clicked point is converted, and forwarded only when it
   * lies inside the campus box. The forwarded GPS point maps back to within 0.03 px of the
   * clicked SVG point.
   */
  function HandleMapClick(isDragging: bool, svgMounted: bool, client: PixelPoint, rectOrigin: PixelPoint,
                          zoom: real, pan: PixelPoint): (r: Option<Click>)
    requires zoom > 0.0
    ensures r.Some? <==>
              !isDragging && svgMounted && InBounds(ToGpsRounded(SvgPoint(client, rectOrigin, zoom, pan)))
    ensures r.Some? ==> r.value.svg == SvgPoint(client, rectOrigin, zoom, pan) && r.value.gps == ToGpsRounded(r.value.svg)
    ensures r.Some? ==> -0.03 <= ToPixel(r.value.gps).x - r.value.svg.x <= 0.03 &&
                        -0.03 <= ToPixel(r.value.gps).y - r.value.svg.y <= 0.03
  {
    if isDragging || !svgMounted then None
    else
      var svg := SvgPoint(client, rectOrigin, zoom, pan);
      var gps := PixelToGps(svg.x, svg.y);
      ClickRoundTripError(svg);
      if IsLocationWithinBounds(gps.lat, gps.lng) == Ok(true) then Some(Click(gps, svg)) else None
  }

  /**
   * The marker guard for the user and the destination: a point gets a pixel position only
   * when its latitude and longitude are truthy and it lies in the campus box. The truthiness
   * checks add nothing (every point of the box has non-zero coordinates), and a marker is
   * always drawn within half a hundredth of a pixel of the anchor rectangle.
   */
  function MarkerPosition(location: Option<GeoPoint>): (r: Option<PixelPoint>)
    ensures r.Some? <==> location.Some? && InBounds(location.value)
    ensures r.Some? ==> r.value == ToPixelRounded(location.value)
    ensures r.Some? ==> TopLeftX - 0.005 < r.value.x <= BottomRightX + 0.005 &&
                        TopLeftY - 0.005 < r.value.y <= BottomRightY + 0.005
  {
    if location.Some? && location.value.lat != 0.0 && location.value.lng != 0.0 &&
       IsLocationWithinBounds(location.value.lat, location.value.lng) == Ok(true)
    then
      InBoundsIffPixelInAnchorRectangle(location.value);
      Some(GpsToPixel(location.value.lat, location.value.lng))
    else None
  }

  /** One drag move: the pan shifts against the pointer's movement since the last event, scaled by the zoom. */
  function DragStep(pan: PixelPoint, dragStart: PixelPoint, client: PixelPoint, zoom: real): PixelPoint
    requires zoom != 0.0
  {
    PixelPoint(pan.x - (client.x - dragStart.x) / zoom, pan.y - (client.y - dragStart.y) / zoom)
  }

  /** The pan after a series of moves, each taken from where the previous one ended. */
  function Drag(pan: PixelPoint, dragStart: PixelPoint, moves: seq<PixelPoint>, zoom: real): PixelPoint
    requires zoom != 0.0
    decreases |moves|
  {
    if moves == [] then pan
    else Drag(DragStep(pan, dragStart, moves[0], zoom), moves[0], moves[1..], zoom)
  }

  /** Two quotients by the same non-zero divisor add up to the quotient of the sum. */
  lemma DivAdd(a: real, b: real, z: real)
    requires z != 0.0
    ensures a / z + b / z == (a + b) / z
  {
  }

  /**
   * Consecutive moves telescope: the pan moves by exactly minus the pointer's total
   * displacement from where the drag started to where it ended, divided by the zoom.
   */
  lemma {:induction false} DragTelescopes(pan: PixelPoint, dragStart: PixelPoint, moves: seq<PixelPoint>, zoom: real)
    requires zoom != 0.0 && moves != []
    ensures Drag(pan, dragStart, moves, zoom) ==
              PixelPoint(pan.x - (moves[|moves| - 1].x - dragStart.x) / zoom,
                         pan.y - (moves[|moves| - 1].y - dragStart.y) / zoom)
    decreases |moves|
  {
    var next := DragStep(pan, dragStart, moves[0], zoom);
    if |moves| > 1 {
      DragTelescopes(next, moves[0], moves[1..], zoom);
      assert moves[1..][|moves[1..]| - 1] == moves[|moves| - 1];
      var last := moves[|moves| - 1];
      DivAdd(moves[0].x - dragStart.x, last.x - moves[0].x, zoom);
      DivAdd(moves[0].y - dragStart.y, last.y - moves[0].y, zoom);
    }
  }

  /** The component's own state: the pan offset, the drag gesture and the map load flags. */
  class Viewer {
    var pan: PixelPoint
    var isDragging: bool
    var dragStart: PixelPoint
    var mapLoaded: bool
    var mapError: bool

    constructor()
      ensures pan == PixelPoint(0.0, 0.0) && !isDragging && dragStart == PixelPoint(0.0, 0.0)
      ensures !mapLoaded && !mapError
    {
      pan := PixelPoint(0.0, 0.0);
      isDragging := false;
      dragStart := PixelPoint(0.0, 0.0);
      mapLoaded := false;
      mapError := false;
    }

    /**
     * The map fetch as written: a failed response sets the error flag; a good one loads the
     * map only if the SVG container is mounted. That container is rendered only once the
     * map is loaded and no error is shown, so a good response never loads a map that was
     * not loaded already.
     */
    method LoadFinishedAsWritten(responseOk: bool)
      modifies this`mapLoaded, this`mapError
      ensures !responseOk ==> mapError && mapLoaded == old(mapLoaded)
      ensures responseOk ==> mapError == old(mapError) && mapLoaded == old(mapLoaded)
    {
      var svgMounted := mapLoaded && !mapError;
      if !responseOk {
        mapError := true;
      } else if svgMounted {
        mapLoaded := true;
      }
    }

    /**
     * The map fetch as intended, with the SVG container rendered from the start: a failed
     * response sets the error flag and a good one loads the map.
     */
    method LoadFinished(responseOk: bool)
      modifies this`mapLoaded, this`mapError
      ensures !responseOk ==> mapError && mapLoaded == old(mapLoaded)
      ensures responseOk ==> mapError == old(mapError) && mapLoaded
    {
      if !responseOk {
        mapError := true;
      } else {
        mapLoaded := true;
      }
    }

    method MouseDown(client: PixelPoint)
      modifies this`isDragging, this`dragStart
      ensures isDragging && dragStart == client
    {
      isDragging := true;
      dragStart := client;
    }

    method MouseMove(client: PixelPoint, zoom: real)
      requires zoom > 0.0
      modifies this`pan, this`dragStart
      ensures old(isDragging) ==> pan == DragStep(old(pan), old(dragStart), client, zoom) && dragStart == client
      ensures !old(isDragging) ==> pan == old(pan) && dragStart == old(dragStart)
    {
      if !isDragging {
        return;
      }
      pan := DragStep(pan, dragStart, client, zoom);
      dragStart := client;
    }

    /** Mouse up, mouse leave and touch end all end the drag. */
    method EndDrag()
      modifies this`isDragging
      ensures !isDragging
    {
      isDragging := false;
    }

    /** A touch starts a drag only with exactly one finger down. */
    method TouchStart(touches: seq<PixelPoint>)
      modifies this`isDragging, this`dragStart
      ensures |touches| == 1 ==> isDragging && dragStart == touches[0]
      ensures |touches| != 1 ==> isDragging == old(isDragging) && dragStart == old(dragStart)
    {
      if |touches| == 1 {
        isDragging := true;
        dragStart := touches[0];
      }
    }

    /** A touch move pans like a mouse move, and only with exactly one finger down. */
    method TouchMove(touches: seq<PixelPoint>, zoom: real)
      requires zoom > 0.0
      modifies this`pan, this`dragStart
      ensures old(isDragging) && |touches| == 1 ==>
                pan == DragStep(old(pan), old(dragStart), touches[0], zoom) && dragStart == touches[0]
      ensures !(old(isDragging) && |touches| == 1) ==> pan == old(pan) && dragStart == old(dragStart)
    {
      if !isDragging || |touches| != 1 {
        return;
      }
      pan := DragStep(pan, dragStart, touches[0], zoom);
      dragStart := touches[0];
    }
  }

  /**
   * The viewer as written: the fetch runs once, when the component mounts, and whatever
   * it returns the map is never loaded, so the loading screen stays up.
   */
  method MapNeverLoads(responseOk: bool) returns (v: Viewer)
    ensures !v.mapLoaded
    ensures v.mapError <==> !responseOk
  {
    v := new Viewer();
    v.LoadFinishedAsWritten(responseOk);
  }

  /** The viewer as intended: the single fetch at mount loads the map when the response is good. */
  method MapLoadsOnGoodResponse(responseOk: bool) returns (v: Viewer)
    ensures v.mapLoaded <==> responseOk
    ensures v.mapError <==> !responseOk
  {
    v := new Viewer();
    v.LoadFinished(responseOk);
  }
}
