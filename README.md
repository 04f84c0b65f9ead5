# Campus navigator: a Dafny model

This project models the logic of a React client for walking navigation on a university campus. The model covers:

- The two-anchor **geo-referencing** that turns GPS positions into pixels of the campus map and back. Three components each write it out on their own.
- The **voice announcement policy**: distance thresholds, a one-shot arrival message, and a reset when navigation stops.
- The **per-sample update of the active-navigation page**: GPS quality, ETA, the turn-by-turn step, the arrival latch and the demo fallback.
- The **campus map page as a session controller**: destination, distance, zoom, start, cancel, clear and arrival.
- The **small classifiers and formatters** of the panels and status bars: progress clamps, GPS and signal bands, search suggestions, and distance and time labels.
- The two **start-up state machines**: the location-permission page and the loading page.

How things are modelled:

- **Numbers.** Distances, coordinates, zoom levels and times are exact `real`s.
- **Rounding.** `Math.round` is `floor(x + 0.5)` (`JsMath.Round`). Rounding to a number of decimals is `Math.round(x * k) / k`. `toFixed(1)` is rounding to tenths.
- **Missing values.** JavaScript `null`/`undefined` is `Wrappers.Option`. A number's truthiness (missing or zero is falsy) is `JsMath.Truthy`.
- **Shared logic.** Logic that several components share is written once and used by every component module:
  - `GeoRef` holds the anchor mapping;
  - `Zoom` holds the zoom step schedule and clamp;
  - `Geolocation` holds the status names, error codes, routes and the per-sample accuracy classification;
  - `Format` holds the distance and time labels;
  - `JsString` holds lower-casing, the blank test and `includes`.
  Each component's own copy of a formula is modelled as written in its module and proved equal to the shared one.
- **Component state.** Each component whose state React updates is a `class`. Its `useState` variables are fields. Each handler or effect is a method that states the whole new state in terms of the old one.
- **Browser interactions** become method parameters: the outcome of a geolocation request (a sample, an error code, or no sensor at all), a fetch that succeeds or fails, and a permission query. A `setTimeout` callback becomes an explicit `...TimerFires` method.
- **The great-circle distance** is an input: a parameter, or the `measure` function a `CampusMapNavigation.Session` is created with.

Two points of the code are easy to misread:

- **`NavigationStatusPanel.jsx:20-21`** measures progress against a fixed total of 1000 m (`NavigationStatusPanel.TotalDistance`). It does not use the route's own length.
- **`CampusMapViewer.jsx:62-66`** has a bounds test that reads the anchors from the wrong object. It is modelled as written, and it is also corrected (see Findings).

## Model

| member | source | states |
|---|---|---|
| GeoRef.ToPixel | src/pages/campus-map-navigation/components/CampusMapViewer.jsx:29-41 | The GPS-to-pixel interpolation is inverted exactly by the pixel-to-GPS one, and it maps each GPS anchor onto its pixel anchor |
| GeoRef.ToGps | src/pages/campus-map-navigation/components/CampusMapViewer.jsx:44-59 | The pixel-to-GPS interpolation maps each pixel anchor onto its GPS anchor |
| GeoRef.GpsRoundTrip | src/pages/campus-map-navigation/components/CampusMapViewer.jsx:29-59 | In exact arithmetic, GPS to pixel after pixel to GPS is the identity on every pixel |
| GeoRef.ToPixelStrictlyMonotone | src/pages/campus-map-navigation/components/CampusMapViewer.jsx:24-38 | x strictly increases with longitude and y strictly increases as latitude decreases (north at the top); each axis depends only on its own coordinate |
| GeoRef.InBoundsIffPixelInAnchorRectangle | src/pages/navigation-active-mode/components/ActiveNavigationMap.jsx:44-48 | A point is in the inclusive anchor box exactly when its pixel lies in the anchor pixel rectangle |
| GeoRef.InBoundsAnchors | src/pages/navigation-active-mode/components/ActiveNavigationMap.jsx:44-48 | Both anchors are inside the inclusive box, and a point north of the top-left anchor is outside it |
| GeoRef.ToPixelRoundedError | src/pages/campus-map-navigation/components/CampusMapViewer.jsx:40 | The two-decimal rounding moves each pixel coordinate by at most 0.005 |
| GeoRef.ToPixelRoundedMonotone | src/pages/campus-map-navigation/components/CampusMapViewer.jsx:33-40 | Rounding never reverses the order of two longitudes (in x) or two latitudes (in y) |
| GeoRef.RoundedRoundTripError | src/pages/campus-map-navigation/components/CampusMapViewer.jsx:29-59 | A GPS point taken to a rounded pixel and back to a rounded GPS point moves by at most 1e-7 degrees per axis |
| GeoRef.ClickRoundTripError | src/pages/campus-map-navigation/components/CampusMapViewer.jsx:69-82 | A clicked pixel, reported as a rounded GPS point, maps back to within 0.03 px of the click |
| Geolocation.ClassifySample | src/pages/navigation-active-mode/index.jsx:73-79 | Accuracy at most 10 m is 'accurate', above 50 m is 'lost', in between is 'searching'; never 'poor' |
| Geolocation.ClassifySampleMonotone | src/pages/navigation-active-mode/index.jsx:73-79 | A worse accuracy figure never gives a better status |
| Geolocation.ClassifySampleBoundaries | src/components/ui/GPSStatusIndicator.jsx:16-22 | 10 m and 50 m are inclusive limits of 'accurate' and 'searching' |
| Zoom.InStep | src/pages/campus-map-navigation/index.jsx:127-132 | The zoom-in step is 0.1 exactly below 1, 0.3 exactly from 2 on, else 0.2 |
| Zoom.OutStep | src/pages/campus-map-navigation/index.jsx:134-139 | The zoom-out step is 0.1 exactly up to 1, 0.3 exactly above 2, else 0.2 |
| Zoom.In | src/pages/campus-map-navigation/index.jsx:127-132 | Zooming in gives the zoom plus its step when that fits under the cap, and the cap otherwise; it never passes the cap and strictly increases a zoom below it |
| Zoom.Out | src/pages/campus-map-navigation/index.jsx:134-139 | Zooming out gives the zoom minus its step when that stays above the floor, and the floor otherwise; it never passes the floor and strictly decreases a zoom above it |
| Zoom.StepsNonDecreasing | src/pages/campus-map-navigation/index.jsx:127-139 | A larger zoom never takes a smaller step in either direction |
| Zoom.InThenOut | src/pages/campus-map-navigation/index.jsx:127-139 | A step in then a step out returns to the start when both use the same step size |
| Zoom.InThenOutCrossingBand | src/pages/campus-map-navigation/index.jsx:127-139 | From 1.9, in then out lands on 1.8, because the bands' edges differ |
| Zoom.AfterStaysInRange | src/pages/campus-map-navigation/index.jsx:22-139 | Starting inside [min, max], no sequence of zoom presses leaves it |
| VoiceGuidance.FirstEligible | src/pages/campus-map-navigation/components/VoiceGuidance.jsx:69-76 | Nothing is eligible iff no threshold is; otherwise the result is an eligible threshold with no eligible one before it |
| VoiceGuidance.ScanThresholds | src/pages/campus-map-navigation/components/VoiceGuidance.jsx:61-76 | The breaking scan over 500, 200, 100, 50 and 25 returns the first eligible threshold |
| VoiceGuidance.Decide | src/pages/campus-map-navigation/components/VoiceGuidance.jsx:51-76 | Arrival fires iff d <= 10 and the last announcement is missing or beyond 10; within 10 m no threshold is considered; otherwise the first eligible threshold fires, and nothing fires only when none is eligible |
| VoiceGuidance.FiredBetweenDistanceAndLast | src/pages/campus-map-navigation/components/VoiceGuidance.jsx:51-76 | Whatever fires lies at or beyond the distance and strictly inside the last announcement |
| VoiceGuidance.RepeatIsSilent | src/pages/campus-map-navigation/components/VoiceGuidance.jsx:50-76 | Re-evaluating the distance just announced at fires nothing |
| VoiceGuidance.ArrivalIsTerminal | src/pages/campus-map-navigation/components/VoiceGuidance.jsx:51-76 | Once an announcement was made within 10 m, nothing ever fires again |
| VoiceGuidance.FreshRunFiresFirstThreshold | src/pages/campus-map-navigation/components/VoiceGuidance.jsx:69-75 | With nothing announced, any distance in (10, 500] fires the 500 m message |
| VoiceGuidance.FirstDistanceForty | src/pages/campus-map-navigation/components/VoiceGuidance.jsx:69-75 | A first reading of 40 m fires the 500 m message; a repeat is silent; 20 m after it fires 25 m |
| VoiceGuidance.Run | src/pages/campus-map-navigation/components/VoiceGuidance.jsx:26-76 | A run of readings yields one decision per reading |
| VoiceGuidance.RunStaysBelow | src/pages/campus-map-navigation/components/VoiceGuidance.jsx:51-76 | Every announcement of a run lies strictly inside the distance last announced at |
| VoiceGuidance.RunDescends | src/pages/campus-map-navigation/components/VoiceGuidance.jsx:51-76 | Over any run the announcements strictly descend, so none repeats and arrival is last |
| VoiceGuidance.DecideAlongWalk | src/pages/campus-map-navigation/components/VoiceGuidance.jsx:51-76 | Along 600, 480, 190, 90, 40, 20 and 8 m: nothing, then 500, 200, 100, 50, 25 and arrival |
| VoiceGuidance.Guidance.constructor | src/pages/campus-map-navigation/components/VoiceGuidance.jsx:6-24 | Voice on, not speaking, no announcement yet |
| VoiceGuidance.Guidance.Announce | src/pages/campus-map-navigation/components/VoiceGuidance.jsx:31-48 | A message is spoken only with speech synthesis and while nothing is being spoken |
| VoiceGuidance.Guidance.Evaluate | src/pages/campus-map-navigation/components/VoiceGuidance.jsx:26-76 | Gated on navigating, voice on, a truthy distance and speech (so 0 m fires nothing); otherwise applies Decide, reports arrival, records the current distance (not the threshold) whenever something fires, even if speech was skipped |
| VoiceGuidance.Guidance.StartEffect | src/pages/campus-map-navigation/components/VoiceGuidance.jsx:79-100 | Starting navigation queues a timer for "Navigation started to" the destination's name, or "your destination", behind the pending ones; the timer keeps the current speaking flag |
| VoiceGuidance.Guidance.StartNoticeTimerFires | src/pages/campus-map-navigation/components/VoiceGuidance.jsx:84-98 | The oldest pending start timer fires: its message is spoken unless something was being spoken when it was scheduled |
| VoiceGuidance.Guidance.StopEffect | src/pages/campus-map-navigation/components/VoiceGuidance.jsx:102-111 | When navigation stops, the last announcement is forgotten and speech stops; otherwise nothing changes |
| VoiceGuidance.Guidance.UtteranceStarted | src/pages/campus-map-navigation/components/VoiceGuidance.jsx:42 | Speech start sets the speaking flag |
| VoiceGuidance.Guidance.UtteranceEnded | src/pages/campus-map-navigation/components/VoiceGuidance.jsx:43-44 | Speech end or error clears the speaking flag |
| VoiceGuidance.Guidance.Toggle | src/pages/campus-map-navigation/components/VoiceGuidance.jsx:113-130 | The switch flips, speech is silenced, and switching on adds one pending "Voice guidance enabled" timer |
| VoiceGuidance.Guidance.EnabledNoticeTimerFires | src/pages/campus-map-navigation/components/VoiceGuidance.jsx:122-129 | One pending notice is spoken, without checking whether something is being spoken |
| VoiceGuidance.StartNoticeSpeaksOverLaterUtterance | src/pages/campus-map-navigation/components/VoiceGuidance.jsx:79-100 | An utterance that starts after the start timer was scheduled does not hold the start message back |
| VoiceGuidance.TwoTogglesOnAnnounceTwice | src/pages/campus-map-navigation/components/VoiceGuidance.jsx:113-130 | Switching on twice before the timers fire gives two "Voice guidance enabled" utterances |
| VoiceGuidance.EvaluateTwice | src/pages/campus-map-navigation/components/VoiceGuidance.jsx:69-76 | The effect's re-run after its own update fires nothing: at most one utterance per reading |
| NavigationActiveMode.HeadingOrZero | src/pages/navigation-active-mode/index.jsx:70 | A missing heading becomes 0; a reported one is kept |
| NavigationActiveMode.Eta | src/pages/navigation-active-mode/index.jsx:90 | The ETA is distance / 1.4 rounded to the nearest second, and non-negative for a non-negative distance |
| NavigationActiveMode.InstructionFor | src/pages/navigation-active-mode/index.jsx:155-175 | Beyond 200 m no new step; up to 50 m "You are approaching your destination" with MapPin and round(d); up to 100 m "Continue straight towards the library entrance" with ArrowUp and round(d); up to 200 m "Turn right at the next pathway" with ArrowRight and round(d - 150) |
| NavigationActiveMode.ActiveMode.constructor | src/pages/navigation-active-mode/index.jsx:16-55 | Navigating, searching, 850 m to the library, 420 s, the initial step |
| NavigationActiveMode.ActiveMode.AnnounceVoice | src/pages/navigation-active-mode/index.jsx:188-204 | With voice off nothing changes; otherwise the toast shows the message and type, and speech gets the message when available |
| NavigationActiveMode.ActiveMode.HandleArrival | src/pages/navigation-active-mode/index.jsx:178-185 | Arrival latches, navigation stops, and the arrival message is announced when the calling closure's voice switch is on |
| NavigationActiveMode.ActiveMode.PositionUpdate | src/pages/navigation-active-mode/index.jsx:62-99 | One sample sets location, heading, classified status, distance, ETA and step; at 10 m or less and not yet arrived it arrives, announcing through the given voice switch; otherwise the arrival state is unchanged |
| NavigationActiveMode.ActiveMode.WatchCallbackAsWritten | src/pages/navigation-active-mode/index.jsx:58-136 | The registered callback announces arrival through the switch captured when the watch was registered, not the current one |
| NavigationActiveMode.ActiveMode.WatchCallback | src/pages/navigation-active-mode/index.jsx:62-99 | The intended callback announces arrival only while voice is on; with voice off nothing is shown or spoken |
| NavigationActiveMode.ActiveMode.PositionError | src/pages/navigation-active-mode/index.jsx:100-111 | A sensor error ends on the demo position with accuracy 5 and 'accurate' |
| NavigationActiveMode.ActiveMode.StartTracking | src/pages/navigation-active-mode/index.jsx:58-126 | With a sensor a watch is registered and captures the current voice switch; without one the demo position with 'accurate' is used |
| NavigationActiveMode.ActiveMode.CancelNavigation | src/pages/navigation-active-mode/index.jsx:207-213 | Cancel stops navigating, clears the watch and returns to the campus map |
| NavigationActiveMode.ActiveMode.ToggleVoiceAsWritten | src/pages/navigation-active-mode/index.jsx:216-221 | The switch flips and nothing is announced (the announcement sees the old, off switch) |
| NavigationActiveMode.ActiveMode.ToggleVoice | src/pages/navigation-active-mode/index.jsx:216-221 | The switch flips, and switching on announces "Voice guidance enabled" |
| NavigationActiveMode.ActiveMode.DismissToast | src/pages/navigation-active-mode/index.jsx:283 | Dismissing hides the toast |
| NavigationActiveMode.ActiveMode.LeaveArrival | src/pages/navigation-active-mode/index.jsx:224-236 | Continue, navigate again and close all clear the arrival and return to the campus map |
| NavigationActiveMode.ArriveTwice | src/pages/navigation-active-mode/index.jsx:93-95 | Two samples within 10 m in a row arrive once: the second announces nothing more |
| NavigationActiveMode.ArrivalSpokenWithVoiceOff | src/pages/navigation-active-mode/index.jsx:93-136 | As written: register the watch, switch voice off, reach the destination; the arrival toast shows and the message is spoken |
| NavigationActiveMode.ArrivalSilentWithVoiceOff | src/pages/navigation-active-mode/index.jsx:178-193 | As intended: the same steps show and speak nothing |
| CampusMapNavigation.ErrorRoute | src/pages/campus-map-navigation/index.jsx:76-91 | Permission denied goes to permission setup; unavailable and timeout go to the signal-lost page; any other code goes nowhere |
| CampusMapNavigation.Session.ExpectedDistance | src/pages/campus-map-navigation/index.jsx:47-59 | The distance is present iff both location and destination are, and it is then their measured distance |
| CampusMapNavigation.Session.constructor | src/pages/campus-map-navigation/index.jsx:15-28 | No location, no destination, no distance, zoom 1, not navigating; the invariant holds |
| CampusMapNavigation.Session.DistanceEffect | src/pages/campus-map-navigation/index.jsx:47-59 | The effect restores the distance the location and destination call for |
| CampusMapNavigation.Session.StartTracking | src/pages/campus-map-navigation/index.jsx:62-111 | Without a sensor an error message and the permission page; with one a watch |
| CampusMapNavigation.Session.PositionSuccess | src/pages/campus-map-navigation/index.jsx:69-74 | The sample becomes the location and accuracy, the error clears, and the distance follows |
| CampusMapNavigation.Session.PositionError | src/pages/campus-map-navigation/index.jsx:76-91 | The message is recorded and the page goes where ErrorRoute says, or stays |
| CampusMapNavigation.Session.MapClick | src/pages/campus-map-navigation/index.jsx:115-124 | Ignored while navigating; otherwise the destination is the clicked point named 'Selected Location' |
| CampusMapNavigation.Session.ZoomIn | src/pages/campus-map-navigation/index.jsx:127-132 | Zoom in under the cap 4; never decreases; invariant kept |
| CampusMapNavigation.Session.ZoomOut | src/pages/campus-map-navigation/index.jsx:134-139 | Zoom out over the floor 0.3; never increases; invariant kept |
| CampusMapNavigation.Session.Recenter | src/pages/campus-map-navigation/index.jsx:141-146 | With a location the zoom is 1.5; otherwise unchanged |
| CampusMapNavigation.Session.FitToBounds | src/pages/campus-map-navigation/index.jsx:149-154 | With both location and destination the zoom is 1.2; otherwise unchanged |
| CampusMapNavigation.Session.StartNavigation | src/pages/campus-map-navigation/index.jsx:157-163 | Only with both ends: navigating, not arrived, on to the active page; otherwise nothing changes |
| CampusMapNavigation.Session.CancelNavigation | src/pages/campus-map-navigation/index.jsx:165-168 | Not navigating, not arrived, destination kept |
| CampusMapNavigation.Session.ClearDestination | src/pages/campus-map-navigation/index.jsx:170-175 | No destination, no distance, not navigating, not arrived |
| CampusMapNavigation.Session.Arrival | src/pages/campus-map-navigation/index.jsx:177-181 | Arrived, not navigating, one more 5 s timer pending |
| CampusMapNavigation.Session.ArrivalTimerFires | src/pages/campus-map-navigation/index.jsx:182-185 | One pending timer fires: the notice closes and the destination and its distance are dropped, even one chosen after that arrival |
| CampusMapNavigation.ClickWhileNavigating | src/pages/campus-map-navigation/index.jsx:115-124 | A click while navigating changes neither the destination nor the distance |
| CampusMapNavigation.HappyPath | src/pages/campus-map-navigation/index.jsx:69-186 | Fix, click, start, arrival and timer end with no destination and no distance, the invariant intact |
| CampusMapViewer.GpsToPixel | src/pages/campus-map-navigation/components/CampusMapViewer.jsx:29-41 | The component's conversion is the shared one rounded to cents, within 0.005 px of the exact pixel |
| CampusMapViewer.PixelToGps | src/pages/campus-map-navigation/components/CampusMapViewer.jsx:44-59 | The component's inverse is the shared one rounded to seven decimals, within 5e-8 degrees |
| CampusMapViewer.AnchorsMapExactly | src/pages/campus-map-navigation/components/CampusMapViewer.jsx:23-41 | Before rounding, each of this component's anchors maps onto the other coordinate of itself, both ways |
| CampusMapViewer.Get | src/pages/campus-map-navigation/components/CampusMapViewer.jsx:63 | Reading a property throws exactly on undefined and yields the field of an object |
| CampusMapViewer.IsLocationWithinBoundsAsWritten | src/pages/campus-map-navigation/components/CampusMapViewer.jsx:62-66 | The test as written throws a TypeError for every input |
| CampusMapViewer.IsLocationWithinBounds | src/pages/campus-map-navigation/components/CampusMapViewer.jsx:62-66 | The corrected test never throws and is exactly the inclusive anchor box |
| CampusMapViewer.HandleMapClick | src/pages/campus-map-navigation/components/CampusMapViewer.jsx:69-82 | With the corrected bounds test: a click is forwarded iff not dragging, mounted and in bounds; it carries the SVG point and its rounded GPS point, which maps back within 0.03 px |
| CampusMapViewer.MarkerPosition | src/pages/campus-map-navigation/components/CampusMapViewer.jsx:192-197 | With the corrected bounds test: a marker pixel exists iff the point is present and in bounds; it is the rounded pixel, inside the anchor rectangle to within 0.005 |
| CampusMapViewer.DragTelescopes | src/pages/campus-map-navigation/components/CampusMapViewer.jsx:91-133 | Consecutive drag moves shift the pan by minus the total pointer displacement over the zoom |
| CampusMapViewer.Viewer.constructor | src/pages/campus-map-navigation/components/CampusMapViewer.jsx:15-20 | Not loaded, no error, zero pan, not dragging |
| CampusMapViewer.Viewer.LoadFinishedAsWritten | src/pages/campus-map-navigation/components/CampusMapViewer.jsx:140-169 | A failed fetch sets the error; a good one leaves the load flag as it was, because the SVG container exists only once the map is loaded |
| CampusMapViewer.Viewer.LoadFinished | src/pages/campus-map-navigation/components/CampusMapViewer.jsx:140-169 | With the SVG container rendered from the start: a failed fetch sets the error and a good one loads the map |
| CampusMapViewer.MapNeverLoads | src/pages/campus-map-navigation/components/CampusMapViewer.jsx:140-244 | As written: after the single fetch at mount the map is not loaded, whatever the response; the error shows exactly for a failed response |
| CampusMapViewer.MapLoadsOnGoodResponse | src/pages/campus-map-navigation/components/CampusMapViewer.jsx:140-169 | As intended: after the single fetch at mount the map is loaded exactly when the response is good |
| CampusMapViewer.Viewer.MouseDown | src/pages/campus-map-navigation/components/CampusMapViewer.jsx:85-89 | A drag starts at the pointer |
| CampusMapViewer.Viewer.MouseMove | src/pages/campus-map-navigation/components/CampusMapViewer.jsx:91-103 | While dragging, one drag step and the start moves to the pointer; otherwise nothing |
| CampusMapViewer.Viewer.EndDrag | src/pages/campus-map-navigation/components/CampusMapViewer.jsx:105-137 | Mouse up, leave and touch end stop dragging |
| CampusMapViewer.Viewer.TouchStart | src/pages/campus-map-navigation/components/CampusMapViewer.jsx:110-117 | Only a single touch starts a drag |
| CampusMapViewer.Viewer.TouchMove | src/pages/campus-map-navigation/components/CampusMapViewer.jsx:119-133 | Only a single touch while dragging takes a drag step |
| ActiveNavigationMap.GpsToSvgPixel | src/pages/navigation-active-mode/components/ActiveNavigationMap.jsx:20-41 | The same pixel as the shared rounded mapping and as CampusMapViewer's gpsToPixel |
| ActiveNavigationMap.IsLocationWithinBounds | src/pages/navigation-active-mode/components/ActiveNavigationMap.jsx:44-48 | Exactly the inclusive anchor box, and the same as the corrected CampusMapViewer test |
| ActiveNavigationMap.PixelOf | src/pages/navigation-active-mode/components/ActiveNavigationMap.jsx:97-102 | A pixel exists iff the location is present and in bounds, and equals CampusMapViewer's marker |
| ActiveNavigationMap.RecenterDisabled | src/pages/navigation-active-mode/components/ActiveNavigationMap.jsx:308 | Disabled iff there is no location or it is out of bounds |
| ActiveNavigationMap.Ease | src/pages/navigation-active-mode/components/ActiveNavigationMap.jsx:89-92 | Easing keeps the sign, never grows a component, and is 0 only at 0 |
| ActiveNavigationMap.EasedPanNeverGrows | src/pages/navigation-active-mode/components/ActiveNavigationMap.jsx:85-94 | After any number of updates each pan component keeps its sign and never grows |
| ActiveNavigationMap.NavMap.constructor | src/pages/navigation-active-mode/components/ActiveNavigationMap.jsx:12-15 | Zoom 1.8, zero pan, not loaded |
| ActiveNavigationMap.NavMap.MapLoad | src/pages/navigation-active-mode/components/ActiveNavigationMap.jsx:50-53 | Loaded, no error |
| ActiveNavigationMap.NavMap.MapError | src/pages/navigation-active-mode/components/ActiveNavigationMap.jsx:55-58 | Error, not loaded |
| ActiveNavigationMap.NavMap.ZoomIn | src/pages/navigation-active-mode/components/ActiveNavigationMap.jsx:61-66 | Same steps, capped at 5; never decreases; stays in [0.5, 5] |
| ActiveNavigationMap.NavMap.ZoomOut | src/pages/navigation-active-mode/components/ActiveNavigationMap.jsx:68-73 | Same steps, floored at 0.5; never increases; stays in [0.5, 5] |
| ActiveNavigationMap.NavMap.Recenter | src/pages/navigation-active-mode/components/ActiveNavigationMap.jsx:75-82 | With a location and a container, pan 0, zoom 1.8, the user's pixel reported; otherwise nothing |
| ActiveNavigationMap.NavMap.Follow | src/pages/navigation-active-mode/components/ActiveNavigationMap.jsx:85-94 | An in-bounds location eases the pan once; otherwise unchanged |
| ActiveNavigationMap.NavMap.ZoomInDisabled | src/pages/navigation-active-mode/components/ActiveNavigationMap.jsx:275-278 | Disabled iff pressing would not change the zoom |
| ActiveNavigationMap.NavMap.ZoomOutDisabled | src/pages/navigation-active-mode/components/ActiveNavigationMap.jsx:293-296 | Disabled iff pressing would not change the zoom |
| CampusMapOverlay.ConvertGpsToPixel | src/pages/gps-signal-lost/components/CampusMapOverlay.jsx:20-32 | The unrounded shared mapping, exactly inverted by pixel-to-GPS |
| CampusMapOverlay.OffCampusIsExtrapolated | src/pages/gps-signal-lost/components/CampusMapOverlay.jsx:9-32 | A position lies off campus iff its pixel lies outside the anchor rectangle |
| CampusMapOverlay.MarkerOf | src/pages/gps-signal-lost/components/CampusMapOverlay.jsx:121-127 | A marker iff both a pixel and a last position exist; its circle's radius is twice the accuracy |
| CampusMapOverlay.Overlay.constructor | src/pages/gps-signal-lost/components/CampusMapOverlay.jsx:5-7 | Not loaded, no error, no marker |
| CampusMapOverlay.Overlay.PositionChanged | src/pages/gps-signal-lost/components/CampusMapOverlay.jsx:9-18 | A present position moves the marker to its unrounded pixel; a missing one leaves it |
| CampusMapOverlay.Overlay.MapLoad | src/pages/gps-signal-lost/components/CampusMapOverlay.jsx:34-37 | Loaded, no error |
| CampusMapOverlay.Overlay.MapError | src/pages/gps-signal-lost/components/CampusMapOverlay.jsx:39-42 | Error, not loaded |
| CampusMapOverlay.Overlay.TryAgain | src/pages/gps-signal-lost/components/CampusMapOverlay.jsx:91-94 | Both flags cleared |
| Format.NatTextValue | src/pages/navigation-active-mode/components/NavigationPanel.jsx:28-42 | The digits printed for a whole number read back as that number |
| Format.Metric | src/pages/navigation-active-mode/components/NavigationPanel.jsx:28-33 | Below 1000 m, metres within half a metre; from 1000 m, kilometres within half a tenth |
| Format.DashOrMetric | src/pages/campus-map-navigation/components/DestinationPanel.jsx:57-63 | '--' iff the distance is falsy; otherwise the metric label with its bounds |
| Format.DashOrTime | src/pages/campus-map-navigation/components/DestinationPanel.jsx:65-72 | '--' iff the time is falsy; below 60 s, seconds within half a second; otherwise whole minutes within half a minute, followed by the given unit |
| DestinationPanel.Filter | src/pages/campus-map-navigation/components/DestinationPanel.jsx:47-50 | The matching places, no more than the input |
| DestinationPanel.FilterAppend | src/pages/campus-map-navigation/components/DestinationPanel.jsx:47-50 | Filtering distributes over concatenation, so it keeps the original order |
| DestinationPanel.Suggestions | src/pages/campus-map-navigation/components/DestinationPanel.jsx:45-54 | A blank query gives no suggestions; otherwise exactly the places whose lower-cased name or description contains the lower-cased untrimmed query, in catalogue order |
| DestinationPanel.MatchesOwnName | src/pages/campus-map-navigation/components/DestinationPanel.jsx:46-51 | A query equal to a place's name up to case matches that place |
| DestinationPanel.WalkingTime | src/pages/campus-map-navigation/components/DestinationPanel.jsx:35-42 | The time times 1.39 m/s is the distance; for a non-negative distance it lies between 0 and the distance |
| DestinationPanel.Panel.constructor | src/pages/campus-map-navigation/components/DestinationPanel.jsx:16-32 | Empty query, no suggestions, no estimate, collapsed |
| DestinationPanel.Panel.SetQuery | src/pages/campus-map-navigation/components/DestinationPanel.jsx:17 | The query becomes the typed text |
| DestinationPanel.Panel.QueryEffect | src/pages/campus-map-navigation/components/DestinationPanel.jsx:45-55 | The list becomes the suggestions for the query |
| DestinationPanel.Panel.DistanceEffect | src/pages/campus-map-navigation/components/DestinationPanel.jsx:35-42 | A truthy distance sets the walking time; otherwise the estimate stays |
| DestinationPanel.Panel.SelectPlace | src/pages/campus-map-navigation/components/DestinationPanel.jsx:74-79 | The query becomes the place's name and the list empties; no destination is set |
| DestinationPanel.Panel.Toggle | src/pages/campus-map-navigation/components/DestinationPanel.jsx:81-83 | The panel flips |
| DestinationPanel.SelectThenRerender | src/pages/campus-map-navigation/components/DestinationPanel.jsx:45-79 | After selecting a new name, the filter effect puts the selected place back in the list |
| NavigationPanel.ProgressPercent | src/pages/navigation-active-mode/components/NavigationPanel.jsx:21-23 | The percentage lies in [0, 100]; within the route it is (total - d) / total * 100; beyond the ends it is pinned at 0 or 100 |
| NavigationPanel.ProgressAntitone | src/pages/navigation-active-mode/components/NavigationPanel.jsx:21-23 | The nearer the destination, the fuller the bar |
| NavigationPanel.FormatTimeAsWritten | src/pages/navigation-active-mode/components/NavigationPanel.jsx:35-42 | Below 60 s rounded seconds; otherwise minutes, with a seconds part that can reach 60 |
| NavigationPanel.FormatTimeAsWrittenShowsSixty | src/pages/navigation-active-mode/components/NavigationPanel.jsx:35-42 | 119.6 s reads "1m 60s" and 59.7 s reads "60s" |
| NavigationPanel.FormatTime | src/pages/navigation-active-mode/components/NavigationPanel.jsx:35-42 | The corrected label: seconds only exactly when the rounded time is below 60; otherwise at least one minute, with a seconds part below 60; minutes and seconds add up to the rounded time |
| NavigationPanel.FormatTimeAgreesBelowSixty | src/pages/navigation-active-mode/components/NavigationPanel.jsx:35-42 | The written and corrected labels agree whenever the written remainder does not round up to 60 |
| NavigationPanel.StepIcon | src/pages/navigation-active-mode/components/NavigationPanel.jsx:44-50 | 'left' gives the left arrow; otherwise 'right' the right arrow; otherwise 'arrive' without 'straight' the pin; everything else the up arrow |
| NavigationPanel.Panel.constructor | src/pages/navigation-active-mode/components/NavigationPanel.jsx:16-17 | Expanded, progress 0 |
| NavigationPanel.Panel.ProgressEffect | src/pages/navigation-active-mode/components/NavigationPanel.jsx:19-26 | Recomputed only with a truthy distance and total; always in [0, 100] |
| NavigationPanel.Panel.Toggle | src/pages/navigation-active-mode/components/NavigationPanel.jsx:52-54 | The panel flips |
| NavigationStatusPanel.Progress | src/components/ui/NavigationStatusPanel.jsx:21 | In [0, 100]; 0 from 1000 m on; (1000 - d) / 10 within the route |
| NavigationStatusPanel.FormatTime | src/components/ui/NavigationStatusPanel.jsx:43-49 | '--' for a falsy time; from a minute on, whole minutes followed by "min" with no space |
| NavigationStatusPanel.Panel.constructor | src/components/ui/NavigationStatusPanel.jsx:14-15 | Expanded, progress 0 |
| NavigationStatusPanel.Panel.ProgressEffect | src/components/ui/NavigationStatusPanel.jsx:17-24 | Recomputed only while navigating with a truthy distance |
| NavigationStatusPanel.Panel.Toggle | src/components/ui/NavigationStatusPanel.jsx:26-29 | The panel flips and the new value is handed to the page |
| NavigationStatusBar.StatusFor | src/pages/campus-map-navigation/components/NavigationStatusBar.jsx:17-27 | No location gives 'lost'; with one, a missing accuracy or at most 10 m 'accurate', at most 50 m 'searching', else 'poor' and never 'lost' |
| NavigationStatusBar.StatusForVersusSample | src/pages/campus-map-navigation/components/NavigationStatusBar.jsx:17-27 | Agrees with the per-sample classification except that 'poor' replaces 'lost' |
| NavigationStatusBar.BadgeAfterEffect | src/pages/campus-map-navigation/components/NavigationStatusBar.jsx:113-117 | After the effect the badge shows iff there is a location and a truthy accuracy |
| NavigationStatusBar.ProgressWidth | src/pages/campus-map-navigation/components/NavigationStatusBar.jsx:184-187 | At least 10%, exactly 10% from 900 m, 100 - d/10 below |
| NavigationStatusBar.ProgressWidthAntitone | src/pages/campus-map-navigation/components/NavigationStatusBar.jsx:184-187 | The bar never grows with the distance |
| NavigationStatusBar.ProgressBar | src/pages/campus-map-navigation/components/NavigationStatusBar.jsx:176-190 | Drawn iff navigating with a truthy distance, with a width of at least 10 |
| NavigationStatusBar.DistanceShown | src/pages/campus-map-navigation/components/NavigationStatusBar.jsx:121-137 | Shown iff navigating to a destination with a truthy distance; metres below 1000, kilometres from there |
| NavigationStatusBar.Bar.constructor | src/pages/campus-map-navigation/components/NavigationStatusBar.jsx:12 | Starts 'searching' |
| NavigationStatusBar.Bar.StatusEffect | src/pages/campus-map-navigation/components/NavigationStatusBar.jsx:17-27 | The status becomes StatusFor of the location and accuracy |
| GpsStatusIndicator.ReacquireStatus | src/components/ui/GPSStatusIndicator.jsx:99 | 'accurate' iff at most 10 m, otherwise 'searching' |
| GpsStatusIndicator.ReacquireVersusSample | src/components/ui/GPSStatusIndicator.jsx:12-100 | A re-acquired fix reads like a sample, except beyond 50 m where it is 'searching', not 'lost' |
| GpsStatusIndicator.Indicator.constructor | src/components/ui/GPSStatusIndicator.jsx:5-7 | 'searching', no accuracy, visible |
| GpsStatusIndicator.Indicator.Start | src/components/ui/GPSStatusIndicator.jsx:31-43 | Without a sensor 'lost'; with one unchanged |
| GpsStatusIndicator.Indicator.WatchSuccess | src/components/ui/GPSStatusIndicator.jsx:12-23 | The accuracy is kept and classified |
| GpsStatusIndicator.Indicator.WatchError | src/components/ui/GPSStatusIndicator.jsx:25-29 | 'lost' and no accuracy |
| GpsStatusIndicator.Indicator.Click | src/components/ui/GPSStatusIndicator.jsx:92-106 | Acts only in 'lost' with a sensor: a fix gives the re-acquired status, a failure stays 'lost' |
| GpsStatusIndicator.Indicator.DismissOffered | src/components/ui/GPSStatusIndicator.jsx:140 | Offered iff the status is not 'lost' |
| GpsStatusIndicator.Indicator.Dismiss | src/components/ui/GPSStatusIndicator.jsx:108-111 | Hidden and the 5 s timer started |
| GpsStatusIndicator.Indicator.ReappearTimerFires | src/components/ui/GPSStatusIndicator.jsx:110 | The indicator shows again |
| GpsStatusIndicator.ClickRecovers | src/components/ui/GPSStatusIndicator.jsx:92-140 | From 'lost', a re-acquired fix leaves 'lost' and offers the dismiss control again |
| GpsStatusDisplay.SignalColour | src/pages/gps-signal-lost/components/GPSStatusDisplay.jsx:23-27 | Success iff at least 70, error iff below 40, warning between |
| GpsStatusDisplay.SignalText | src/pages/gps-signal-lost/components/GPSStatusDisplay.jsx:29-33 | Strong iff at least 70, no signal iff below 40, weak between |
| GpsStatusDisplay.TextMatchesColour | src/pages/gps-signal-lost/components/GPSStatusDisplay.jsx:23-33 | The text and the colour always agree |
| GpsStatusDisplay.Bars | src/pages/gps-signal-lost/components/GPSStatusDisplay.jsx:54-66 | Four bars; bar k is lit iff k <= strength / 25 |
| GpsStatusDisplay.LitBarsArePrefix | src/pages/gps-signal-lost/components/GPSStatusDisplay.jsx:54-66 | The lit bars are a prefix |
| GpsStatusDisplay.LitCountIsQuarterOfStrength | src/pages/gps-signal-lost/components/GPSStatusDisplay.jsx:54-66 | For a non-negative strength, min(4, floor(strength / 25)) bars are lit |
| GpsStatusDisplay.BarHeight | src/pages/gps-signal-lost/components/GPSStatusDisplay.jsx:63 | A bar is between 12 and 24 px tall |
| GpsStatusDisplay.BarsRise | src/pages/gps-signal-lost/components/GPSStatusDisplay.jsx:63 | Each bar is at least 4 px taller than any bar to its left |
| GpsStatusDisplay.Display.constructor | src/pages/gps-signal-lost/components/GPSStatusDisplay.jsx:5-6 | Not retrying, no retries |
| GpsStatusDisplay.Display.Retry | src/pages/gps-signal-lost/components/GPSStatusDisplay.jsx:8-21 | Retrying, the counter up by one, the timer started |
| GpsStatusDisplay.Display.SpinnerTimerFires | src/pages/gps-signal-lost/components/GPSStatusDisplay.jsx:17-19 | The spinner stops |
| GpsStatusDisplay.Display.BannerShown | src/pages/gps-signal-lost/components/GPSStatusDisplay.jsx:107 | The banner shows iff a retry has been made |
| GpsStatusDisplay.RetryShowsBanner | src/pages/gps-signal-lost/components/GPSStatusDisplay.jsx:8-107 | After a retry and its timer the banner shows and the spinner is off |
| MapControls.DisabledIffNoEffect | src/pages/campus-map-navigation/components/MapControls.jsx:16-76 | With the default limits, each zoom button is disabled exactly when pressing would not change the page's zoom |
| MapControls.ZoomStep | src/pages/campus-map-navigation/components/MapControls.jsx:33-37 | 0.1, 0.2 or 0.3: exactly the step the page's zoom-in takes, unless the cap cuts it |
| MapControls.RecenterDisabled | src/pages/campus-map-navigation/components/MapControls.jsx:96-116 | Disabled iff there is no user location |
| MapControls.HandleZoomIn | src/pages/campus-map-navigation/components/MapControls.jsx:16-20 | The page zooms in only below the maximum; otherwise nothing |
| MapControls.HandleZoomOut | src/pages/campus-map-navigation/components/MapControls.jsx:22-26 | The page zooms out only above the minimum; otherwise nothing |
| MapControls.HandleRecenter | src/pages/campus-map-navigation/components/MapControls.jsx:28-30 | An enabled recenter lands on zoom 1.5 |
| LocationPermissionSetup.FromQuery | src/pages/location-permission-setup/index.jsx:31-32 | The status is the query's state, one for one |
| LocationPermissionSetup.ErrorStatus | src/pages/location-permission-setup/index.jsx:80-92 | 'unavailable' iff the position is unavailable; every other code 'denied' |
| LocationPermissionSetup.PanelsPartitionStatuses | src/pages/location-permission-setup/index.jsx:180-260 | Exactly one of the status card, the success notice and the prompt panels shows; troubleshooting only with the status card, and not for 'unavailable' |
| LocationPermissionSetup.Setup.constructor | src/pages/location-permission-setup/index.jsx:14-16 | 'prompt', not loading, not checked |
| LocationPermissionSetup.Setup.CheckPermission | src/pages/location-permission-setup/index.jsx:23-46 | Without a sensor 'unavailable'; otherwise the query's state or 'prompt' when it fails; granted starts the redirect; always checked |
| LocationPermissionSetup.Setup.Request | src/pages/location-permission-setup/index.jsx:48-54 | Without a sensor 'unavailable' at once; otherwise loading with a request out |
| LocationPermissionSetup.Setup.RequestSettles | src/pages/location-permission-setup/index.jsx:56-95 | A position grants and starts the redirect; an error maps through ErrorStatus; loading ends either way |
| LocationPermissionSetup.Setup.Retry | src/pages/location-permission-setup/index.jsx:98-101 | Back to 'prompt', then a new request |
| LocationPermissionSetup.Setup.RedirectTimerFires | src/pages/location-permission-setup/index.jsx:73-75 | On to the campus map |
| LocationPermissionSetup.RequestRoundTrip | src/pages/location-permission-setup/index.jsx:48-96 | After any answer loading is off and the page shows the status card or the success notice, never the prompt panels |
| CampusMapLoading.CurrentStepData | src/pages/campus-map-loading/index.jsx:53 | An out-of-range step index falls back to the first step |
| CampusMapLoading.RunError | src/pages/campus-map-loading/index.jsx:65-88 | 'svg_load' iff the map fails; 'gps' iff the map loads and there is no sensor; none otherwise |
| CampusMapLoading.RunsAscend | src/pages/campus-map-loading/index.jsx:59-98 | Step and progress never go back; a map failure stops at step 0, a sensor failure at step 1; only a complete run reaches 100 |
| CampusMapLoading.Loader.constructor | src/pages/campus-map-loading/index.jsx:13-16 | Step 0, progress 0, no error, loading |
| CampusMapLoading.Loader.Report | src/pages/campus-map-loading/index.jsx:59-60 | A stage sets the step and progress and is recorded |
| CampusMapLoading.Loader.Run | src/pages/campus-map-loading/index.jsx:56-107 | The stages reported are (0,10), (0,40), (1,60), (2,80), (3,100), cut short at the failure; a failure sets its error; a complete run ends loading and starts the redirect |
| CampusMapLoading.Loader.UnexpectedFailure | src/pages/campus-map-loading/index.jsx:108-110 | Any other exception gives 'network' |
| CampusMapLoading.Loader.Retry | src/pages/campus-map-loading/index.jsx:116-121 | No error, step 0, progress 0, loading |
| CampusMapLoading.Loader.RedirectTimerFires | src/pages/campus-map-loading/index.jsx:104-106 | On to the campus map |
| CampusMapLoading.RunWithoutSensor | src/pages/campus-map-loading/index.jsx:85-88 | A run without a sensor ends on 'gps' at step 1, with step 0 completed and step 1 active |
| LoadingSteps.StateOf | src/pages/campus-map-loading/components/LoadingSteps.jsx:10-12 | Active iff the index is current, completed iff before it, pending iff after it |
| LoadingSteps.States | src/pages/campus-map-loading/components/LoadingSteps.jsx:10-12 | One state per step, each by StateOf |
| LoadingSteps.OneActive | src/pages/campus-map-loading/components/LoadingSteps.jsx:10 | At most one step is active, and exactly the current one when it is in range |
| LoadingSteps.CompletedArePrefix | src/pages/campus-map-loading/components/LoadingSteps.jsx:11 | Completed steps form a prefix |
| LoadingSteps.IconOf | src/pages/campus-map-loading/components/LoadingSteps.jsx:29-40 | Check iff completed, spinner iff active, the step's own icon iff pending |

## Left out

- The great-circle (haversine) distance uses trigonometry on floating point. It is an input: the `measure` of `CampusMapNavigation.Session`, or the distance argument of `NavigationActiveMode.ActiveMode.PositionUpdate` and its callers.
- Browser services are not modelled as such; their outcomes are parameters:
  - geolocation watches, requests and clearing;
  - the permission query and the map fetch;
  - speech synthesis;
  - the battery, clock and network-status readings of the status bar;
  - `window.location.reload` after the loading page's retry.
- Timers do not count time. Each scheduled callback is an explicit `...TimerFires` method, and the model does not say how long it takes. Timers of one kind fire in the order they were scheduled (a queue or a count), and the model does not interleave timers of different kinds by their delays.
- Rendering (JSX, animation, styles and icon tables) is not modelled. This includes the "render nothing while not navigating" guards of the navigation panel and the status panel.
- Floating point is exact arithmetic here. IEEE rounding is not modelled, and neither are `toFixed`'s ties on binary fractions.
- React's batching of state updates and the timing of re-renders are not modelled: handlers and effects are separate methods that the caller runs in order. Closures that hold an old state value are modelled where the code reads one: the toggle's `voiceEnabled` (`ToggleVoiceAsWritten`), the position watch's `voiceEnabled` (`voiceSeenByWatch`), and the start timer's `isSpeaking` (`StartNotice.speakingWhenScheduled`).
- Lower-casing and `trim` cover ASCII only. Other Unicode letters and spaces are not modelled.
- `VoiceGuidance.Run` is stated for any sequence of readings. The concrete walk 600 … 8 m is proved one decision at a time (`DecideAlongWalk`), not as a single equation on a literal sequence.
- CampusMapViewer.HandleMapClick: requires a positive zoom, as the page's zoom never leaves [0.3, 4].
- CampusMapViewer.Viewer.MouseMove: requires a positive zoom, for the same reason.
- CampusMapViewer.Viewer.TouchMove: requires a positive zoom, for the same reason.
- NavigationPanel.StepIcon: its contract is proved for every instruction. No lemma evaluates it on the page's literal instruction texts.
- `LocationPermissionSetup.Setup` never reaches 'blocked', because no path of the page sets it. The panels for 'blocked' are covered by `PanelsPartitionStatuses` all the same.
- In `CampusMapLoading.Loader.Run`, the sensor check is a parameter. So are the map fetch's success and the waits between stages, which are not timed.

## Findings

| source | as written | input that shows it | evidently intended | confidence | as-written member | corrected member |
|---|---|---|---|---|---|---|
| src/pages/campus-map-navigation/components/CampusMapViewer.jsx:62-66 | The anchors are destructured from `anchorPoints.gps \|\| anchorPoints.topLeft.gps`, a GPS point with no `topLeft` or `bottomRight`, so `bottomRight.lat` reads a field of undefined and throws. As a result the render throws at line 192 (or 195) once the user location (or the destination) has a non-zero latitude and longitude. The click handler would throw at line 79 too, but it is never attached while the map never loads (next row) | any point, e.g. the top-left anchor (18.5271557, 73.7276252) | the inclusive box between the two anchors' GPS points, as in ActiveNavigationMap.jsx:44-48 | high, not executed | CampusMapViewer.IsLocationWithinBoundsAsWritten | CampusMapViewer.IsLocationWithinBounds |
| src/pages/campus-map-navigation/components/CampusMapViewer.jsx:140-244 | The SVG container that receives the fetched map is rendered only in the loaded branch (lines 240-244). The fetch runs once, at mount (line 169), while the loading screen is shown (lines 211-221), so `svgRef.current` is null at line 147 and `setMapLoaded(true)` never runs. The map never loads, and the click and drag handlers are never attached | mount the viewer with a good network response | a good response loads and shows the map | high, not executed | CampusMapViewer.MapNeverLoads | CampusMapViewer.MapLoadsOnGoodResponse |
| src/pages/navigation-active-mode/components/NavigationPanel.jsx:35-42 | Minutes are floored but the remainder is rounded on its own, so it can round up to 60, and a time just under a minute rounds to 60 s | 119.6 s reads "1m 60s"; 59.7 s reads "60s" | round once, then split into minutes and seconds below 60 | high, not executed | NavigationPanel.FormatTimeAsWritten | NavigationPanel.FormatTime |
| src/pages/navigation-active-mode/index.jsx:216-221 | The toggle calls `announceVoice` in the same render, whose `voiceEnabled` is still the old value, so switching voice on never announces "Voice guidance enabled" | voice off, press the toggle | switching on announces that voice guidance is enabled | medium, not executed | NavigationActiveMode.ActiveMode.ToggleVoiceAsWritten | NavigationActiveMode.ActiveMode.ToggleVoice |
| src/pages/navigation-active-mode/index.jsx:58-136 | The watch effect depends only on `destination` and `hasArrived`, so its success callback keeps the `announceVoice` of the render that registered it, with voice on; arrival is announced after the user switched voice off | register the watch, switch voice off, then a sample within 10 m | with voice off, arrival shows no voice toast and speaks nothing | medium, not executed | NavigationActiveMode.ArrivalSpokenWithVoiceOff | NavigationActiveMode.ArrivalSilentWithVoiceOff |
