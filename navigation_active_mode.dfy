/**
 * The active-navigation page: each position sample updates the location, heading, GPS
 * status, distance, ETA and the current step in turn; arrival within 10 m is latched once;
 * voice announcements are gated by the voice switch; a sensor error (or no sensor at all)
 * falls back to a fixed demo position. The distance to the destination is an input.
 */
module NavigationActiveMode {
  import opened Wrappers
  import opened JsMath
  import opened Geolocation

  /** A position sample as the sensor reports it; the heading may be missing. */
  datatype Sample = Sample(lat: real, lng: real, accuracy: real, heading: Option<real>)

  datatype Location = Location(lat: real, lng: real, accuracy: real)

  /** The icons a step can carry. */
  datatype StepIcon = ArrowUpRight | ArrowLeft | ArrowRight | ArrowUp | MapPin

  /** A turn-by-turn step: what to do, in how many metres, with which icon. */
  datatype Step = Step(instruction: string, distance: int, icon: StepIcon)

  datatype VoiceType = InstructionVoice | ArrivalVoice

  /** The fixed destination of this page. */
  datatype Destination = Destination(lat: real, lng: real, totalDistance: real)

  const Library := Destination(18.5245123, 73.7298456, 850.0)

  /** The demo position used when the sensor fails or is missing. */
  const FallbackLocation := Location(18.5251234, 73.7285678, 5.0)

  const InitialStep := Step("Head northeast towards Academic Block A", 125, ArrowUpRight)

  const ApproachingText := "You are approaching your destination"
  const ContinueText := "Continue straight towards the library entrance"
  const TurnRightText := "Turn right at the next pathway"

  const ArrivalMessage := "You have arrived at your destination"
  const VoiceEnabledMessage := "Voice guidance enabled"

  /** Walking speed used for the estimate, in metres per second. */
  const WalkingSpeed: real := 1.4

  /**
   * `heading || 0`: a missing heading becomes 0. A reported 0 stays 0, so for numbers this
   * is the same as taking the heading when there is one.
   */
  function HeadingOrZero(heading: Option<real>): (r: real)
    ensures heading.Some? ==> r == heading.value
    ensures heading.None? ==> r == 0.0
  {
    if Truthy(heading) then heading.value else 0.0
  }

  /** Estimated seconds to the destination, `Math.round(distance / 1.4)`. */
  function Eta(distance: real): (seconds: int)
    ensures seconds as real - 0.5 <= distance / WalkingSpeed < seconds as real + 0.5
    ensures distance >= 0.0 ==> seconds >= 0
  {
    Round(distance / WalkingSpeed)
  }

  /**
   * updateNavigationInstructions: the step for a distance, by bucket; beyond 200 m the
   * current step is kept (no new step). The 'turn right' bucket counts from 150 m, so its
   * step distance is at most 50 m.
   */
  function InstructionFor(d: real): (r: Option<Step>)
    ensures r.None? <==> d > 200.0
    ensures r.Some? && d <= 50.0 ==>
              r.value.instruction == ApproachingText && r.value.icon == MapPin &&
              r.value.distance as real - 0.5 <= d < r.value.distance as real + 0.5
    ensures r.Some? && 50.0 < d <= 100.0 ==>
              r.value.instruction == ContinueText && r.value.icon == ArrowUp &&
              r.value.distance as real - 0.5 <= d < r.value.distance as real + 0.5
    ensures r.Some? && 100.0 < d ==>
              r.value.instruction == TurnRightText && r.value.icon == ArrowRight && -50 <= r.value.distance <= 50 &&
              r.value.distance as real - 0.5 <= d - 150.0 < r.value.distance as real + 0.5
  {
    if d <= 50.0 then Some(Step(ApproachingText, Round(d), MapPin))
    else if d <= 100.0 then Some(Step(ContinueText, Round(d), ArrowUp))
    else if d <= 200.0 then Some(Step(TurnRightText, Round(d - 150.0), ArrowRight))
    else None
  }

  /** The page's state. `speechAvailable` stands for the browser offering speech synthesis. */
  class ActiveMode {
    const speechAvailable: bool
    var isNavigating: bool
    var userLocation: Option<Location>
    var heading: real
    var gpsStatus: GpsStatus
    var voiceEnabled: bool
    var hasArrived: bool
    var voiceMessage: string
    var showVoiceToast: bool
    var voiceType: VoiceType
    var distance: real
    var estimatedTime: int
    var currentStep: Step
    /** Whether a position watch is registered with the sensor. */
    var watching: bool
    /**
     * The voice switch as the render that registered the current watch saw it. The watch
     * effect re-runs only when the destination or the arrival flag changes, so its
     * callbacks keep announcing through this value after the switch is flipped.
     */
    var voiceSeenByWatch: bool
    /** Utterances handed to speech synthesis, oldest first. */
    var spoken: seq<string>
    /** The page most recently navigated to, if any. */
    var route: Option<Route>

    /** Once arrived, navigation is over. */
    ghost predicate Valid()
      reads this
    {
      hasArrived ==> !isNavigating
    }

    constructor(speechAvailable: bool)
      ensures Valid()
      ensures this.speechAvailable == speechAvailable
      ensures isNavigating && userLocation == None && heading == 0.0 && gpsStatus == Searching
      ensures voiceEnabled && !hasArrived && voiceMessage == "" && !showVoiceToast && voiceType == InstructionVoice
      ensures distance == 850.0 && estimatedTime == 420 && currentStep == InitialStep
      ensures !watching && voiceSeenByWatch && spoken == [] && route == None
    {
      this.speechAvailable := speechAvailable;
      isNavigating := true;
      userLocation := None;
      heading := 0.0;
      gpsStatus := Searching;
      voiceEnabled := true;
      hasArrived := false;
      voiceMessage := "";
      showVoiceToast := false;
      voiceType := InstructionVoice;
      distance := 850.0;
      estimatedTime := 420;
      currentStep := InitialStep;
      watching := false;
      voiceSeenByWatch := true;
      spoken := [];
      route := None;
    }

    /**
     * announceVoice, with the voice switch as the calling render saw it: when that was off
     * nothing changes; otherwise the toast shows the message and type, and the message is
     * spoken when speech synthesis exists.
     */
    method AnnounceVoice(enabledAtRender: bool, message: string, kind: VoiceType)
      modifies this`voiceMessage, this`voiceType, this`showVoiceToast, this`spoken
      ensures !enabledAtRender ==>
                voiceMessage == old(voiceMessage) && voiceType == old(voiceType) &&
                showVoiceToast == old(showVoiceToast) && spoken == old(spoken)
      ensures enabledAtRender ==>
                voiceMessage == message && voiceType == kind && showVoiceToast &&
                spoken == old(spoken) + (if speechAvailable then [message] else [])
    {
      if !enabledAtRender {
        return;
      }
      voiceMessage := message;
      voiceType := kind;
      showVoiceToast := true;
      if speechAvailable {
        spoken := spoken + [message];
      }
    }

    /**
     * handleArrival: latch the arrival, stop navigating, announce it. `voiceSeen` is the
     * voice switch as the calling closure holds it.
     */
    method HandleArrival(voiceSeen: bool)
      modifies this`hasArrived, this`isNavigating, this`voiceMessage, this`voiceType, this`showVoiceToast, this`spoken
      ensures Valid() && hasArrived && !isNavigating
      ensures voiceSeen ==> voiceMessage == ArrivalMessage && voiceType == ArrivalVoice && showVoiceToast &&
                            spoken == old(spoken) + (if speechAvailable then [ArrivalMessage] else [])
      ensures !voiceSeen ==> voiceMessage == old(voiceMessage) && spoken == old(spoken) &&
                             showVoiceToast == old(showVoiceToast) && voiceType == old(voiceType)
    {
      hasArrived := true;
      isNavigating := false;
      AnnounceVoice(voiceSeen, ArrivalMessage, ArrivalVoice);
    }

    /**
     * The watch's success callback for one sample at `distanceToDestination` metres from
     * the destination, announcing through the voice switch `voiceSeen`.
     */
    method PositionUpdate(sample: Sample, distanceToDestination: real, voiceSeen: bool)
      requires Valid()
      modifies this`userLocation, this`heading, this`gpsStatus, this`distance, this`estimatedTime, this`currentStep
      modifies this`hasArrived, this`isNavigating, this`voiceMessage, this`voiceType, this`showVoiceToast, this`spoken
      ensures Valid()
      ensures userLocation == Some(Location(sample.lat, sample.lng, sample.accuracy))
      ensures heading == HeadingOrZero(sample.heading)
      ensures gpsStatus == ClassifySample(sample.accuracy)
      ensures distance == distanceToDestination && estimatedTime == Eta(distanceToDestination)
      ensures currentStep == InstructionFor(distanceToDestination).GetOr(old(currentStep))
      ensures distanceToDestination <= 10.0 && !old(hasArrived) ==> hasArrived && !isNavigating
      ensures distanceToDestination <= 10.0 && !old(hasArrived) && voiceSeen ==>
                voiceMessage == ArrivalMessage && voiceType == ArrivalVoice && showVoiceToast &&
                spoken == old(spoken) + (if speechAvailable then [ArrivalMessage] else [])
      ensures !voiceSeen ==> spoken == old(spoken) && voiceMessage == old(voiceMessage) && showVoiceToast == old(showVoiceToast)
      ensures !(distanceToDestination <= 10.0 && !old(hasArrived)) ==>
                hasArrived == old(hasArrived) && isNavigating == old(isNavigating) &&
                spoken == old(spoken) && voiceMessage == old(voiceMessage)
    {
      userLocation := Some(Location(sample.lat, sample.lng, sample.accuracy));
      heading := HeadingOrZero(sample.heading);
      gpsStatus := ClassifySample(sample.accuracy);
      distance := distanceToDestination;
      estimatedTime := Eta(distanceToDestination);
      if distanceToDestination <= 10.0 && !hasArrived {
        HandleArrival(voiceSeen);
      }
      var step := InstructionFor(distanceToDestination);
      if step.Some? {
        currentStep := step.value;
      }
    }

    /**
     * The success callback as registered: it announces through the switch captured when
     * the watch was registered, so an arrival is announced even after voice was turned off.
     */
    method WatchCallbackAsWritten(sample: Sample, distanceToDestination: real)
      requires Valid()
      modifies this`userLocation, this`heading, this`gpsStatus, this`distance, this`estimatedTime, this`currentStep
      modifies this`hasArrived, this`isNavigating, this`voiceMessage, this`voiceType, this`showVoiceToast, this`spoken
      ensures Valid() && voiceEnabled == old(voiceEnabled)
      ensures distanceToDestination <= 10.0 && !old(hasArrived) ==> hasArrived && !isNavigating
      ensures distanceToDestination <= 10.0 && !old(hasArrived) && voiceSeenByWatch ==>
                voiceMessage == ArrivalMessage && showVoiceToast &&
                spoken == old(spoken) + (if speechAvailable then [ArrivalMessage] else [])
      ensures !voiceSeenByWatch ==> spoken == old(spoken) && voiceMessage == old(voiceMessage)
      ensures !(distanceToDestination <= 10.0 && !old(hasArrived)) ==>
                hasArrived == old(hasArrived) && isNavigating == old(isNavigating) && spoken == old(spoken)
    {
      PositionUpdate(sample, distanceToDestination, voiceSeenByWatch);
    }

    /**
     * The success callback as intended: it announces through the switch as it is now, so
     * nothing is spoken while voice is off.
     */
    method WatchCallback(sample: Sample, distanceToDestination: real)
      requires Valid()
      modifies this`userLocation, this`heading, this`gpsStatus, this`distance, this`estimatedTime, this`currentStep
      modifies this`hasArrived, this`isNavigating, this`voiceMessage, this`voiceType, this`showVoiceToast, this`spoken
      ensures Valid() && voiceEnabled == old(voiceEnabled)
      ensures distanceToDestination <= 10.0 && !old(hasArrived) ==> hasArrived && !isNavigating
      ensures distanceToDestination <= 10.0 && !old(hasArrived) && voiceEnabled ==>
                voiceMessage == ArrivalMessage && showVoiceToast &&
                spoken == old(spoken) + (if speechAvailable then [ArrivalMessage] else [])
      ensures !voiceEnabled ==>
                spoken == old(spoken) && voiceMessage == old(voiceMessage) && showVoiceToast == old(showVoiceToast)
      ensures !(distanceToDestination <= 10.0 && !old(hasArrived)) ==>
                hasArrived == old(hasArrived) && isNavigating == old(isNavigating) && spoken == old(spoken)
    {
      PositionUpdate(sample, distanceToDestination, voiceEnabled);
    }

    /** The watch's error callback: 'lost', then the demo position with 'accurate'. */
    method PositionError()
      modifies this`gpsStatus, this`userLocation
      ensures userLocation == Some(FallbackLocation) && gpsStatus == Accurate
    {
      gpsStatus := Lost;
      userLocation := Some(FallbackLocation);
      gpsStatus := Accurate;
    }

    /**
     * Starting to track: with a sensor a watch is registered, and its callbacks capture the
     * voice switch as it is now; without one the demo position is used.
     */
    method StartTracking(geolocationAvailable: bool)
      modifies this`watching, this`voiceSeenByWatch, this`gpsStatus, this`userLocation
      ensures geolocationAvailable ==>
                watching && voiceSeenByWatch == voiceEnabled && gpsStatus == old(gpsStatus) && userLocation == old(userLocation)
      ensures !geolocationAvailable ==>
                watching == old(watching) && voiceSeenByWatch == old(voiceSeenByWatch) &&
                userLocation == Some(FallbackLocation) && gpsStatus == Accurate
    {
      if geolocationAvailable {
        watching := true;
        voiceSeenByWatch := voiceEnabled;
      } else {
        userLocation := Some(FallbackLocation);
        gpsStatus := Accurate;
      }
    }

    /** handleCancelNavigation: stop navigating, clear the watch, return to the campus map. */
    method CancelNavigation()
      requires Valid()
      modifies this`isNavigating, this`watching, this`route
      ensures Valid() && !isNavigating && !watching && route == Some(CampusMapNavigation)
    {
      isNavigating := false;
      watching := false;
      route := Some(CampusMapNavigation);
    }

    /**
     * handleToggleVoice as written: the switch flips, but the announcement is made through
     * the same render's announceVoice, which still sees the switch off and returns, so
     * "Voice guidance enabled" is never announced.
     */
    method ToggleVoiceAsWritten()
      modifies this`voiceEnabled, this`voiceMessage, this`voiceType, this`showVoiceToast, this`spoken
      ensures voiceEnabled == !old(voiceEnabled)
      ensures spoken == old(spoken) && voiceMessage == old(voiceMessage) && showVoiceToast == old(showVoiceToast)
    {
      var seenByRender := voiceEnabled;
      voiceEnabled := !seenByRender;
      if !seenByRender {
        AnnounceVoice(seenByRender, VoiceEnabledMessage, InstructionVoice);
      }
    }

    /** handleToggleVoice as intended: switching voice on announces it. */
    method ToggleVoice()
      modifies this`voiceEnabled, this`voiceMessage, this`voiceType, this`showVoiceToast, this`spoken
      ensures voiceEnabled == !old(voiceEnabled)
      ensures voiceEnabled ==> voiceMessage == VoiceEnabledMessage && showVoiceToast &&
                               spoken == old(spoken) + (if speechAvailable then [VoiceEnabledMessage] else [])
      ensures !voiceEnabled ==> spoken == old(spoken) && voiceMessage == old(voiceMessage) && showVoiceToast == old(showVoiceToast)
    {
      voiceEnabled := !voiceEnabled;
      if voiceEnabled {
        AnnounceVoice(voiceEnabled, VoiceEnabledMessage, InstructionVoice);
      }
    }

    method DismissToast()
      modifies this`showVoiceToast
      ensures !showVoiceToast
    {
      showVoiceToast := false;
    }

    /** Continue exploring, navigate again and close: clear the arrival and return to the campus map. */
    method LeaveArrival()
      requires Valid()
      modifies this`hasArrived, this`route
      ensures Valid() && !hasArrived && route == Some(CampusMapNavigation)
    {
      hasArrived := false;
      route := Some(CampusMapNavigation);
    }
  }

  /**
   * The arrival latch: two samples within 10 m in a row arrive once; the second sample
   * announces nothing more.
   */
  method ArriveTwice(m: ActiveMode, s1: Sample, s2: Sample, d1: real, d2: real)
    requires m.Valid() && !m.hasArrived && d1 <= 10.0 && d2 <= 10.0
    modifies m
    ensures m.hasArrived && !m.isNavigating
    ensures m.voiceEnabled ==>
              m.spoken == old(m.spoken) + (if m.speechAvailable then [ArrivalMessage] else [])
  {
    m.WatchCallback(s1, d1);
    m.WatchCallback(s2, d2);
  }

  /**
   * The page as written: the watch is registered with voice on, the user turns voice off,
   * and a sample at the destination still shows and speaks the arrival message.
   */
  method ArrivalSpokenWithVoiceOff(sample: Sample) returns (m: ActiveMode)
    ensures !m.voiceEnabled && m.hasArrived
    ensures m.voiceMessage == ArrivalMessage && m.showVoiceToast && m.spoken == [ArrivalMessage]
  {
    m := new ActiveMode(true);
    m.StartTracking(true);
    m.ToggleVoiceAsWritten();
    m.WatchCallbackAsWritten(sample, 5.0);
  }

  /** The same steps with the intended callback: nothing is shown or spoken. */
  method ArrivalSilentWithVoiceOff(sample: Sample) returns (m: ActiveMode)
    ensures !m.voiceEnabled && m.hasArrived
    ensures m.voiceMessage == "" && !m.showVoiceToast && m.spoken == []
  {
    m := new ActiveMode(true);
    m.StartTracking(true);
    m.ToggleVoice();
    m.WatchCallback(sample, 5.0);
  }
}
