/**
 * Spoken guidance on the campus map page. While navigating with voice enabled, every
 * new distance is checked against a one-shot arrival radius (10 m) and a descending list
 * of announcement thresholds; the distance at which the last announcement was made
 * suppresses repeats, and is forgotten when navigation stops.
 */
module VoiceGuidance {
  import opened Wrappers
  import opened JsMath

  const ArrivalRadius: real := 10.0

  /** Announcement thresholds in metres, in the order they are scanned. */
  const Thresholds: seq<int> := [500, 200, 100, 50, 25]

  datatype Announcement = Arrival | Threshold(t: int)

  function Message(a: Announcement): string {
    match a
    case Arrival => "You have arrived at your destination"
    case Threshold(500) => "In 500 meters, you will reach your destination"
    case Threshold(200) => "In 200 meters, you will reach your destination"
    case Threshold(100) => "In 100 meters, you will reach your destination"
    case Threshold(50) => "In 50 meters, you will reach your destination"
    case Threshold(_) => "You are almost at your destination"
  }

  /** Where an announcement sits on the distance scale: its threshold, or the arrival radius. */
  function Rank(a: Announcement): real {
    match a
    case Arrival => ArrivalRadius
    case Threshold(t) => t as real
  }

  /**
   * Threshold `t` may fire at distance `d` when `d` is within it and no announcement has
   * been made yet, or the last one was made farther out than `t`.
   */
  predicate Eligible(d: real, last: Option<real>, t: int) {
    d <= t as real && (last.None? || last.value > t as real)
  }

  /** The first eligible threshold of `ts`, scanning from the front. */
  function FirstEligible(d: real, last: Option<real>, ts: seq<int>): (r: Option<int>)
    ensures r.None? <==> forall i :: 0 <= i < |ts| ==> !Eligible(d, last, ts[i])
    ensures r.Some? ==>
              exists i :: 0 <= i < |ts| && ts[i] == r.value && Eligible(d, last, r.value) &&
                          forall j :: 0 <= j < i ==> !Eligible(d, last, ts[j])
    decreases |ts|
  {
    if ts == [] then None
    else if Eligible(d, last, ts[0]) then Some(ts[0])
    else
      var r := FirstEligible(d, last, ts[1..]);
      assert forall i :: 1 <= i < |ts| ==> ts[i] == ts[1..][i - 1];
      r
  }

  /**
   * The threshold scan of the guidance effect: walk the thresholds in order and stop at
   * the first eligible one.
   */
  method ScanThresholds(d: real, last: Option<real>) returns (fired: Option<int>)
    ensures fired == FirstEligible(d, last, Thresholds)
  {
    fired := None;
    var i := 0;
    while i < |Thresholds|
      invariant 0 <= i <= |Thresholds|
      invariant FirstEligible(d, last, Thresholds[i..]) == FirstEligible(d, last, Thresholds)
    {
      var t := Thresholds[i];
      if Eligible(d, last, t) {
        fired := Some(t);
        break;
      }
      assert Thresholds[i..][1..] == Thresholds[i + 1..];
      i := i + 1;
    }
  }

  /**
   * What one evaluation announces at a positive distance `d`: within the arrival radius,
   * only the arrival message, and only if nothing was announced yet or the last
   * announcement was made outside the radius; beyond it, the first eligible threshold.
   */
  function Decide(d: real, last: Option<real>): (r: Option<Announcement>)
    ensures r == Some(Arrival) <==> d <= ArrivalRadius && (last.None? || last.value > ArrivalRadius)
    ensures d <= ArrivalRadius ==> r == None || r == Some(Arrival)
    ensures r.Some? && r.value.Threshold? ==>
              d > ArrivalRadius &&
              exists i :: 0 <= i < |Thresholds| && Thresholds[i] == r.value.t && Eligible(d, last, r.value.t) &&
                          forall j :: 0 <= j < i ==> !Eligible(d, last, Thresholds[j])
    ensures r == None && d > ArrivalRadius ==> forall i :: 0 <= i < |Thresholds| ==> !Eligible(d, last, Thresholds[i])
  {
    if d <= ArrivalRadius then
      if last.None? || last.value > ArrivalRadius then Some(Arrival) else None
    else
      match FirstEligible(d, last, Thresholds)
      case Some(t) => Some(Threshold(t))
      case None => None
  }

  /** The gate in front of the policy: a missing or zero distance announces nothing. */
  function Evaluate(distance: Option<real>, last: Option<real>): Option<Announcement> {
    if Truthy(distance) then Decide(distance.value, last) else None
  }

  /** An announcement sits at or beyond the distance it fires at, and strictly inside the last one. */
  lemma FiredBetweenDistanceAndLast(d: real, last: Option<real>)
    requires Decide(d, last).Some?
    ensures d <= Rank(Decide(d, last).value)
    ensures last.Some? ==> Rank(Decide(d, last).value) < last.value
  {
  }

  /** Re-evaluating the distance just announced at announces nothing. */
  lemma RepeatIsSilent(d: real)
    ensures Decide(d, Some(d)) == None
  {
  }

  /** Once the arrival has been announced (last within the radius), nothing is ever announced again. */
  lemma ArrivalIsTerminal(d: real, l: real)
    requires l <= ArrivalRadius
    ensures Decide(d, Some(l)) == None
  {
    if Decide(d, Some(l)).Some? {
      FiredBetweenDistanceAndLast(d, Some(l));
      assert false;
    }
  }

  /** With nothing announced yet, any distance between 10 and 500 m fires the 500 m message. */
  lemma FreshRunFiresFirstThreshold(d: real)
    requires ArrivalRadius < d <= 500.0
    ensures Decide(d, None) == Some(Threshold(500))
  {
  }

  /** Because the scan stops at the first match, a first distance of 40 m fires the 500 m message. */
  lemma FirstDistanceForty()
    ensures Decide(40.0, None) == Some(Threshold(500))
    ensures Decide(40.0, Some(40.0)) == None
    ensures Decide(20.0, Some(40.0)) == Some(Threshold(25))
  {
  }

  /** The announcements made over successive distance readings, one entry per reading. */
  function Run(ds: seq<real>, last: Option<real>): (r: seq<Option<Announcement>>)
    ensures |r| == |ds|
    decreases |ds|
  {
    if ds == [] then []
    else
      var a := Evaluate(Some(ds[0]), last);
      [a] + Run(ds[1..], if a.Some? then Some(ds[0]) else last)
  }

  /** Every announcement of a run sits strictly inside the distance last announced at. */
  lemma {:induction false} RunStaysBelow(ds: seq<real>, l: real)
    ensures forall i :: 0 <= i < |ds| && Run(ds, Some(l))[i].Some? ==> Rank(Run(ds, Some(l))[i].value) < l
    decreases |ds|
  {
    if ds != [] {
      var a := Evaluate(Some(ds[0]), Some(l));
      var next := if a.Some? then Some(ds[0]) else Some(l);
      if a.Some? {
        FiredBetweenDistanceAndLast(ds[0], Some(l));
      }
      RunStaysBelow(ds[1..], next.value);
    }
  }

  /**
   * Over any run the announcements strictly descend: no threshold is repeated or made out
   * of order, and the arrival message comes at most once and last.
   */
  lemma {:induction false} RunDescends(ds: seq<real>, last: Option<real>)
    ensures forall i, j :: 0 <= i < j < |ds| && Run(ds, last)[i].Some? && Run(ds, last)[j].Some? ==>
              Rank(Run(ds, last)[j].value) < Rank(Run(ds, last)[i].value)
    decreases |ds|
  {
    if ds != [] {
      var r := Run(ds, last);
      var a := Evaluate(Some(ds[0]), last);
      var next := if a.Some? then Some(ds[0]) else last;
      RunDescends(ds[1..], next);
      assert forall k :: 1 <= k < |ds| ==> r[k] == Run(ds[1..], next)[k - 1];
      if a.Some? {
        FiredBetweenDistanceAndLast(ds[0], last);
        RunStaysBelow(ds[1..], ds[0]);
      }
    }
  }

  /**
   * The walk 600, 480, 190, 90, 40, 20, 8 m, each sample decided against the
   * last announcement before it: nothing, then 500, 200, 100, 50, 25 and arrival.
   */
  lemma DecideAlongWalk()
    ensures Decide(600.0, None) == None
    ensures Decide(480.0, None) == Some(Threshold(500))
    ensures Decide(190.0, Some(480.0)) == Some(Threshold(200))
    ensures Decide(90.0, Some(190.0)) == Some(Threshold(100))
    ensures Decide(40.0, Some(90.0)) == Some(Threshold(50))
    ensures Decide(20.0, Some(40.0)) == Some(Threshold(25))
    ensures Decide(8.0, Some(20.0)) == Some(Arrival)
  {
    WalkFar();
    WalkNear();
  }

  /** The first four readings of the walk. */
  lemma WalkFar()
    ensures Decide(600.0, None) == None
    ensures Decide(480.0, None) == Some(Threshold(500))
    ensures Decide(190.0, Some(480.0)) == Some(Threshold(200))
    ensures Decide(90.0, Some(190.0)) == Some(Threshold(100))
  {
  }

  /** The last three readings of the walk. */
  lemma WalkNear()
    ensures Decide(40.0, Some(90.0)) == Some(Threshold(50))
    ensures Decide(20.0, Some(40.0)) == Some(Threshold(25))
    ensures Decide(8.0, Some(20.0)) == Some(Arrival)
  {
  }

  /**
   * A pending navigation-start timer: the message it will speak and the speaking flag its
   * closure captured when it was scheduled.
   */
  datatype StartNotice = StartNotice(message: string, speakingWhenScheduled: bool)

  /** The component's state: voice switch, speech activity and the last announcement distance. */
  class Guidance {
    const synthesisAvailable: bool
    var isVoiceEnabled: bool
    var isSpeaking: bool
    var lastAnnouncementDistance: Option<real>
    /** Utterances handed to speech synthesis, oldest first. */
    var spoken: seq<string>
    /** The pending 1 s timers of the navigation-start announcement, in the order they fire. */
    var startNotices: seq<StartNotice>
    /** How many 100 ms timers of the "enabled" announcement are still to fire. */
    var enabledNotices: nat

    constructor (synthesisAvailable: bool)
      ensures this.synthesisAvailable == synthesisAvailable
      ensures isVoiceEnabled && !isSpeaking && lastAnnouncementDistance == None
      ensures spoken == [] && startNotices == [] && enabledNotices == 0
    {
      this.synthesisAvailable := synthesisAvailable;
      isVoiceEnabled := true;
      isSpeaking := false;
      lastAnnouncementDistance := None;
      spoken := [];
      startNotices := [];
      enabledNotices := 0;
    }

    /** announceGuidance: speak only when nothing is being spoken. */
    method Announce(m: string)
      modifies this`spoken
      ensures spoken == old(spoken) + (if synthesisAvailable && !isSpeaking then [m] else [])
    {
      if synthesisAvailable && !isSpeaking {
        spoken := spoken + [m];
      }
    }

    /**
     * The guidance effect, run for the current props. Returns whether onArrival was called.
     * The last announcement distance becomes the current distance whenever something is
     * announced, even if speech was skipped because something was being spoken.
     */
    method Evaluate(isNavigating: bool, distance: Option<real>) returns (arrived: bool)
      modifies this`spoken, this`lastAnnouncementDistance
      ensures var open := isNavigating && isVoiceEnabled && Truthy(distance) && synthesisAvailable;
              var a := if open then Decide(distance.value, old(lastAnnouncementDistance)) else None;
              && arrived == (a == Some(Arrival))
              && lastAnnouncementDistance == (if a.Some? then distance else old(lastAnnouncementDistance))
              && spoken == old(spoken) + (if a.Some? && !isSpeaking then [Message(a.value)] else [])
    {
      arrived := false;
      if !isNavigating || !isVoiceEnabled || !Truthy(distance) || !synthesisAvailable {
        return;
      }
      var d := distance.value;
      if d <= ArrivalRadius {
        if lastAnnouncementDistance.None? || lastAnnouncementDistance.value > ArrivalRadius {
          Announce(Message(Arrival));
          arrived := true;
          lastAnnouncementDistance := distance;
        }
        return;
      }
      var fired := ScanThresholds(d, lastAnnouncementDistance);
      if fired.Some? {
        Announce(Message(Threshold(fired.value)));
        lastAnnouncementDistance := distance;
      }
    }

    /**
     * The navigation-start effect: schedules "Navigation started to <name>" one second
     * later, behind any start timers still pending. The timer keeps the speaking flag of
     * this render.
     */
    method StartEffect(isNavigating: bool, destinationName: Option<string>)
      modifies this`startNotices
      ensures startNotices ==
        if isNavigating && destinationName.Some? && isVoiceEnabled && synthesisAvailable
        then old(startNotices) +
             [StartNotice("Navigation started to " + (if destinationName.value == "" then "your destination" else destinationName.value),
                          isSpeaking)]
        else old(startNotices)
    {
      if isNavigating && destinationName.Some? && isVoiceEnabled && synthesisAvailable {
        var name := if destinationName.value == "" then "your destination" else destinationName.value;
        startNotices := startNotices + [StartNotice("Navigation started to " + name, isSpeaking)];
      }
    }

    /**
     * The oldest start timer fires: its message is spoken unless something was being
     * spoken when it was scheduled; what is being spoken now is not consulted.
     */
    method StartNoticeTimerFires()
      modifies this`spoken, this`startNotices
      ensures old(startNotices) == [] ==> startNotices == [] && spoken == old(spoken)
      ensures old(startNotices) != [] ==>
                var n := old(startNotices)[0];
                && startNotices == old(startNotices)[1..]
                && spoken == old(spoken) + (if synthesisAvailable && !n.speakingWhenScheduled then [n.message] else [])
    {
      if startNotices != [] {
        var n := startNotices[0];
        if synthesisAvailable && !n.speakingWhenScheduled {
          spoken := spoken + [n.message];
        }
        startNotices := startNotices[1..];
      }
    }

    /** The reset effect: when navigation stops, forget the last announcement and stop speaking. */
    method StopEffect(isNavigating: bool)
      modifies this`lastAnnouncementDistance, this`isSpeaking
      ensures !isNavigating ==> lastAnnouncementDistance == None && !isSpeaking
      ensures isNavigating ==> lastAnnouncementDistance == old(lastAnnouncementDistance) && isSpeaking == old(isSpeaking)
    {
      if !isNavigating {
        lastAnnouncementDistance := None;
        isSpeaking := false;
      }
    }

    /** Speech synthesis reports an utterance starting or ending (or failing). */
    method UtteranceStarted()
      modifies this`isSpeaking
      ensures isSpeaking
    {
      isSpeaking := true;
    }

    method UtteranceEnded()
      modifies this`isSpeaking
      ensures !isSpeaking
    {
      isSpeaking := false;
    }

    /** toggleVoiceGuidance: flip the switch, silence speech, and schedule "enabled" when switching on. */
    method Toggle()
      modifies this`isVoiceEnabled, this`isSpeaking, this`enabledNotices
      ensures isVoiceEnabled == !old(isVoiceEnabled)
      ensures isSpeaking == (old(isSpeaking) && !synthesisAvailable)
      ensures enabledNotices == old(enabledNotices) + (if !old(isVoiceEnabled) && synthesisAvailable then 1 else 0)
    {
      var wasEnabled := isVoiceEnabled;
      isVoiceEnabled := !isVoiceEnabled;
      if synthesisAvailable && isSpeaking {
        isSpeaking := false;
      }
      if !wasEnabled && synthesisAvailable {
        enabledNotices := enabledNotices + 1;
      }
    }

    /** One 100 ms timer fires: "Voice guidance enabled" is spoken unconditionally. */
    method EnabledNoticeTimerFires()
      modifies this`spoken, this`enabledNotices
      ensures old(enabledNotices) > 0 ==>
                enabledNotices == old(enabledNotices) - 1 && spoken == old(spoken) + ["Voice guidance enabled"]
      ensures old(enabledNotices) == 0 ==> enabledNotices == 0 && spoken == old(spoken)
    {
      if enabledNotices > 0 {
        spoken := spoken + ["Voice guidance enabled"];
        enabledNotices := enabledNotices - 1;
      }
    }
  }

  /**
   * The guidance effect re-runs after its own update of the last announcement distance;
   * that second run announces nothing, so each reading announces at most once.
   */
  method EvaluateTwice(g: Guidance, d: real) returns (first: bool, second: bool)
    requires g.isVoiceEnabled && g.synthesisAvailable && d != 0.0
    modifies g`spoken, g`lastAnnouncementDistance
    ensures |g.spoken| <= |old(g.spoken)| + 1
    ensures !second
  {
    first := g.Evaluate(true, Some(d));
    RepeatIsSilent(d);
    second := g.Evaluate(true, Some(d));
  }

  /**
   * The start timer keeps the speaking flag of the render that scheduled it: an utterance
   * that starts in the second before it fires does not hold the start message back.
   */
  method StartNoticeSpeaksOverLaterUtterance() returns (g: Guidance)
    ensures g.isSpeaking && g.spoken == ["Navigation started to Library"]
  {
    g := new Guidance(true);
    g.StartEffect(true, Some("Library"));
    assert "Navigation started to " + "Library" == "Navigation started to Library";
    g.UtteranceStarted();
    g.StartNoticeTimerFires();
  }

  /** Switching voice off and on twice before the timers fire announces "enabled" twice. */
  method TwoTogglesOnAnnounceTwice() returns (g: Guidance)
    ensures g.isVoiceEnabled && g.spoken == ["Voice guidance enabled", "Voice guidance enabled"]
  {
    g := new Guidance(true);
    g.Toggle();
    g.Toggle();
    g.Toggle();
    g.Toggle();
    g.EnabledNoticeTimerFires();
    g.EnabledNoticeTimerFires();
  }
}
