/**
 * The floating GPS indicator: it classifies every sample of its own position watch, drops
 * to 'lost' on an error or without a sensor, tries once to re-acquire when clicked in
 * 'lost', and can be dismissed for five seconds unless the signal is lost.
 */
module GpsStatusIndicator {
  import opened Wrappers
  import opened Geolocation

  /** The status a successful re-acquisition gives: 'accurate' up to 10 m, otherwise 'searching'. */
  function ReacquireStatus(accuracy: real): (s: GpsStatus)
    ensures s == Accurate <==> accuracy <= 10.0
    ensures s != Accurate ==> s == Searching
  {
    if accuracy <= 10.0 then Accurate else Searching
  }

  /**
   * A re-acquired fix reads like a watched sample of the same accuracy, except that one
   * worse than 50 m reads 'searching' instead of 'lost'.
   */
  lemma ReacquireVersusSample(accuracy: real)
    ensures accuracy <= 50.0 ==> ReacquireStatus(accuracy) == ClassifySample(accuracy)
    ensures accuracy > 50.0 ==> ReacquireStatus(accuracy) == Searching && ClassifySample(accuracy) == Lost
  {
  }

  class Indicator {
    var gpsStatus: GpsStatus
    var accuracy: Option<real>
    var isVisible: bool
    /** Whether the 5 s timer started by a dismissal is still to fire. */
    var reappearPending: bool

    constructor()
      ensures gpsStatus == Searching && accuracy == None && isVisible && !reappearPending
    {
      gpsStatus := Searching;
      accuracy := None;
      isVisible := true;
      reappearPending := false;
    }

    /** The mount effect: without a sensor the indicator reads 'lost' straight away. */
    method Start(geolocationAvailable: bool)
      modifies this`gpsStatus
      ensures !geolocationAvailable ==> gpsStatus == Lost
      ensures geolocationAvailable ==> gpsStatus == old(gpsStatus)
    {
      if !geolocationAvailable {
        gpsStatus := Lost;
      }
    }

    /** handleSuccess: the accuracy is kept and classified. */
    method WatchSuccess(acc: real)
      modifies this`gpsStatus, this`accuracy
      ensures accuracy == Some(acc) && gpsStatus == ClassifySample(acc)
    {
      accuracy := Some(acc);
      if acc <= 10.0 {
        gpsStatus := Accurate;
      } else if acc <= 50.0 {
        gpsStatus := Searching;
      } else {
        gpsStatus := Lost;
      }
    }

    /** handleError: 'lost', and the accuracy is forgotten. */
    method WatchError()
      modifies this`gpsStatus, this`accuracy
      ensures gpsStatus == Lost && accuracy == None
    {
      gpsStatus := Lost;
      accuracy := None;
    }

    /**
     * handleClick: only in 'lost' and with a sensor, one position request; `outcome` is its
     * result (an accuracy, or `None` for a failure). A failure leaves the old accuracy.
     */
    method Click(geolocationAvailable: bool, outcome: Option<real>)
      modifies this`gpsStatus, this`accuracy
      ensures old(gpsStatus) == Lost && geolocationAvailable && outcome.Some? ==>
                accuracy == outcome && gpsStatus == ReacquireStatus(outcome.value) && gpsStatus != Lost
      ensures old(gpsStatus) == Lost && geolocationAvailable && outcome.None? ==>
                gpsStatus == Lost && accuracy == old(accuracy)
      ensures !(old(gpsStatus) == Lost && geolocationAvailable) ==>
                gpsStatus == old(gpsStatus) && accuracy == old(accuracy)
    {
      if gpsStatus == Lost && geolocationAvailable {
        if outcome.Some? {
          accuracy := outcome;
          gpsStatus := if outcome.value <= 10.0 then Accurate else Searching;
        } else {
          gpsStatus := Lost;
        }
      }
    }

    /** The dismiss control is offered for every status but 'lost'. */
    function DismissOffered(): (r: bool)
      reads this
      ensures r <==> gpsStatus != Lost
      ensures r ==> gpsStatus == Accurate || gpsStatus == Searching || gpsStatus == Poor
    {
      gpsStatus != Lost
    }

    /** handleDismiss: hidden until the 5 s timer fires. */
    method Dismiss()
      modifies this`isVisible, this`reappearPending
      ensures !isVisible && reappearPending
    {
      isVisible := false;
      reappearPending := true;
    }

    method ReappearTimerFires()
      modifies this`isVisible, this`reappearPending
      ensures old(reappearPending) ==> isVisible && !reappearPending
      ensures !old(reappearPending) ==> isVisible == old(isVisible) && reappearPending == old(reappearPending)
    {
      if reappearPending {
        isVisible := true;
        reappearPending := false;
      }
    }
  }

  /** From 'lost', a click that re-acquires any fix leaves 'lost' and offers the dismiss control again. */
  method ClickRecovers(ind: Indicator, acc: real)
    requires ind.gpsStatus == Lost
    modifies ind
    ensures ind.gpsStatus != Lost && ind.DismissOffered() && ind.accuracy == Some(acc)
  {
    ind.Click(true, Some(acc));
  }
}
