/**
 * The signal card of the signal-lost page: a colour and a word for the signal strength
 * (cut at 70 and 40), four bars lit from the left by strength / 25, and a retry counter.
 */
module GpsStatusDisplay {

  datatype Colour = Success | Warning | Error
  datatype Strength = Strong | Weak | NoSignal

  /** getSignalStrengthColor. */
  function SignalColour(strength: real): (c: Colour)
    ensures c == Success <==> strength >= 70.0
    ensures c == Error <==> strength < 40.0
  {
    if strength >= 70.0 then Success else if strength >= 40.0 then Warning else Error
  }

  /** getSignalStrengthText. */
  function SignalText(strength: real): (t: Strength)
    ensures t == Strong <==> strength >= 70.0
    ensures t == NoSignal <==> strength < 40.0
  {
    if strength >= 70.0 then Strong else if strength >= 40.0 then Weak else NoSignal
  }

  /** The word and the colour are cut at the same points, so they always agree. */
  lemma TextMatchesColour(strength: real)
    ensures SignalText(strength) == Strong <==> SignalColour(strength) == Success
    ensures SignalText(strength) == Weak <==> SignalColour(strength) == Warning
    ensures SignalText(strength) == NoSignal <==> SignalColour(strength) == Error
  {
  }

  /** Bar `k` (1 to 4) is lit when `k <= strength / 25`. */
  predicate BarLit(k: int, strength: real) {
    k as real <= strength / 25.0
  }

  /** The four bars, left to right. */
  function Bars(strength: real): (bars: seq<bool>)
    ensures |bars| == 4
    ensures forall i :: 0 <= i < 4 ==> (bars[i] <==> BarLit(i + 1, strength))
  {
    seq(4, i requires 0 <= i < 4 => BarLit(i + 1, strength))
  }

  /** How many bars are lit. */
  function LitCount(bars: seq<bool>): nat
    decreases |bars|
  {
    if bars == [] then 0 else (if bars[0] then 1 else 0) + LitCount(bars[1..])
  }

  /** A lit bar has every bar to its left lit: the lit bars are a prefix. */
  lemma LitBarsArePrefix(strength: real, i: int, j: int)
    requires 0 <= i <= j < 4 && Bars(strength)[j]
    ensures Bars(strength)[i]
  {
  }

  /** For a non-negative strength, min(4, floor(strength / 25)) bars are lit. */
  lemma LitCountIsQuarterOfStrength(strength: real)
    requires strength >= 0.0
    ensures LitCount(Bars(strength)) == if (strength / 25.0).Floor >= 4 then 4 else (strength / 25.0).Floor
  {
    var b := Bars(strength);
    var q := (strength / 25.0).Floor;
    assert b[1..][1..][1..][1..] == [];
    assert LitCount(b[3..]) == (if b[3] then 1 else 0);
    assert LitCount(b[2..]) == (if b[2] then 1 else 0) + LitCount(b[3..]);
    assert LitCount(b[1..]) == (if b[1] then 1 else 0) + LitCount(b[2..]);
    assert b[0] <==> q >= 1;
    assert b[1] <==> q >= 2;
    assert b[2] <==> q >= 3;
    assert b[3] <==> q >= 4;
  }

  /** Bar `k` is `8 + 4k` pixels tall, so the bars rise from left to right. */
  function BarHeight(k: int): (h: int)
    requires 1 <= k <= 4
    ensures 12 <= h <= 24
  {
    8 + k * 4
  }

  /** Each bar is taller than the one to its left. */
  lemma BarsRise(j: int, k: int)
    requires 1 <= j < k <= 4
    ensures BarHeight(j) + 4 <= BarHeight(k)
  {
  }

  class Display {
    var isRetrying: bool
    var retryCount: nat
    /** Whether the 2 s timer that ends the retry spinner is still to fire. */
    var spinnerTimerPending: bool

    constructor()
      ensures !isRetrying && retryCount == 0 && !spinnerTimerPending
    {
      isRetrying := false;
      retryCount := 0;
      spinnerTimerPending := false;
    }

    /**
     * handleRetry: the spinner starts and the counter goes up; whatever the retry's
     * outcome, the timer that stops the spinner is started.
     */
    method Retry()
      modifies this`isRetrying, this`retryCount, this`spinnerTimerPending
      ensures isRetrying && retryCount == old(retryCount) + 1 && spinnerTimerPending
    {
      isRetrying := true;
      retryCount := retryCount + 1;
      spinnerTimerPending := true;
    }

    method SpinnerTimerFires()
      modifies this`isRetrying, this`spinnerTimerPending
      ensures old(spinnerTimerPending) ==> !isRetrying && !spinnerTimerPending
      ensures !old(spinnerTimerPending) ==> isRetrying == old(isRetrying) && spinnerTimerPending == old(spinnerTimerPending)
    {
      if spinnerTimerPending {
        isRetrying := false;
        spinnerTimerPending := false;
      }
    }

    /** The retry banner shows once any retry has been made. */
    function BannerShown(): (r: bool)
      reads this
      ensures r <==> retryCount > 0
    {
      retryCount > 0
    }
  }

  /** After a retry the banner shows, and it keeps showing after the spinner stops. */
  method RetryShowsBanner(d: Display)
    modifies d
    ensures d.BannerShown() && !d.isRetrying && d.retryCount == old(d.retryCount) + 1
  {
    d.Retry();
    d.SpinnerTimerFires();
  }
}
