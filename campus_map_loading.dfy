/**
 * The loading page: a four-step start-up (fetch the map, check for a location sensor,
 * start tracking, done) that reports a step and a progress percentage at each stage,
 * stops with a typed error when the map or the sensor is missing, and redirects to the
 * map when it completes. The fetch and the sensor check are parameters.
 */
module CampusMapLoading {
  import opened Wrappers
  import opened Geolocation
  import LoadingSteps

  datatype ErrorType = SvgLoad | Gps | Network

  /** A step of the start-up as the page lists it. */
  datatype StepData = StepData(id: string, title: string, icon: string)

  const Steps: seq<StepData> := [
    StepData("map", "Loading campus map...", "Map"),
    StepData("location", "Requesting location access...", "MapPin"),
    StepData("gps", "Initializing GPS tracking...", "Navigation"),
    StepData("complete", "Ready to navigate!", "CheckCircle")
  ]

  /** A (step, progress) pair the page reports. */
  datatype Stage = Stage(step: int, progress: int)

  /** The step shown for an index: the index's own step, or the first one when it is out of range. */
  function CurrentStepData(step: int): (r: StepData)
    ensures 0 <= step < |Steps| ==> r == Steps[step]
    ensures !(0 <= step < |Steps|) ==> r == Steps[0]
  {
    if 0 <= step < |Steps| then Steps[step] else Steps[0]
  }

  /** The stages a run reports, for a map fetch that succeeds or not and a sensor that is present or not. */
  function RunStages(mapOk: bool, geolocationAvailable: bool): seq<Stage> {
    if !mapOk then [Stage(0, 10)]
    else if !geolocationAvailable then [Stage(0, 10), Stage(0, 40), Stage(1, 60)]
    else [Stage(0, 10), Stage(0, 40), Stage(1, 60), Stage(2, 80), Stage(3, 100)]
  }

  /** The error a run ends with: the map first, then the sensor. */
  function RunError(mapOk: bool, geolocationAvailable: bool): (e: Option<ErrorType>)
    ensures e == Some(SvgLoad) <==> !mapOk
    ensures e == Some(Gps) <==> mapOk && !geolocationAvailable
    ensures e == None <==> mapOk && geolocationAvailable
  {
    if !mapOk then Some(SvgLoad) else if !geolocationAvailable then Some(Gps) else None
  }

  /** Progress never goes back, and the step never goes back either. */
  predicate Ascending(stages: seq<Stage>) {
    forall i, j :: 0 <= i < j < |stages| ==> stages[i].progress <= stages[j].progress && stages[i].step <= stages[j].step
  }

  /**
   * Every run reports ascending stages; a run that fails stops at the step where it
   * failed (0 for the map, 1 for the sensor), and only a complete run reaches 100.
   */
  lemma RunsAscend(mapOk: bool, geolocationAvailable: bool)
    ensures Ascending(RunStages(mapOk, geolocationAvailable))
    ensures RunError(mapOk, geolocationAvailable) == Some(SvgLoad) ==> RunStages(mapOk, geolocationAvailable)[|RunStages(mapOk, geolocationAvailable)| - 1].step == 0
    ensures RunError(mapOk, geolocationAvailable) == Some(Gps) ==> RunStages(mapOk, geolocationAvailable)[|RunStages(mapOk, geolocationAvailable)| - 1].step == 1
    ensures RunStages(mapOk, geolocationAvailable)[|RunStages(mapOk, geolocationAvailable)| - 1].progress == 100 <==>
              RunError(mapOk, geolocationAvailable) == None
  {
  }

  class Loader {
    var currentStep: int
    var progress: int
    var error: Option<ErrorType>
    var isLoading: bool
    /** The stages reported so far, oldest first. */
    var reported: seq<Stage>
    /** Whether the 0.5 s redirect timer is still to fire. */
    var redirectPending: bool
    var route: Option<Route>

    constructor()
      ensures currentStep == 0 && progress == 0 && error == None && isLoading
      ensures reported == [] && !redirectPending && route == None
    {
      currentStep := 0;
      progress := 0;
      error := None;
      isLoading := true;
      reported := [];
      redirectPending := false;
      route := None;
    }

    /** One stage: the step and the progress are set together and reported. */
    method Report(step: int, percent: int)
      modifies this`currentStep, this`progress, this`reported
      ensures currentStep == step && progress == percent && reported == old(reported) + [Stage(step, percent)]
    {
      currentStep := step;
      progress := percent;
      reported := reported + [Stage(step, percent)];
    }

    /**
     * simulateLoading: the stages of the run in order; a failed map fetch (a response that
     * is not ok, or a fetch that throws) stops with 'svg_load', a missing sensor with 'gps';
     * a complete run ends loading and starts the redirect.
     */
    method Run(mapOk: bool, geolocationAvailable: bool)
      modifies this`currentStep, this`progress, this`reported, this`error, this`isLoading, this`redirectPending
      ensures reported == old(reported) + RunStages(mapOk, geolocationAvailable)
      ensures currentStep == RunStages(mapOk, geolocationAvailable)[|RunStages(mapOk, geolocationAvailable)| - 1].step
      ensures progress == RunStages(mapOk, geolocationAvailable)[|RunStages(mapOk, geolocationAvailable)| - 1].progress
      ensures RunError(mapOk, geolocationAvailable).Some? ==>
                error == RunError(mapOk, geolocationAvailable) && isLoading == old(isLoading) &&
                redirectPending == old(redirectPending)
      ensures RunError(mapOk, geolocationAvailable).None? ==> error == old(error) && !isLoading && redirectPending
    {
      Report(0, 10);
      if !mapOk {
        error := Some(SvgLoad);
        return;
      }
      Report(0, 40);
      Report(1, 60);
      if !geolocationAvailable {
        error := Some(Gps);
        return;
      }
      Report(2, 80);
      Report(3, 100);
      isLoading := false;
      redirectPending := true;
    }

    /** The outer handler: any exception outside the map fetch reports a network error. */
    method UnexpectedFailure()
      modifies this`error
      ensures error == Some(Network)
    {
      error := Some(Network);
    }

    /** handleRetry: the error is cleared and the page is back at step 0, progress 0, loading. */
    method Retry()
      modifies this`error, this`currentStep, this`progress, this`isLoading
      ensures error == None && currentStep == 0 && progress == 0 && isLoading
    {
      error := None;
      currentStep := 0;
      progress := 0;
      isLoading := true;
    }

    method RedirectTimerFires()
      modifies this`redirectPending, this`route
      ensures old(redirectPending) ==> route == Some(CampusMapNavigation) && !redirectPending
      ensures !old(redirectPending) ==> route == old(route) && redirectPending == old(redirectPending)
    {
      if redirectPending {
        route := Some(CampusMapNavigation);
        redirectPending := false;
      }
    }
  }

  /**
   * A run from a fresh page that loses the sensor: step 0 is shown completed and step 1
   * active in the step list, and the error is 'gps'.
   */
  method RunWithoutSensor() returns (loader: Loader)
    ensures loader.error == Some(Gps) && loader.currentStep == 1 && loader.progress == 60
    ensures LoadingSteps.States(|Steps|, loader.currentStep) ==
              [LoadingSteps.Completed, LoadingSteps.Active, LoadingSteps.Pending, LoadingSteps.Pending]
  {
    loader := new Loader();
    loader.Run(true, false);
  }
}
