/**
 * The location permission page: an initial check of the browser's permission state, a
 * request that turns the sensor's answer into a status, a retry, the redirect to the map
 * once access is granted, and which panels each status shows.
 */
module LocationPermissionSetup {
  import opened Wrappers
  import opened Geolocation

  datatype PermissionStatus = Prompt | Granted | Denied | Blocked | Unavailable

  /** The states the browser's permission query reports. */
  datatype QueryState = QueryGranted | QueryDenied | QueryPrompt

  /** How a position request ends: with a position, or with an error code. */
  datatype RequestOutcome = Position | Failure(code: ErrorCode)

  /** The query's state, copied into the page's status. */
  function FromQuery(q: QueryState): (s: PermissionStatus)
    ensures s == Granted <==> q == QueryGranted
    ensures s == Denied <==> q == QueryDenied
    ensures s == Prompt <==> q == QueryPrompt
  {
    match q
    case QueryGranted => Granted
    case QueryDenied => Denied
    case QueryPrompt => Prompt
  }

  /**
   * The error mapping of a failed request: only an unavailable position reads
   * 'unavailable'; a denial, a timeout and any other code read 'denied'.
   */
  function ErrorStatus(code: ErrorCode): (s: PermissionStatus)
    ensures s == Unavailable <==> code == PositionUnavailable
    ensures s != Unavailable ==> s == Denied
  {
    match code
    case PermissionDenied => Denied
    case PositionUnavailable => Unavailable
    case Timeout => Denied
    case UnknownCode => Denied
  }

  /** The status card shows for the three failure statuses. */
  predicate StatusPanelShown(s: PermissionStatus) {
    s == Denied || s == Blocked || s == Unavailable
  }

  /** The success notice shows once access is granted. */
  predicate SuccessShown(s: PermissionStatus) {
    s == Granted
  }

  /** The benefits, the action buttons and the privacy link show only while the user is still to be asked. */
  predicate PromptPanelsShown(s: PermissionStatus) {
    s == Prompt
  }

  /** The troubleshooting guide shows for a denial or a block. */
  predicate TroubleshootingShown(s: PermissionStatus) {
    s == Denied || s == Blocked
  }

  /**
   * Every status shows exactly one of the status card, the success notice and the prompt
   * panels, and the troubleshooting guide only ever accompanies the status card.
   */
  lemma PanelsPartitionStatuses(s: PermissionStatus)
    ensures StatusPanelShown(s) || SuccessShown(s) || PromptPanelsShown(s)
    ensures !(StatusPanelShown(s) && SuccessShown(s)) && !(StatusPanelShown(s) && PromptPanelsShown(s))
    ensures !(SuccessShown(s) && PromptPanelsShown(s))
    ensures TroubleshootingShown(s) ==> StatusPanelShown(s)
    ensures StatusPanelShown(s) && !TroubleshootingShown(s) <==> s == Unavailable
  {
  }

  class Setup {
    var permissionStatus: PermissionStatus
    var isLoading: bool
    var hasCheckedInitialPermission: bool
    /** Whether a position request has been sent and not yet answered. */
    var requestPending: bool
    /** Whether a redirect timer to the campus map is running. */
    var redirectPending: bool
    var route: Option<Route>

    /**
     * The spinner is on exactly while a request is out, and no path of the page ever
     * sets 'blocked'.
     */
    ghost predicate Valid()
      reads this
    {
      isLoading == requestPending && permissionStatus != Blocked
    }

    constructor()
      ensures Valid() && permissionStatus == Prompt && !isLoading && !hasCheckedInitialPermission
      ensures !requestPending && !redirectPending && route == None
    {
      permissionStatus := Prompt;
      isLoading := false;
      hasCheckedInitialPermission := false;
      requestPending := false;
      redirectPending := false;
      route := None;
    }

    /**
     * checkPermissionStatus: 'unavailable' without a sensor; otherwise the query's state,
     * or 'prompt' when the query fails (`None`). A granted state starts the redirect. The
     * check is always recorded as done.
     */
    method CheckPermission(geolocationAvailable: bool, query: Option<QueryState>)
      requires Valid()
      modifies this`permissionStatus, this`hasCheckedInitialPermission, this`redirectPending
      ensures Valid() && hasCheckedInitialPermission
      ensures !geolocationAvailable ==> permissionStatus == Unavailable && redirectPending == old(redirectPending)
      ensures geolocationAvailable && query.Some? ==> permissionStatus == FromQuery(query.value)
      ensures geolocationAvailable && query.None? ==> permissionStatus == Prompt
      ensures geolocationAvailable && query == Some(QueryGranted) ==> redirectPending
      ensures !(geolocationAvailable && query == Some(QueryGranted)) ==> redirectPending == old(redirectPending)
    {
      if !geolocationAvailable {
        permissionStatus := Unavailable;
        hasCheckedInitialPermission := true;
        return;
      }
      if query.Some? {
        permissionStatus := FromQuery(query.value);
        hasCheckedInitialPermission := true;
        if query.value == QueryGranted {
          redirectPending := true;
        }
      } else {
        permissionStatus := Prompt;
        hasCheckedInitialPermission := true;
      }
    }

    /**
     * requestLocationPermission, first half: without a sensor the status becomes
     * 'unavailable' at once; otherwise the spinner starts and the request goes out.
     */
    method Request(geolocationAvailable: bool)
      requires Valid() && !requestPending
      modifies this`permissionStatus, this`isLoading, this`requestPending
      ensures Valid()
      ensures !geolocationAvailable ==> permissionStatus == Unavailable && !isLoading && !requestPending
      ensures geolocationAvailable ==> isLoading && requestPending && permissionStatus == old(permissionStatus)
    {
      if !geolocationAvailable {
        permissionStatus := Unavailable;
        return;
      }
      isLoading := true;
      requestPending := true;
    }

    /**
     * requestLocationPermission, second half: the answer arrives. A position grants access
     * and starts the redirect; an error is mapped to a status. The spinner stops either way.
     */
    method RequestSettles(outcome: RequestOutcome)
      requires Valid() && requestPending
      modifies this`permissionStatus, this`isLoading, this`requestPending, this`redirectPending
      ensures Valid() && !isLoading && !requestPending
      ensures outcome.Position? ==> permissionStatus == Granted && redirectPending
      ensures outcome.Failure? ==> permissionStatus == ErrorStatus(outcome.code) && redirectPending == old(redirectPending)
    {
      match outcome {
        case Position =>
          permissionStatus := Granted;
          redirectPending := true;
        case Failure(code) =>
          permissionStatus := ErrorStatus(code);
      }
      isLoading := false;
      requestPending := false;
    }

    /** handleRetryPermission: back to 'prompt', then a new request. */
    method Retry(geolocationAvailable: bool)
      requires Valid() && !requestPending
      modifies this`permissionStatus, this`isLoading, this`requestPending
      ensures Valid()
      ensures geolocationAvailable ==> permissionStatus == Prompt && isLoading && requestPending
      ensures !geolocationAvailable ==> permissionStatus == Unavailable && !isLoading
    {
      permissionStatus := Prompt;
      Request(geolocationAvailable);
    }

    /** The redirect timer fires: on to the campus map. */
    method RedirectTimerFires()
      modifies this`redirectPending, this`route
      ensures old(redirectPending) ==> route == Some(CampusMapNavigation) && !redirectPending
      ensures !old(redirectPending) ==> route == old(route) && !redirectPending
    {
      if redirectPending {
        route := Some(CampusMapNavigation);
        redirectPending := false;
      }
    }
  }

  /**
   * A full request from the prompt: whatever the sensor answers, the spinner is off
   * afterwards and the page shows exactly one of its main panels, never the prompt ones.
   */
  method RequestRoundTrip(page: Setup, outcome: RequestOutcome)
    requires page.Valid() && !page.requestPending
    modifies page
    ensures page.Valid() && !page.isLoading
    ensures StatusPanelShown(page.permissionStatus) || SuccessShown(page.permissionStatus)
    ensures !PromptPanelsShown(page.permissionStatus)
  {
    page.Request(true);
    page.RequestSettles(outcome);
  }
}
