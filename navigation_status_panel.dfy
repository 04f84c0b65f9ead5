/**
 * The shared navigation status panel: progress against a fixed route length of 1000 m,
 * the '--'-guarded distance and time labels, and the expand toggle that reports its new
 * value to the page.
 */
module NavigationStatusPanel {
  import opened Wrappers
  import opened JsMath
  import opened Format
  import NavigationPanel

  /** The route length the progress is measured against, in metres. */
  const TotalDistance: real := 1000.0

  /** The progress for a remaining distance: within [0, 100], and 0 from 1000 m on. */
  function Progress(d: real): (r: real)
    ensures 0.0 <= r <= 100.0
    ensures d >= TotalDistance ==> r == 0.0
    ensures 0.0 <= d <= TotalDistance ==> r == (TotalDistance - d) / 10.0
  {
    NavigationPanel.ProgressPercent(TotalDistance, d)
  }

  /** The status panel's time label: whole minutes are followed by "min", without a space. */
  function FormatTime(t: Option<real>): (l: TimeLabel)
    ensures Truthy(t) && t.value >= 60.0 ==> l.Minutes? && l.Text() == IntText(l.m) + "min"
    ensures !Truthy(t) ==> l.Text() == "--"
  {
    DashOrTime(t, "min")
  }

  class Panel {
    var isExpanded: bool
    var progress: real

    ghost predicate Valid()
      reads this
    {
      0.0 <= progress <= 100.0
    }

    constructor()
      ensures Valid() && isExpanded && progress == 0.0
    {
      isExpanded := true;
      progress := 0.0;
    }

    /** The progress effect: recomputed only while navigating with a truthy distance. */
    method ProgressEffect(isNavigating: bool, distance: Option<real>)
      requires Valid()
      modifies this`progress
      ensures Valid()
      ensures isNavigating && Truthy(distance) ==> progress == Progress(distance.value)
      ensures !(isNavigating && Truthy(distance)) ==> progress == old(progress)
    {
      if isNavigating && Truthy(distance) {
        progress := Progress(distance.value);
      }
    }

    /** togglePanel: flips the panel and hands the page the new value. */
    method Toggle() returns (reported: bool)
      modifies this`isExpanded
      ensures isExpanded == !old(isExpanded) && reported == isExpanded
    {
      reported := !isExpanded;
      isExpanded := !isExpanded;
    }
  }
}
