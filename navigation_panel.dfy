/**
 * The bottom panel of the active-navigation page: the progress toward the destination as a
 * clamped percentage, the distance and time labels, and the icon chosen for the current
 * instruction from the words it contains.
 */
module NavigationPanel {
  import opened Wrappers
  import opened JsMath
  import opened JsString
  import opened Format

  /**
   * The share of the route already walked, in percent, clamped to [0, 100]. Inside the
   * route (0 <= d <= total) the clamp does nothing; beyond either end it pins the bar.
   */
  function ProgressPercent(total: real, d: real): (r: real)
    requires total != 0.0
    ensures 0.0 <= r <= 100.0
    ensures total > 0.0 && 0.0 <= d <= total ==> r * total == (total - d) * 100.0
    ensures total > 0.0 && d >= total ==> r == 0.0
    ensures total > 0.0 && d <= 0.0 ==> r == 100.0
  {
    assert total > 0.0 && d <= 0.0 ==> (total - d) / total >= 1.0;
    Max(0.0, Min(100.0, ((total - d) / total) * 100.0))
  }

  /** The nearer the destination, the fuller the bar. */
  lemma ProgressAntitone(total: real, d1: real, d2: real)
    requires total > 0.0 && d1 <= d2
    ensures ProgressPercent(total, d2) <= ProgressPercent(total, d1)
  {
    assert (total - d1) / total - (total - d2) / total == (d2 - d1) / total;
  }

  // ---------------------------------------------------------------------------
  // The time label.

  /**
   * formatTime as written: under a minute, rounded seconds; otherwise whole minutes
   * (`Math.floor(t / 60)`) and the remainder rounded on its own, which can round up to 60.
   */
  function FormatTimeAsWritten(t: real): (l: TimeLabel)
    ensures t < 60.0 ==> l == Seconds(Round(t))
    ensures t >= 60.0 ==> (l.Minutes? && l.unit == "m") || l.MinutesSeconds?
    ensures l.MinutesSeconds? ==> 0 < l.s <= 60
  {
    if t < 60.0 then Seconds(Round(t))
    else
      var minutes := (t / 60.0).Floor;
      var seconds := Round(t - 60.0 * minutes as real);
      if seconds > 0 then MinutesSeconds(minutes, seconds) else Minutes(minutes, "m")
  }

  /** The as-written label reads "1m 60s" for 119.6 s and "60s" for 59.7 s. */
  lemma FormatTimeAsWrittenShowsSixty()
    ensures FormatTimeAsWritten(119.6) == MinutesSeconds(1, 60)
    ensures FormatTimeAsWritten(59.7) == Seconds(60)
  {
    assert (119.6 / 60.0).Floor == 1;
    assert Round(119.6 - 60.0) == 60;
  }

  /**
   * formatTime as intended: the time rounded to whole seconds once, then split into
   * minutes and a seconds part that is always below 60 (and omitted when 0).
   */
  function FormatTime(t: real): (l: TimeLabel)
    ensures l.Seconds? ==> l.s == Round(t) && l.s < 60
    ensures l.MinutesSeconds? ==> 0 < l.s < 60 && 60 * l.m + l.s == Round(t)
    ensures l.Minutes? ==> l.unit == "m" && 60 * l.m == Round(t)
    ensures l.Seconds? || l.MinutesSeconds? || l.Minutes?
    ensures Round(t) < 60 <==> l.Seconds?
    ensures l.Minutes? || l.MinutesSeconds? ==> l.m >= 1
  {
    var total := Round(t);
    if total < 60 then Seconds(total)
    else
      var minutes := total / 60;
      var seconds := total % 60;
      if seconds > 0 then MinutesSeconds(minutes, seconds) else Minutes(minutes, "m")
  }

  /**
   * The two versions print the same label unless the written one's remainder rounds up to
   * a full minute: below 59.5 s, and from one minute on whenever the remainder is below 59.5.
   */
  lemma FormatTimeAgreesBelowSixty(t: real)
    requires t < 59.5 || (t >= 60.0 && t - 60.0 * (t / 60.0).Floor as real < 59.5)
    ensures FormatTimeAsWritten(t) == FormatTime(t)
  {
    if t >= 60.0 {
      var m := (t / 60.0).Floor;
      var rest := t - 60.0 * m as real;
      assert 0.0 <= rest < 60.0;
      var s := Round(rest);
      assert 0 <= s < 60;
      assert Round(t) == 60 * m + s by {
        assert t + 0.5 == (60 * m) as real + (rest + 0.5);
      }
      assert (60 * m + s) / 60 == m && (60 * m + s) % 60 == s;
    }
  }

  // ---------------------------------------------------------------------------
  // The step icon.

  datatype Icon = ArrowLeft | ArrowRight | ArrowUp | MapPin

  /**
   * getStepIcon: the first of 'left', 'right', 'straight', 'arrive' that the instruction
   * contains (case-sensitive) picks the icon; a missing instruction or none of the words
   * gives the up arrow.
   */
  function StepIcon(instruction: Option<string>): (r: Icon)
    ensures r == ArrowLeft <==> instruction.Some? && Includes(instruction.value, "left")
    ensures r == ArrowRight <==>
              instruction.Some? && !Includes(instruction.value, "left") && Includes(instruction.value, "right")
    ensures r == MapPin <==>
              instruction.Some? && !Includes(instruction.value, "left") && !Includes(instruction.value, "right") &&
              !Includes(instruction.value, "straight") && Includes(instruction.value, "arrive")
  {
    if instruction.None? then ArrowUp
    else if Includes(instruction.value, "left") then ArrowLeft
    else if Includes(instruction.value, "right") then ArrowRight
    else if Includes(instruction.value, "straight") then ArrowUp
    else if Includes(instruction.value, "arrive") then MapPin
    else ArrowUp
  }

  // ---------------------------------------------------------------------------
  // State.

  class Panel {
    var progress: real
    var isExpanded: bool

    /** The bar never leaves [0, 100]. */
    ghost predicate Valid()
      reads this
    {
      0.0 <= progress <= 100.0
    }

    constructor()
      ensures Valid() && progress == 0.0 && isExpanded
    {
      progress := 0.0;
      isExpanded := true;
    }

    /**
     * The progress effect: recomputed only when the distance and the destination's total
     * distance are both truthy; otherwise the bar keeps its value.
     */
    method ProgressEffect(distance: real, totalDistance: Option<real>)
      requires Valid()
      modifies this`progress
      ensures Valid()
      ensures distance != 0.0 && Truthy(totalDistance) ==> progress == ProgressPercent(totalDistance.value, distance)
      ensures !(distance != 0.0 && Truthy(totalDistance)) ==> progress == old(progress)
    {
      if distance != 0.0 && Truthy(totalDistance) {
        progress := ProgressPercent(totalDistance.value, distance);
      }
    }

    method Toggle()
      modifies this`isExpanded
      ensures isExpanded == !old(isExpanded)
    {
      isExpanded := !isExpanded;
    }
  }
}
