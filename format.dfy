/**
 * The distance and time labels the panels display, as structured values with their
 * rendered text. `Math.round` and `toFixed(1)` are both modelled by JsMath.Round.
 */
module Format {
  import opened Wrappers
  import opened JsMath

  function DigitChar(d: nat): (c: char)
    requires d < 10
    ensures '0' <= c <= '9'
    ensures c as int - '0' as int == d
  {
    "0123456789"[d]
  }

  /** Decimal digits of a natural number, most significant first, without leading zeros. */
  function NatText(n: nat): (s: string)
    ensures |s| >= 1 && forall i :: 0 <= i < |s| ==> '0' <= s[i] <= '9'
    ensures n < 10 <==> |s| == 1
    ensures s[0] == '0' ==> n == 0
  {
    if n < 10 then [DigitChar(n)] else NatText(n / 10) + [DigitChar(n % 10)]
  }

  /** The number a string of decimal digits denotes, read most significant digit first. */
  function DigitsValue(s: string): nat
    requires forall i :: 0 <= i < |s| ==> '0' <= s[i] <= '9'
  {
    if s == [] then 0
    else DigitsValue(s[..|s| - 1]) * 10 + (s[|s| - 1] as int - '0' as int)
  }

  /** Reading back the printed digits gives the number. */
  lemma {:induction false} NatTextValue(n: nat)
    ensures DigitsValue(NatText(n)) == n
  {
    var s := NatText(n);
    if n >= 10 {
      NatTextValue(n / 10);
      assert s[..|s| - 1] == NatText(n / 10);
    }
  }

  /** How JavaScript prints an integer-valued number. */
  function IntText(i: int): string {
    if i < 0 then "-" + NatText(-i) else NatText(i)
  }

  /** A distance label: '--', whole metres, or kilometres to one decimal (counted in tenths). */
  datatype DistanceLabel = NoDistance | Metres(m: int) | Kilometres(tenths: int) {
    function Text(): string {
      match this
      case NoDistance => "--"
      case Metres(m) => IntText(m) + "m"
      case Kilometres(t) => IntText(t / 10) + "." + IntText(t % 10) + "km"
    }
  }

  /** A time label: '--', whole seconds, whole minutes with a unit, or minutes and seconds. */
  datatype TimeLabel = NoTime | Seconds(s: int) | Minutes(m: int, unit: string) | MinutesSeconds(m: int, s: int) {
    function Text(): string {
      match this
      case NoTime => "--"
      case Seconds(s) => IntText(s) + "s"
      case Minutes(m, unit) => IntText(m) + unit
      case MinutesSeconds(m, s) => IntText(m) + "m " + IntText(s) + "s"
    }
  }

  /**
   * The metric rule every panel uses: below 1000 m, rounded metres; from 1000 m on,
   * kilometres to one decimal. The label is within half a unit of the exact distance.
   */
  function Metric(d: real): (l: DistanceLabel)
    ensures d < 1000.0 ==> l.Metres? && l.m as real - 0.5 <= d < l.m as real + 0.5
    ensures d >= 1000.0 ==>
              l.Kilometres? && l.tenths >= 10 &&
              l.tenths as real * 100.0 - 50.0 <= d < l.tenths as real * 100.0 + 50.0
  {
    if d < 1000.0 then Metres(Round(d)) else Kilometres(Round(d / 100.0))
  }

  /**
   * formatDistance with the falsy guard: a missing or zero distance reads '--', any
   * other distance the metric label.
   */
  function DashOrMetric(d: Option<real>): (l: DistanceLabel)
    ensures l.NoDistance? <==> !Truthy(d)
    ensures Truthy(d) && d.value < 1000.0 ==> l.Metres? && l.m as real - 0.5 <= d.value < l.m as real + 0.5
    ensures Truthy(d) && d.value >= 1000.0 ==>
              l.Kilometres? && l.tenths as real * 100.0 - 50.0 <= d.value < l.tenths as real * 100.0 + 50.0
  {
    if !Truthy(d) then NoDistance else Metric(d.value)
  }

  /**
   * formatTime with the falsy guard: '--' for a missing or zero time, whole seconds below
   * a minute, otherwise whole minutes followed by `unit`. Each reading is within half a
   * unit of the exact time.
   */
  function DashOrTime(t: Option<real>, unit: string): (l: TimeLabel)
    ensures l.NoTime? <==> !Truthy(t)
    ensures Truthy(t) && t.value < 60.0 ==> l.Seconds? && l.s as real - 0.5 <= t.value < l.s as real + 0.5
    ensures Truthy(t) && t.value >= 60.0 ==>
              l.Minutes? && l.unit == unit && l.m >= 1 &&
              l.m as real * 60.0 - 30.0 <= t.value < l.m as real * 60.0 + 30.0
  {
    if !Truthy(t) then NoTime
    else if t.value < 60.0 then Seconds(Round(t.value))
    else Minutes(Round(t.value / 60.0), unit)
  }
}
