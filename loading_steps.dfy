/**
 * The step list of the loading page: each step is active, completed or pending by
 * comparing its index with the current step, and its icon follows from that.
 */
module LoadingSteps {

  datatype StepState = Active | Completed | Pending

  /** The three comparisons the list makes for step `index`; exactly one of them holds. */
  function StateOf(index: int, current: int): (s: StepState)
    ensures s == Active <==> index == current
    ensures s == Completed <==> index < current
    ensures s == Pending <==> index > current
  {
    if index == current then Active else if index < current then Completed else Pending
  }

  /** The states of a list of `n` steps. */
  function States(n: nat, current: int): (states: seq<StepState>)
    ensures |states| == n
    ensures forall i :: 0 <= i < n ==> states[i] == StateOf(i, current)
  {
    seq(n, i requires 0 <= i < n => StateOf(i, current))
  }

  /** At most one step is active, and exactly one when the current step is in the list. */
  lemma OneActive(n: nat, current: int)
    ensures forall i, j :: 0 <= i < j < n ==> !(States(n, current)[i] == Active && States(n, current)[j] == Active)
    ensures 0 <= current < n ==> States(n, current)[current] == Active
    ensures !(0 <= current < n) ==> forall i :: 0 <= i < n ==> States(n, current)[i] != Active
  {
  }

  /** Completed steps come first: a completed step has only completed steps before it. */
  lemma CompletedArePrefix(n: nat, current: int, i: int, j: int)
    requires 0 <= i <= j < n && States(n, current)[j] == Completed
    ensures States(n, current)[i] == Completed
  {
  }

  /** The icon of a step: a check when done, the spinner while active, its own icon otherwise. */
  datatype StepIcon = Check | Spinner | Own(name: string)

  function IconOf(state: StepState, own: string): (icon: StepIcon)
    ensures icon == Check <==> state == Completed
    ensures icon == Spinner <==> state == Active
    ensures icon == Own(own) <==> state == Pending
  {
    match state
    case Completed => Check
    case Active => Spinner
    case Pending => Own(own)
  }
}
