/** The run life cycle and its transition table. */
module RunState {
  datatype RunStatus = Running | WaitingApproval | Interrupted | Completed | Failed | Cancelled

  /** The statuses from which `transition_run` may reach `target`. */
  function SourcesFor(target: RunStatus): set<RunStatus> {
    match target
    case Running => {Interrupted, WaitingApproval}
    case WaitingApproval => {Running, Interrupted}
    case Interrupted => {Running}
    case Failed => {Running, WaitingApproval, Interrupted}
    case Cancelled => {Running, WaitingApproval, Interrupted}
    case Completed => {}
  }

  predicate Terminal(status: RunStatus) {
    status in {Completed, Failed, Cancelled}
  }

  /** The table never leaves a terminal status, and never enters `Completed`. */
  lemma TransitionTableIsSafe(source: RunStatus, target: RunStatus)
    requires source in SourcesFor(target)
    ensures !Terminal(source) && target != Completed
  {
  }
}
