/** The declared task state machine (app/domain/tasks.py). */
module TaskStates {

  datatype TaskState =
    | Received
    | WaitingHuman
    | ForwardingLlm
    | ResponseReady
    | Responding
    | Completed
    | Failed
    | TimedOut
    | Cancelled

  predicate Terminal(s: TaskState) {
    s in {Completed, Failed, TimedOut, Cancelled}
  }

  predicate HoldsSlot(s: TaskState) {
    s in {Received, WaitingHuman, ForwardingLlm, ResponseReady, Responding}
  }

  function AllowedTargets(s: TaskState): set<TaskState> {
    match s
    case Received => {WaitingHuman, ForwardingLlm, Failed, Cancelled}
    case WaitingHuman => {ResponseReady, ForwardingLlm, TimedOut, Failed, Cancelled}
    case ForwardingLlm => {ResponseReady, Responding, Failed, Cancelled}
    case ResponseReady => {Responding, Failed, Cancelled}
    case Responding => {Completed, Failed, Cancelled}
    case _ => {}
  }

  predicate CanTransition(from: TaskState, to: TaskState) {
    !Terminal(from) && to in AllowedTargets(from)
  }
}
