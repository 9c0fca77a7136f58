/** The recovery workflow table (app/orchestrator/state_machine.py). */
module StateMachine {
  import opened RecoveryTypes

  function ValidTransitions(current: RecoveryState): set<RecoveryState> {
    match current
    case Failed => {RecoveryState.Classified, RecoveryState.Stopped}
    case Classified => {RecoveryState.RecoveryPlanned, RecoveryState.Stopped, RecoveryState.Escalated}
    case RecoveryPlanned => {RecoveryState.GuardPending, RecoveryState.Stopped}
    case GuardPending => {RecoveryState.Approved, RecoveryState.Stopped, RecoveryState.Escalated}
    case Approved => {RecoveryState.Executing, RecoveryState.Stopped, RecoveryState.Escalated}
    case Executing =>
      {RecoveryState.RecoverySucceeded, RecoveryState.RecoveryFailed, RecoveryState.Escalated, RecoveryState.Stopped}
    case RecoveryFailed =>
      {RecoveryState.Executing, RecoveryState.Approved, RecoveryState.Classified, RecoveryState.Stopped,
       RecoveryState.Escalated}
    case RecoverySucceeded => {}
    case Stopped => {}
    case Escalated => {}
  }

  predicate CanTransition(current: RecoveryState, target: RecoveryState) {
    target in ValidTransitions(current)
  }

  /** A walk through the table: every consecutive pair is a listed transition. */
  ghost predicate IsPath(path: seq<RecoveryState>) {
    |path| > 0 && forall i :: 0 <= i < |path| - 1 ==> CanTransition(path[i], path[i + 1])
  }

  /** Terminal states are exactly the states no walk can leave. */
  lemma TerminalIffNoWayOut(path: seq<RecoveryState>)
    requires IsPath(path)
    ensures path[0].IsTerminal() <==> ValidTransitions(path[0]) == {}
    ensures path[0].IsTerminal() ==> path == [path[0]]
  {
    if !path[0].IsTerminal() {
      assert RecoveryState.Stopped in ValidTransitions(path[0]);
    }
    if |path| > 1 {
      assert CanTransition(path[0], path[1]);
    }
  }

  /** From FAILED, no walk reaches EXECUTING without having been APPROVED on the way. */
  lemma {:induction false} ExecutionNeedsApproval(path: seq<RecoveryState>)
    requires IsPath(path) && path[0] == RecoveryState.Failed
    requires path[|path| - 1] == RecoveryState.Executing
    ensures RecoveryState.Approved in path
  {
    if RecoveryState.Approved !in path {
      BeforeApproval(path, |path| - 1);
    }
  }

  predicate Unapproved(s: RecoveryState) {
    s.Failed? || s.Classified? || s.RecoveryPlanned? || s.GuardPending? || s.Stopped? || s.Escalated?
  }

  /** A walk from FAILED that has not met APPROVED is still among the states before approval. */
  lemma {:induction false} BeforeApproval(path: seq<RecoveryState>, i: nat)
    requires IsPath(path) && path[0] == RecoveryState.Failed
    requires i < |path| && RecoveryState.Approved !in path
    ensures Unapproved(path[i])
  {
    if i > 0 {
      BeforeApproval(path, i - 1);
      assert CanTransition(path[i - 1], path[i]);
    }
  }
}
