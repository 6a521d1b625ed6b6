/** The node state machine: one authority for every change of a node's state. */
module NodeLifecycle {
  import opened Types

  function AllowedTargets(s: NodeState): set<NodeState> {
    match s
    case Unknown => {Healthy, Degraded, NodeFailed, Disabled}
    case Healthy => {Degraded, Disabled}
    case Degraded => {Healthy, NodeFailed, Disabled}
    case NodeFailed => {Healthy, Replacing, Disabled}
    case Replacing => {NodeDeploying, NodeFailed, Disabled}
    case NodeDeploying => {Verifying, Replacing, NodeFailed, Disabled}
    case Verifying => {Healthy, Replacing, NodeFailed, Disabled}
    case Disabled => {Unknown}
  }

  predicate CanTransition(current: NodeState, target: NodeState) {
    target == current || target in AllowedTargets(current)
  }

  /** The row after an ordinary transition, or the refusal. */
  function Moved(n: NodeRow, target: NodeState): Result<NodeRow> {
    if CanTransition(n.state, target) then Success(n.(state := target))
    else Failure
  }

  predicate CanForce(s: NodeState) {
    s != Disabled && !InWorkflow(s)
  }

  /** The row after an explicit force repair enters the workflow. */
  function Forced(n: NodeRow): Result<NodeRow> {
    if CanForce(n.state) then Success(n.(state := Replacing))
    else Failure
  }

  predicate Restorable(s: NodeState) {
    s == Unknown || s == Healthy || s == Degraded || s == NodeFailed
  }

  /** The row after a force repair is undone before the Master switch. */
  function Restored(n: NodeRow, original: NodeState): Result<NodeRow> {
    if !Restorable(original) then Failure
    else if InWorkflow(n.state) then Success(n.(state := original))
    else if n.state == original then Success(n)
    else Failure
  }

  /** A registered node as the service holds it in memory. */
  class Node {
    var row: NodeRow
    var stateChangedAt: nat

    constructor (row: NodeRow, now: nat)
      ensures this.row == row && stateChangedAt == now
    {
      this.row := row;
      stateChangedAt := now;
    }

    /** Moves along the ordinary graph; re-applying the current state does not move the timestamp. */
    method Transition(target: NodeState, now: nat) returns (r: Result<bool>)
      modifies this
      ensures r.Success? <==> Moved(old(row), target).Success?
      ensures r.Success? ==> row == Moved(old(row), target).value && r.value == (target != old(row.state))
      ensures r.Failure? ==> row == old(row)
      ensures stateChangedAt == if r.Success? && r.value then now else old(stateChangedAt)
    {
      if target == row.state {
        return Success(false);
      }
      if target !in AllowedTargets(row.state) {
        return Failure;
      }
      row := row.(state := target);
      stateChangedAt := now;
      return Success(true);
    }

    /** Enters replacement from an operational state on an operator's explicit request. */
    method TransitionForcedReplacement(now: nat) returns (r: Result<bool>)
      modifies this
      ensures r.Success? <==> Forced(old(row)).Success?
      ensures r.Success? ==> row == Forced(old(row)).value && r.value && stateChangedAt == now
      ensures r.Failure? ==> row == old(row) && stateChangedAt == old(stateChangedAt)
    {
      if row.state == Disabled {
        return Failure;
      }
      if row.state in {Replacing, NodeDeploying, Verifying} {
        return Failure;
      }
      row := row.(state := Replacing);
      stateChangedAt := now;
      return Success(true);
    }

    /** Puts a node back to the state it had before a force repair. */
    method RestoreAfterForcedReplacement(original: NodeState, now: nat) returns (r: Result<bool>)
      modifies this
      ensures r.Success? <==> Restored(old(row), original).Success?
      ensures r.Success? ==> row == Restored(old(row), original).value && r.value == InWorkflow(old(row.state))
      ensures r.Failure? ==> row == old(row)
      ensures stateChangedAt == if r.Success? && r.value then now else old(stateChangedAt)
    {
      if original !in {Unknown, Healthy, Degraded, NodeFailed} {
        return Failure;
      }
      if row.state !in {Replacing, NodeDeploying, Verifying} {
        if row.state == original {
          return Success(false);
        }
        return Failure;
      }
      row := row.(state := original);
      stateChangedAt := now;
      return Success(true);
    }
  }

  /** Ordinary transitions reach a workflow state only from a failed node or from the workflow itself. */
  lemma OnlyFailureOpensTheWorkflow(n: NodeRow, target: NodeState)
    requires Moved(n, target).Success? && !InWorkflow(n.state) && InWorkflow(target)
    ensures n.state == NodeFailed && target == Replacing
  {
    assert target in AllowedTargets(n.state);
  }

  /**
   The shape of the ordinary graph: every node can be disabled, and a disabled one starts over; the
   workflow is entered from FAILED, walked in order and left for HEALTHY only at its end, and every
   node in it can fail.
   */
  lemma LifecycleShape(s: NodeState)
    ensures CanTransition(s, Disabled) && (CanTransition(Disabled, s) <==> s == Disabled || s == Unknown)
    ensures CanTransition(s, Unknown) <==> s == Unknown || s == Disabled
    ensures CanTransition(s, NodeFailed) <==> InWorkflow(s) || s == Unknown || s == Degraded || s == NodeFailed
    ensures CanTransition(s, Degraded) <==> s == Unknown || s == Healthy || s == Degraded
    ensures CanTransition(s, Healthy) <==> s != Replacing && s != NodeDeploying && s != Disabled
    ensures CanTransition(s, Replacing) <==> s == NodeFailed || InWorkflow(s)
    ensures CanTransition(s, NodeDeploying) <==> s == Replacing || s == NodeDeploying
    ensures CanTransition(s, Verifying) <==> s == NodeDeploying || s == Verifying
  {
    match s {
      case Unknown =>
      case Healthy =>
      case Degraded =>
      case NodeFailed =>
      case Replacing =>
      case NodeDeploying =>
      case Verifying =>
      case Disabled =>
    }
  }

  /** Forcing and then restoring is the identity exactly on the rows a force repair accepts. */
  lemma ForceThenRestore(n: NodeRow)
    ensures Forced(n).Success? <==> Restorable(n.state)
    ensures Forced(n).Success? ==> Restored(Forced(n).value, n.state) == Success(n)
  {
    match n.state {
      case Unknown =>
      case Healthy =>
      case Degraded =>
      case NodeFailed =>
      case Replacing =>
      case NodeDeploying =>
      case Verifying =>
      case Disabled =>
    }
  }
}
