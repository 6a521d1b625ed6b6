/** Debounced health: how reachability decisions move a node's counters and state. */
module Health {
  import opened Types
  import opened NodeLifecycle

  /** Both thresholds are positive; the service refuses to build a policy otherwise. */
  datatype Policy = Policy(failureThreshold: nat, recoveryThreshold: nat)
  {
    predicate Valid() { failureThreshold >= 1 && recoveryThreshold >= 1 }
  }

  datatype HealthEvent = NodeDegradedEvent | NodeFailedEvent | NodeRecoveredEvent

  /** A committed check: the new row and the audit event it raises, if any. */
  datatype Outcome = Outcome(row: NodeRow, event: Option<HealthEvent>)

  predicate Mutable(s: NodeState) {
    s == Unknown || s == Healthy || s == Degraded || s == NodeFailed
  }

  /** True when the decision reaches the counters at all. */
  predicate Counts(n: NodeRow, d: Decision) {
    Mutable(n.state) && d != Indeterminate
  }

  /** The committed effect of one check; a refused transition rolls the whole check back. */
  function Applied(p: Policy, n: NodeRow, d: Decision): Result<Outcome> {
    if !Counts(n, d) then Success(Outcome(n, None))
    else if d == Reachable then
      var seen := n.(failures := 0, successes := n.successes + 1);
      if n.state != Healthy && seen.successes >= p.recoveryThreshold then
        match Moved(seen, Healthy)
        case Failure => Failure
        case Success(row) =>
          Success(Outcome(row, if n.state == Degraded || n.state == NodeFailed then Some(NodeRecoveredEvent) else None))
      else Success(Outcome(seen, None))
    else
      var seen := n.(successes := 0, failures := n.failures + 1);
      if seen.failures >= p.failureThreshold then
        if n.state == NodeFailed then Success(Outcome(seen, None))
        else match Moved(seen, NodeFailed)
          case Failure => Failure
          case Success(row) => Success(Outcome(row, Some(NodeFailedEvent)))
      else if n.state == Unknown || n.state == Healthy then
        match Moved(seen, Degraded)
        case Failure => Failure
        case Success(row) => Success(Outcome(row, Some(NodeDegradedEvent)))
      else Success(Outcome(seen, None))
  }

  /** The event that a change of state is told by; only an UNKNOWN node becomes HEALTHY silently. */
  function Told(before: NodeState, after: NodeState): Option<HealthEvent> {
    if before == after then None
    else match after
      case Degraded => Some(NodeDegradedEvent)
      case NodeFailed => Some(NodeFailedEvent)
      case Healthy => if before == Unknown then None else Some(NodeRecoveredEvent)
      case _ => None
  }

  class NodeHealthCalculator {
    const policy: Policy

    constructor (policy: Policy)
      requires policy.Valid()
      ensures this.policy == policy
    {
      this.policy := policy;
    }

    /** Applies one decision to a loaded node. On a failure the caller discards the session. */
    method Apply(node: Node, d: Decision, now: nat) returns (r: Result<Option<HealthEvent>>)
      modifies node
      ensures r.Success? <==> Applied(policy, old(node.row), d).Success?
      ensures r.Success? ==> Applied(policy, old(node.row), d).value == Outcome(node.row, r.value)
      ensures r.Success? && Mutable(old(node.row.state)) && old(node.row.state) != Healthy ==>
                (node.row.state == Healthy <==> d == Reachable && old(node.row.successes) + 1 >= policy.recoveryThreshold)
      ensures r.Success? ==> r.value == Told(old(node.row.state), node.row.state)
      ensures node.stateChangedAt ==
              if r.Success? && node.row.state != old(node.row.state) then now else old(node.stateChangedAt)
    {
      var previous := node.row.state;
      if previous !in {Unknown, Healthy, Degraded, NodeFailed} || d == Indeterminate {
        return Success(None);
      }
      var event := None;
      if d == Reachable {
        node.row := node.row.(failures := 0, successes := node.row.successes + 1);
        if previous != Healthy && node.row.successes >= policy.recoveryThreshold {
          var moved := node.Transition(Healthy, now);
          if moved.Failure? {
            return Failure;
          }
          if previous in {Degraded, NodeFailed} {
            event := Some(NodeRecoveredEvent);
          }
        }
      } else {
        node.row := node.row.(successes := 0, failures := node.row.failures + 1);
        if node.row.failures >= policy.failureThreshold {
          if previous != NodeFailed {
            var moved := node.Transition(NodeFailed, now);
            if moved.Failure? {
              return Failure;
            }
            event := Some(NodeFailedEvent);
          }
        } else if previous in {Unknown, Healthy} {
          var moved := node.Transition(Degraded, now);
          if moved.Failure? {
            return Failure;
          }
          event := Some(NodeDegradedEvent);
        }
      }
      return Success(event);
    }
  }

  // ---- Whole histories of one node ----

  /** Everything that can happen to a node's state and counters after registration. */
  datatype Happening =
    | Check(d: Decision)
    | Enter(force: bool)             // a live replacement job starts
    | Progress(target: NodeState)    // the workflow moves the node on
    | Abandon(switched: bool)        // the job fails or is cancelled
    | Finish                         // the job completes
    | SetDisabled
    | SetEnabled

  /**
   The node with two history variables: the definite decisions that reached its counters, newest
   last, and the state a running job found. A completed job counts as a REACHABLE decision when the
   node had none to show.
   */
  datatype Life = Life(row: NodeRow, trail: seq<Decision>, found: Option<NodeState>, forced: bool)

  function Registered(name: string, host: string, port: int, c: Credentials): Life {
    Life(NodeRow(Unknown, 0, 0, name, host, port, c), [], None, false)
  }

  /** One happening; a refused one changes nothing. */
  function Live(p: Policy, l: Life, h: Happening): Life {
    match h
    case Check(d) =>
      (match Applied(p, l.row, d)
       case Success(o) => l.(row := o.row, trail := if Counts(l.row, d) then l.trail + [d] else l.trail)
       case Failure => l)
    case Enter(force) =>
      if l.found.Some? then l
      else
        (match (if force then Forced(l.row) else if l.row.state == NodeFailed then Moved(l.row, Replacing) else Failure)
         case Success(row) => l.(row := row, found := Some(l.row.state), forced := force)
         case Failure => l)
    case Progress(target) =>
      if l.found.None? || !InWorkflow(target) then l
      else (match Moved(l.row, target) case Success(row) => l.(row := row) case Failure => l)
    case Abandon(switched) =>
      if l.found.None? then l
      else
        (match (if l.forced && !switched then Restored(l.row, l.found.value) else Moved(l.row, NodeFailed))
         case Success(row) => l.(row := row, found := None)
         case Failure => l)
    case Finish =>
      if l.found.None? then l
      else
        (match Moved(l.row.(failures := 0, successes := if l.row.successes >= 1 then l.row.successes else 1), Healthy)
         case Success(row) =>
           l.(row := row, trail := if l.row.successes >= 1 then l.trail else l.trail + [Reachable], found := None)
         case Failure => l)
    case SetDisabled =>
      if l.found.Some? then l
      else (match Moved(l.row, Disabled) case Success(row) => l.(row := row) case Failure => l)
    case SetEnabled =>
      if l.found.Some? || l.row.state != Disabled then l
      else (match Moved(l.row, Unknown) case Success(row) => l.(row := row) case Failure => l)
  }

  function LiveAll(p: Policy, l: Life, hs: seq<Happening>): Life {
    if hs == [] then l else Live(p, LiveAll(p, l, hs[..|hs| - 1]), hs[|hs| - 1])
  }

  /** The length of the run of UNREACHABLE decisions that ends a trail. */
  function FailureRun(trail: seq<Decision>): nat {
    if trail == [] || trail[|trail| - 1] != Unreachable then 0
    else 1 + FailureRun(trail[..|trail| - 1])
  }

  /** The length of the run of REACHABLE decisions that ends a trail. */
  function SuccessRun(trail: seq<Decision>): nat {
    if trail == [] || trail[|trail| - 1] != Reachable then 0
    else 1 + SuccessRun(trail[..|trail| - 1])
  }

  ghost predicate Sound(l: Life) {
    && l.row.failures == FailureRun(l.trail) && l.row.successes == SuccessRun(l.trail)
    && (l.row.failures == 0 || l.row.successes == 0)
    && (l.row.state == Healthy ==> l.row.failures == 0)
    && (l.found.Some? <==> InWorkflow(l.row.state))
    && (l.found.Some? ==> Restorable(l.found.value))
    && (l.found == Some(Healthy) ==> l.row.failures == 0)
  }

  lemma ExtendTrail(trail: seq<Decision>, d: Decision)
    ensures FailureRun(trail + [d]) == if d == Unreachable then FailureRun(trail) + 1 else 0
    ensures SuccessRun(trail + [d]) == if d == Reachable then SuccessRun(trail) + 1 else 0
  {
    assert (trail + [d])[..|trail|] == trail;
  }

  lemma CheckKeepsSound(p: Policy, l: Life, d: Decision)
    requires p.Valid() && Sound(l)
    ensures Sound(Live(p, l, Check(d)))
  {
    ExtendTrail(l.trail, d);
    hide FailureRun, SuccessRun;
  }

  lemma JobKeepsSound(p: Policy, l: Life, h: Happening)
    requires p.Valid() && Sound(l) && (h.Enter? || h.Progress? || h.Abandon? || h.Finish?)
    ensures Sound(Live(p, l, h))
  {
    ExtendTrail(l.trail, Reachable);
    hide FailureRun, SuccessRun;
  }

  lemma LiveKeepsSound(p: Policy, l: Life, h: Happening)
    requires p.Valid() && Sound(l)
    ensures Sound(Live(p, l, h))
  {
    hide FailureRun, SuccessRun;
    match h {
      case Check(d) => CheckKeepsSound(p, l, d);
      case SetDisabled =>
      case SetEnabled =>
      case _ => JobKeepsSound(p, l, h);
    }
  }

  /** Counters and state agree after every history of a registered node. */
  lemma RegisteredLivesAreSound(p: Policy, name: string, host: string, port: int, c: Credentials, hs: seq<Happening>)
    requires p.Valid()
    ensures Sound(LiveAll(p, Registered(name, host, port, c), hs))
  {
    HistoriesAreSound(p, Registered(name, host, port, c), hs);
  }

  lemma {:induction false} HistoriesAreSound(p: Policy, l: Life, hs: seq<Happening>)
    requires p.Valid() && Sound(l)
    ensures Sound(LiveAll(p, l, hs))
  {
    if hs != [] {
      HistoriesAreSound(p, l, hs[..|hs| - 1]);
      LiveKeepsSound(p, LiveAll(p, l, hs[..|hs| - 1]), hs[|hs| - 1]);
    }
  }

  lemma {:induction false} LongRunIsAllUnreachable(trail: seq<Decision>, n: nat)
    requires FailureRun(trail) >= n
    ensures n <= |trail| && forall i :: |trail| - n <= i < |trail| ==> trail[i] == Unreachable
  {
    if n > 0 {
      LongRunIsAllUnreachable(trail[..|trail| - 1], n - 1);
    }
  }

  /**
   Monitoring puts a node in FAILED only when the last `failureThreshold` decisions that reached
   its counters, this one included, were all UNREACHABLE.
   */
  lemma FailedOnlyAfterThreshold(p: Policy, l: Life, d: Decision)
    requires p.Valid() && Sound(l)
    requires l.row.state != NodeFailed && Live(p, l, Check(d)).row.state == NodeFailed
    ensures var trail := Live(p, l, Check(d)).trail;
            p.failureThreshold <= |trail|
            && forall i :: |trail| - p.failureThreshold <= i < |trail| ==> trail[i] == Unreachable
  {
    LiveKeepsSound(p, l, Check(d));
    ThresholdIsReached(p, l, d);
    hide Live, FailureRun, SuccessRun;
    LongRunIsAllUnreachable(Live(p, l, Check(d)).trail, p.failureThreshold);
  }

  lemma ThresholdIsReached(p: Policy, l: Life, d: Decision)
    requires l.row.state != NodeFailed && Live(p, l, Check(d)).row.state == NodeFailed
    ensures Live(p, l, Check(d)).row.failures >= p.failureThreshold
  {
    hide FailureRun, SuccessRun;
  }

  /**
   A check makes a node HEALTHY exactly when it completes a run of `recoveryThreshold` REACHABLE decisions.
   */
  lemma RecoversExactly(p: Policy, l: Life, d: Decision)
    requires p.Valid() && Sound(l) && l.row.state != Healthy
    ensures Live(p, l, Check(d)).row.state == Healthy <==>
            Mutable(l.row.state) && d == Reachable && SuccessRun(l.trail + [d]) >= p.recoveryThreshold
  {
    ExtendTrail(l.trail, d);
    hide FailureRun, SuccessRun;
  }

  /**
   It makes an UNKNOWN or DEGRADED node FAILED exactly when it completes a run of `failureThreshold`
   UNREACHABLE ones.
   */
  lemma FailsExactly(p: Policy, l: Life, d: Decision)
    requires p.Valid() && Sound(l) && l.row.state != NodeFailed
    ensures Live(p, l, Check(d)).row.state == NodeFailed <==>
            (l.row.state == Unknown || l.row.state == Degraded)
            && d == Unreachable && FailureRun(l.trail + [d]) >= p.failureThreshold
  {
    ExtendTrail(l.trail, d);
    hide FailureRun, SuccessRun;
  }

  /**
   And DEGRADED exactly on an UNREACHABLE decision about an UNKNOWN or HEALTHY node that does not complete
   one.
   */
  lemma DegradesExactly(p: Policy, l: Life, d: Decision)
    requires p.Valid() && Sound(l) && l.row.state != Degraded
    ensures Live(p, l, Check(d)).row.state == Degraded <==>
            (l.row.state == Unknown || l.row.state == Healthy)
            && d == Unreachable && FailureRun(l.trail + [d]) < p.failureThreshold
  {
    ExtendTrail(l.trail, d);
    hide FailureRun, SuccessRun;
  }

  /** Every change of state by a check is told by its event, and nothing else is; the other columns stay. */
  lemma EventsTellChanges(p: Policy, n: NodeRow, d: Decision)
    requires Applied(p, n, d).Success?
    ensures var o := Applied(p, n, d).value;
            && (o.event == Some(NodeDegradedEvent) <==> n.state != Degraded && o.row.state == Degraded)
            && (o.event == Some(NodeFailedEvent) <==> n.state != NodeFailed && o.row.state == NodeFailed)
            && (o.event == Some(NodeRecoveredEvent) <==>
                  (n.state == Degraded || n.state == NodeFailed) && o.row.state == Healthy)
            && o.row == n.(state := o.row.state, failures := o.row.failures, successes := o.row.successes)
  {
  }

  /** A check is refused exactly on a HEALTHY node that fails under a threshold of one. */
  lemma CheckIsRefusedExactly(p: Policy, l: Life, d: Decision)
    requires p.Valid() && Sound(l)
    ensures Applied(p, l.row, d).Failure? <==>
            l.row.state == Healthy && d == Unreachable && p.failureThreshold == 1
  {
    if l.row.state == Healthy && d == Unreachable {
      assert l.row.failures == 0;
    }
  }

  /** Under that threshold a HEALTHY node can never leave HEALTHY by monitoring. */
  lemma {:induction false} ThresholdOneNeverFails(p: Policy, l: Life, ds: seq<Decision>)
    requires p.Valid() && Sound(l) && p.failureThreshold == 1 && l.row.state == Healthy
    ensures LiveAll(p, l, seq(|ds|, i requires 0 <= i < |ds| => Check(ds[i]))).row.state == Healthy
  {
    var hs := seq(|ds|, i requires 0 <= i < |ds| => Check(ds[i]));
    if ds != [] {
      var front := ds[..|ds| - 1];
      ThresholdOneNeverFails(p, l, front);
      assert hs[..|hs| - 1] == seq(|front|, i requires 0 <= i < |front| => Check(front[i]));
      HistoriesAreSound(p, l, hs[..|hs| - 1]);
    }
  }

  /** A job that ends unsuccessfully before the switch leaves the node as it found it. */
  lemma AbandonUndoesEnter(p: Policy, l: Life, force: bool, middle: seq<Happening>)
    requires p.Valid() && Sound(l) && l.found.None? && Live(p, l, Enter(force)).found.Some?
    requires forall i :: 0 <= i < |middle| ==> middle[i].Check? || middle[i].Progress? || middle[i].Enter?
                                               || middle[i].SetDisabled? || middle[i].SetEnabled?
    ensures var busy := LiveAll(p, Live(p, l, Enter(force)), middle);
            Live(p, busy, Abandon(false)).row == l.row && Live(p, busy, Abandon(true)).row == l.row.(state := NodeFailed)
  {
    var start := Live(p, l, Enter(force));
    LiveKeepsSound(p, l, Enter(force));
    StaysInWorkflow(p, start, middle);
    hide FailureRun, SuccessRun, LiveAll;
    AbandonFrom(p, l, force, LiveAll(p, start, middle));
  }

  lemma AbandonFrom(p: Policy, l: Life, force: bool, busy: Life)
    requires Sound(l) && l.found.None? && Live(p, l, Enter(force)).found.Some?
    requires var start := Live(p, l, Enter(force));
             InWorkflow(busy.row.state) && busy == start.(row := start.row.(state := busy.row.state))
    ensures Live(p, busy, Abandon(false)).row == l.row && Live(p, busy, Abandon(true)).row == l.row.(state := NodeFailed)
  {
    hide FailureRun, SuccessRun;
  }

  lemma {:induction false} StaysInWorkflow(p: Policy, l: Life, middle: seq<Happening>)
    requires p.Valid() && Sound(l) && l.found.Some?
    requires forall i :: 0 <= i < |middle| ==> middle[i].Check? || middle[i].Progress? || middle[i].Enter?
                                               || middle[i].SetDisabled? || middle[i].SetEnabled?
    ensures var busy := LiveAll(p, l, middle);
            InWorkflow(busy.row.state) && busy == l.(row := l.row.(state := busy.row.state))
  {
    if middle != [] {
      StaysInWorkflow(p, l, middle[..|middle| - 1]);
    }
  }
}
