/** The checkpoint graph of a replacement job and the transition that moves a job along it. */
module CheckpointGraph {
  import opened Types

  predicate Terminal(c: Checkpoint) {
    c == Completed || c == Failed || c == Cancelled
  }

  /** The checkpoint a successful stage leads to; a terminal one leads nowhere. */
  function Next(c: Checkpoint): Checkpoint {
    match c
    case Created => Provisioning
    case Provisioning => Provisioned
    case Provisioned => CheckingIp
    case CheckingIp => IpVerified
    case TempCleanup => Provisioning
    case IpVerified => Deploying
    case Deploying => NodeVerified
    case NodeVerified => MasterUpdating
    case MasterUpdating => MasterUpdated
    case MasterUpdated => MasterVerifying
    case MasterVerifying => MasterVerified
    case MasterVerified => FinalCheck
    case FinalCheck => FinalVerified
    case FinalVerified => OldVpsCleanup
    case OldVpsCleanup => Completed
    case _ => c
  }

  /** A candidate that is gone or filtered leads to its cleanup instead. */
  predicate Leads(c: Checkpoint, target: Checkpoint) {
    !Terminal(c) && (target == Next(c) || (target == TempCleanup && (c == Provisioned || c == CheckingIp)))
  }

  /** Every active checkpoint may also fail or be cancelled. */
  predicate Allowed(c: Checkpoint, target: Checkpoint) {
    !Terminal(c) && (Leads(c, target) || target == Failed || target == Cancelled)
  }

  predicate CanMove(current: Checkpoint, target: Checkpoint) {
    target == current || Allowed(current, target)
  }

  /** Position of a checkpoint in the order the gates are passed. */
  function Rank(c: Checkpoint): nat {
    match c
    case Created => 0
    case Provisioning => 1
    case Provisioned => 2
    case CheckingIp => 3
    case TempCleanup => 4
    case IpVerified => 5
    case Deploying => 6
    case NodeVerified => 7
    case MasterUpdating => 8
    case MasterUpdated => 9
    case MasterVerifying => 10
    case MasterVerified => 11
    case FinalCheck => 12
    case FinalVerified => 13
    case OldVpsCleanup => 14
    case Completed => 15
    case Failed => 16
    case Cancelled => 17
  }

  /** The coarse state kept beside the checkpoint. */
  datatype JobState =
    | JobPending | JobProvisioning | JobCheckingIp | JobCleaningUp | JobDeploying | JobVerifying | JobUpdatingMaster
    | JobCompleted | JobFailed | JobCancelled

  function StateFor(c: Checkpoint): JobState {
    match c
    case Created => JobPending
    case Provisioning => JobProvisioning
    case Provisioned => JobProvisioning
    case CheckingIp => JobCheckingIp
    case TempCleanup => JobCleaningUp
    case IpVerified => JobCheckingIp
    case Deploying => JobDeploying
    case MasterUpdating => JobUpdatingMaster
    case MasterUpdated => JobUpdatingMaster
    case OldVpsCleanup => JobCleaningUp
    case Completed => JobCompleted
    case Failed => JobFailed
    case Cancelled => JobCancelled
    case _ => JobVerifying
  }

  /** The checkpoints behind each coarse state. */
  lemma CoarseStates(c: Checkpoint)
    ensures StateFor(c) == JobPending <==> c == Created
    ensures StateFor(c) == JobProvisioning <==> c == Provisioning || c == Provisioned
    ensures StateFor(c) == JobCheckingIp <==> c == CheckingIp || c == IpVerified
    ensures StateFor(c) == JobCleaningUp <==> c == TempCleanup || c == OldVpsCleanup
    ensures StateFor(c) == JobDeploying <==> c == Deploying
    ensures StateFor(c) == JobUpdatingMaster <==> c == MasterUpdating || c == MasterUpdated
    ensures StateFor(c) == JobVerifying <==>
            c == NodeVerified || c == MasterVerifying || c == MasterVerified || c == FinalCheck || c == FinalVerified
    ensures StateFor(c) == JobCompleted <==> c == Completed
    ensures StateFor(c) == JobFailed <==> c == Failed
    ensures StateFor(c) == JobCancelled <==> c == Cancelled
  {
  }

  /** The columns of a job row that a transition writes. */
  datatype Stamp = Stamp(
    checkpoint: Checkpoint, state: JobState, activeSlot: bool, startedAt: Option<nat>, completedAt: Option<nat>)
  {
    /** What every committed job row satisfies. */
    ghost predicate Valid() {
      && state == StateFor(checkpoint)
      && (activeSlot <==> !Terminal(checkpoint))
      && (completedAt.Some? <==> Terminal(checkpoint))
      && (startedAt.Some? <==> checkpoint != Created)
    }
  }

  /** The columns after a transition at time now, or the refusal. */
  function Stamped(j: Stamp, target: Checkpoint, now: nat): Result<Stamp> {
    if target == j.checkpoint then Success(j)
    else if !Allowed(j.checkpoint, target) then Failure
    else
      Success(Stamp(
        target,
        StateFor(target),
        j.activeSlot && !Terminal(target),
        if j.startedAt.None? && target != Created then Some(now) else j.startedAt,
        if Terminal(target) then Some(now) else j.completedAt))
  }

  class JobRow {
    var row: Stamp

    constructor ()
      ensures row.Valid() && row.checkpoint == Created
    {
      row := Stamp(Created, JobPending, true, None, None);
    }

    method Transition(target: Checkpoint, now: nat) returns (r: Result<bool>)
      modifies this
      ensures r.Success? <==> Stamped(old(row), target, now).Success?
      ensures r.Success? ==> row == Stamped(old(row), target, now).value && r.value == (target != old(row.checkpoint))
      ensures r.Failure? ==> row == old(row)
    {
      if target == row.checkpoint {
        return Success(false);
      }
      if !Allowed(row.checkpoint, target) {
        return Failure;
      }
      if row.startedAt.None? && target != Created {
        row := row.(startedAt := Some(now));
      }
      row := row.(checkpoint := target, state := StateFor(target));
      if Terminal(target) {
        row := row.(completedAt := Some(now), activeSlot := false);
      }
      return Success(true);
    }
  }

  /** A committed row stays valid; its slot is freed exactly on the move to a terminal checkpoint. */
  lemma TransitionKeepsRowValid(j: Stamp, target: Checkpoint, now: nat)
    requires j.Valid() && Stamped(j, target, now).Success?
    ensures var moved := Stamped(j, target, now).value;
            moved.Valid() && (j.startedAt.Some? ==> moved.startedAt == j.startedAt)
            && (Terminal(j.checkpoint) ==> moved == j)
  {
    assert !Leads(j.checkpoint, Created);
  }

  /**
   The number of dispatches still needed to finish with the present candidate, on the longest way.
   TEMP_CLEANUP lies below CHECKING_IP although it leads back to PROVISIONING: the new attempt it
   opens is paid for by the attempt it uses up.
   */
  function Distance(c: Checkpoint): nat {
    match c
    case Created => 14
    case TempCleanup => 10
    case Completed => 0
    case Failed => 0
    case Cancelled => 0
    case Provisioning => 13
    case Provisioned => 12
    case CheckingIp => 11
    case _ => 15 - Rank(c)
  }

  /** Dispatches left in a job at most: four for every attempt not yet used, and the way to the end. */
  function Remaining(c: Checkpoint, attempt: nat, maxAttempts: nat): int {
    if Terminal(c) then 0
    else 4 * (maxAttempts - if attempt < 1 then 1 else attempt) + Distance(c)
  }

  /** Off the retry edge every forward move comes strictly closer; the retry edge pays with an attempt. */
  lemma ForwardMovesDecrease(c: Checkpoint, target: Checkpoint, attempt: nat, maxAttempts: nat)
    requires Leads(c, target) && 1 <= attempt <= maxAttempts
    ensures c != TempCleanup ==> Remaining(target, attempt, maxAttempts) < Remaining(c, attempt, maxAttempts)
    ensures c == TempCleanup && attempt < maxAttempts ==>
            Remaining(target, attempt + 1, maxAttempts) < Remaining(c, attempt, maxAttempts)
  {
    assert c == TempCleanup || Distance(target) < Distance(c);
  }

  /** A path of the graph that never fails or cancels. */
  predicate ForwardPath(cs: seq<Checkpoint>) {
    forall i :: 0 <= i < |cs| - 1 ==> Leads(cs[i], cs[i + 1])
  }

  /** The graph alone bounds nothing: the retry loop can be walked any number of times. */
  lemma {:induction false} GraphHasArbitrarilyLongPaths(n: nat) returns (cs: seq<Checkpoint>)
    ensures ForwardPath(cs) && |cs| == 3 * n + 1 && cs[0] == Provisioning && cs[|cs| - 1] == Provisioning
  {
    if n == 0 {
      cs := [Provisioning];
    } else {
      var rest := GraphHasArbitrarilyLongPaths(n - 1);
      cs := [Provisioning, Provisioned, TempCleanup] + rest;
      forall i | 0 <= i < |cs| - 1 ensures Leads(cs[i], cs[i + 1]) {
        if i >= 3 {
          assert cs[i] == rest[i - 3] && cs[i + 1] == rest[i - 2];
        }
      }
    }
  }

  lemma NextRank(c: Checkpoint, target: Checkpoint)
    requires Leads(c, target) && Rank(c) >= 5
    ensures Rank(target) == Rank(c) + 1
  {
  }

  /** No forward path leaves the verified half of the graph or returns to provisioning from it. */
  lemma {:induction false} VerifiedHalfIsClosed(cs: seq<Checkpoint>)
    requires ForwardPath(cs) && cs != [] && Rank(cs[0]) >= 5
    ensures forall i :: 0 <= i < |cs| ==> Rank(cs[i]) == Rank(cs[0]) + i
  {
    if |cs| > 1 {
      var front := cs[..|cs| - 1];
      assert ForwardPath(front);
      VerifiedHalfIsClosed(front);
      NextRank(cs[|cs| - 2], cs[|cs| - 1]);
    }
  }
}
