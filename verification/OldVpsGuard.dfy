/** The hard gate in front of the only deletion of an old server. */
module OldVpsGuard {
  import opened Types

  /** The rows the guard looks at, reduced to the columns it reads. */
  datatype GuardedJob = GuardedJob(
    id: nat, node: nat, oldVps: Option<nat>, newVps: Option<nat>,
    newIpVerified: bool, deploymentVerified: bool, masterUpdated: bool, masterVerified: bool,
    finalHealthVerified: bool)

  datatype GuardedVps = GuardedVps(
    id: nat, node: nat, provider: nat, server: nat, role: VpsRole, state: VpsState, host: string)

  datatype GuardedDeployment = GuardedDeployment(job: nat, vps: nat, state: DeployState)

  datatype Gate =
    | OldVpsJobIdentity | OldVpsNodeIdentity | OldVpsCurrentRole | OldVpsNotDeleted
    | NewVpsNodeIdentity | NewVpsReplacementRole | DeploymentJobIdentity | DeploymentVpsIdentity
    | DistinctProviderIdentity | NewVps | DistinctNewVps | NewVpsRunning | NewIpVerified
    | DeploymentSucceeded | DeploymentVerified | MasterUpdatedGate | MasterVerifiedGate
    | FinalHealthVerified

  /** Whether one gate is missing. */
  predicate Lacks(g: Gate, job: GuardedJob, dep: GuardedDeployment, newRow: GuardedVps, oldRow: GuardedVps) {
    match g
    case OldVpsJobIdentity => job.oldVps != Some(oldRow.id)
    case OldVpsNodeIdentity => oldRow.node != job.node
    case OldVpsCurrentRole => oldRow.role != Current
    case OldVpsNotDeleted => oldRow.state == VpsDeleted
    case NewVpsNodeIdentity => newRow.node != job.node
    case NewVpsReplacementRole => newRow.role != Replacement
    case DeploymentJobIdentity => dep.job != job.id
    case DeploymentVpsIdentity => dep.vps != newRow.id
    case DistinctProviderIdentity => newRow.provider == oldRow.provider && newRow.server == oldRow.server
    case NewVps => job.newVps != Some(newRow.id)
    case DistinctNewVps => newRow.id == oldRow.id
    case NewVpsRunning => newRow.state != VpsRunning || newRow.host == ""
    case NewIpVerified => !job.newIpVerified
    case DeploymentSucceeded => dep.state != DeploySucceeded
    case DeploymentVerified => !job.deploymentVerified
    case MasterUpdatedGate => !job.masterUpdated
    case MasterVerifiedGate => !job.masterVerified
    case FinalHealthVerified => !job.finalHealthVerified
  }

  /** Deletion is permitted only when nothing is missing. */
  predicate Permits(job: GuardedJob, dep: GuardedDeployment, newRow: GuardedVps, oldRow: GuardedVps) {
    forall g: Gate :: !Lacks(g, job, dep, newRow, oldRow)
  }

  /** The rows are the job's own and belong together, and the two servers are not one. */
  predicate Matching(job: GuardedJob, dep: GuardedDeployment, newRow: GuardedVps, oldRow: GuardedVps) {
    && job.oldVps == Some(oldRow.id) && job.newVps == Some(newRow.id) && dep.job == job.id && dep.vps == newRow.id
    && oldRow.node == job.node && newRow.node == job.node
    && oldRow.id != newRow.id && !(oldRow.provider == newRow.provider && oldRow.server == newRow.server)
  }

  /** The old server is in service, the new one is up and stands by, and everything about it was verified. */
  predicate ReadyToSwap(job: GuardedJob, dep: GuardedDeployment, newRow: GuardedVps, oldRow: GuardedVps) {
    && oldRow.role == Current && oldRow.state != VpsDeleted
    && newRow.role == Replacement && newRow.state == VpsRunning && newRow.host != ""
    && dep.state == DeploySucceeded && job.newIpVerified && job.deploymentVerified
    && job.masterUpdated && job.masterVerified && job.finalHealthVerified
  }

  /** What a permission says. */
  lemma PermitsExactly(job: GuardedJob, dep: GuardedDeployment, newRow: GuardedVps, oldRow: GuardedVps)
    ensures Permits(job, dep, newRow, oldRow) <==>
            Matching(job, dep, newRow, oldRow) && ReadyToSwap(job, dep, newRow, oldRow)
  {
    if Permits(job, dep, newRow, oldRow) {
      PermittedMatch(job, dep, newRow, oldRow);
      PermittedReady(job, dep, newRow, oldRow);
    }
  }

  lemma PermittedMatch(job: GuardedJob, dep: GuardedDeployment, newRow: GuardedVps, oldRow: GuardedVps)
    requires Permits(job, dep, newRow, oldRow)
    ensures Matching(job, dep, newRow, oldRow)
  {
    assert !Lacks(OldVpsJobIdentity, job, dep, newRow, oldRow) && !Lacks(NewVps, job, dep, newRow, oldRow);
    assert !Lacks(DeploymentJobIdentity, job, dep, newRow, oldRow) && !Lacks(DeploymentVpsIdentity, job, dep, newRow, oldRow);
    assert !Lacks(OldVpsNodeIdentity, job, dep, newRow, oldRow) && !Lacks(NewVpsNodeIdentity, job, dep, newRow, oldRow);
    assert !Lacks(DistinctNewVps, job, dep, newRow, oldRow) && !Lacks(DistinctProviderIdentity, job, dep, newRow, oldRow);
  }

  lemma PermittedReady(job: GuardedJob, dep: GuardedDeployment, newRow: GuardedVps, oldRow: GuardedVps)
    requires Permits(job, dep, newRow, oldRow)
    ensures ReadyToSwap(job, dep, newRow, oldRow)
  {
    assert !Lacks(OldVpsCurrentRole, job, dep, newRow, oldRow) && !Lacks(OldVpsNotDeleted, job, dep, newRow, oldRow);
    assert !Lacks(NewVpsReplacementRole, job, dep, newRow, oldRow) && !Lacks(NewVpsRunning, job, dep, newRow, oldRow);
    assert !Lacks(DeploymentSucceeded, job, dep, newRow, oldRow) && !Lacks(NewIpVerified, job, dep, newRow, oldRow);
    assert !Lacks(DeploymentVerified, job, dep, newRow, oldRow) && !Lacks(MasterUpdatedGate, job, dep, newRow, oldRow);
    assert !Lacks(MasterVerifiedGate, job, dep, newRow, oldRow) && !Lacks(FinalHealthVerified, job, dep, newRow, oldRow);
  }

  /** The clauses in the order the guard checks and reports them. */
  const CLAUSES := [
    OldVpsJobIdentity, OldVpsNodeIdentity, OldVpsCurrentRole, OldVpsNotDeleted, NewVpsNodeIdentity,
    NewVpsReplacementRole, DeploymentJobIdentity, DeploymentVpsIdentity, DistinctProviderIdentity,
    NewVps, DistinctNewVps, NewVpsRunning, NewIpVerified, DeploymentSucceeded, DeploymentVerified,
    MasterUpdatedGate, MasterVerifiedGate, FinalHealthVerified]

  function Position(g: Gate): (i: nat)
    ensures i < |CLAUSES| && CLAUSES[i] == g
  {
    match g
    case OldVpsJobIdentity => 0
    case OldVpsNodeIdentity => 1
    case OldVpsCurrentRole => 2
    case OldVpsNotDeleted => 3
    case NewVpsNodeIdentity => 4
    case NewVpsReplacementRole => 5
    case DeploymentJobIdentity => 6
    case DeploymentVpsIdentity => 7
    case DistinctProviderIdentity => 8
    case NewVps => 9
    case DistinctNewVps => 10
    case NewVpsRunning => 11
    case NewIpVerified => 12
    case DeploymentSucceeded => 13
    case DeploymentVerified => 14
    case MasterUpdatedGate => 15
    case MasterVerifiedGate => 16
    case FinalHealthVerified => 17
  }

  /** Appends the missing gates clause by clause; an empty list lets the deletion go on. */
  method AssertCanDelete(job: GuardedJob, dep: GuardedDeployment, newRow: GuardedVps, oldRow: GuardedVps)
    returns (missing: seq<Gate>)
    ensures forall g :: g in missing <==> Lacks(g, job, dep, newRow, oldRow)
    ensures missing == [] <==> Permits(job, dep, newRow, oldRow)
    ensures missing == [] <==> Matching(job, dep, newRow, oldRow) && ReadyToSwap(job, dep, newRow, oldRow)
    ensures forall i, k :: 0 <= i < k < |missing| ==> Position(missing[i]) < Position(missing[k])
  {
    PermitsExactly(job, dep, newRow, oldRow);
    hide Matching, ReadyToSwap;
    missing := [];
    var n := 0;
    while n < |CLAUSES|
      invariant 0 <= n <= |CLAUSES|
      invariant forall g :: g in missing <==> Position(g) < n && Lacks(g, job, dep, newRow, oldRow)
      invariant forall i, k :: 0 <= i < k < |missing| ==> Position(missing[i]) < Position(missing[k])
    {
      var g := CLAUSES[n];
      assert Position(g) == n by { PositionIsExact(n); }
      assert forall i :: 0 <= i < |missing| ==> missing[i] in missing;
      assert forall other :: Position(other) == n ==> other == g;
      if Lacks(g, job, dep, newRow, oldRow) {
        missing := missing + [g];
      }
      n := n + 1;
    }
    assert missing != [] ==> missing[0] in missing;
  }

  lemma PositionIsExact(n: nat)
    requires n < |CLAUSES|
    ensures Position(CLAUSES[n]) == n
  {
  }
}
