/** Enumerations and rows shared by every component of the recovery service. */
module Types {

  datatype Option<+T> = None | Some(value: T)

  datatype Result<+T> = Success(value: T) | Failure

  /** The eight states of a registered node. */
  datatype NodeState =
    | Unknown | Healthy | Degraded | NodeFailed
    | Replacing | NodeDeploying | Verifying | Disabled

  /** The states that only a replacement workflow puts a node in. */
  predicate InWorkflow(s: NodeState) {
    s == Replacing || s == NodeDeploying || s == Verifying
  }

  /** The durable checkpoints of a replacement job. */
  datatype Checkpoint =
    | Created | Provisioning | Provisioned | CheckingIp | TempCleanup | IpVerified
    | Deploying | NodeVerified | MasterUpdating | MasterUpdated | MasterVerifying
    | MasterVerified | FinalCheck | FinalVerified | OldVpsCleanup
    | Completed | Failed | Cancelled

  datatype VpsState = VpsProvisioning | VpsRunning | VpsDeleting | VpsDeleted | VpsError

  datatype VpsRole = Current | Replacement

  datatype DeployState =
    | DeployPending | WaitingSsh | Bootstrapping | Installing | DeployVerifying
    | DeploySucceeded | DeployFailed

  /** Three-valued reachability verdict. */
  datatype Decision = Reachable | Unreachable | Indeterminate

  /** References to stored secrets and the panel fields kept beside a node. */
  datatype Credentials = Credentials(
    panelUsername: Option<string>,
    panelBasePath: Option<string>,
    panelPasswordRef: Option<string>,
    apiTokenRef: Option<string>)

  /** The columns of a node row that monitoring and the workflow read or write. */
  datatype NodeRow = NodeRow(
    state: NodeState,
    failures: nat,
    successes: nat,
    name: string,
    host: string,
    port: int,
    credentials: Credentials)
}
