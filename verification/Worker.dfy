/**
 One worker driving one replacement job.

 Every committed database session and every call into a cloud provider, the Master panel, the
 deployment or the probing service is one step of `Work`. Between two steps the process may crash,
 which keeps the rows and drops the program counter; other jobs, an operator's cancel, monitoring
 and the clock may also run. A step reads its answer from the outside world in an `Input`.
 */
module Worker {
  import opened Types
  import opened CheckpointGraph
  import opened NodeLifecycle
  import opened MasterAlgebra
  import Consensus
  import OldVpsGuard
  import Health

  type JobId = nat
  type NodeId = nat

  /** Provider-assigned identity; registry rows are keyed by it, which the unique index on it allows. */
  type ServerId = nat

  // ---- Rows ----

  /** The node columns a job found when it was created: a history variable. */
  datatype Found = Found(state: NodeState, failures: nat, successes: nat)

  datatype Job = Job(
    node: NodeId,
    checkpoint: Checkpoint,
    active: bool,
    dryRun: bool,
    force: bool,
    original: Option<NodeState>,
    requestKey: Option<string>,
    attempt: nat,
    maxAttempts: nat,
    oldVps: ServerId,
    newVps: Option<ServerId>,
    requestedAt: Option<nat>,
    snapshot: Option<Payload>,
    ipVerified: bool,
    deploymentVerified: bool,
    masterUpdated: bool,
    masterVerified: bool,
    finalVerified: bool,
    oldDeleted: bool,
    // history variables, not columns
    found: Found,
    verifiedVps: Option<ServerId>,
    advances: nat)

  datatype Vps = Vps(node: NodeId, role: VpsRole, state: VpsState, host: string)

  datatype Deployment = Deployment(attempt: nat, vps: ServerId, state: DeployState, config: Option<PanelConfig>)

  // ---- The world outside the database ----

  /** Candidate names are the deterministic ones; the names module shows that they never collide. */
  datatype ServerName = CandidateName(job: JobId, attempt: nat) | OtherName(text: string)

  /** A server that exists or existed. `inCloud` is false for the in-memory simulation. */
  datatype Server = Server(name: ServerName, ip: string, alive: bool, inCloud: bool, markedAt: nat)

  /** Who wrote a Master record last. */
  datatype Author = Outsider | Switcher(job: JobId) | Reverter(job: JobId)

  datatype MasterWrite = MasterWrite(author: Author, record: MasterNode)

  // ---- The worker ----

  datatype Pc =
    | Idle                        // no worker holds the job
    | LoopTop                     // about to read the checkpoint
    | Failing                     // an exception is about to be recorded
    | Enter(stage: Checkpoint)    // the handler is about to run
    // provisioning
    | Lookup(now: nat, requestedAt: Option<nat>, temps: nat, actives: nat, named: nat)
    | Mark(temps: nat, actives: nat, named: nat)
    | Create(temps: nat, actives: nat, named: nat, numbered: nat)
    | Persist(server: ServerId, state: VpsState, ip: string)
    // provisioned
    | Await(server: ServerId)
    | Gone
    | Up(ip: string)
    | Boot
    // checking the address
    | Rounds
    | Judged(d: Decision)
    // temporary cleanup
    | Reap(server: ServerId, host: string)
    | ReapGet(server: ServerId, host: string, named: nat)
    | ReapDelete(server: ServerId)
    | Reaped
    // deploying
    | Deploy(seen: NodeState)
    // node verified
    | Preflight
    | Shown(record: MasterNode)
    | Tested
    // master switch
    | SwitchPin(m: Mutation)
    | Switch(m: Mutation)
    | Switched
    | VerifyPin(m: Mutation)
    | Verify(m: Mutation)
    | Verified
    // rollback, inside master verification or the final check
    | Rollback(stage: Checkpoint)
    | RollWrite(stage: Checkpoint, m: Mutation)
    | RollCheck(stage: Checkpoint, m: Mutation)
    // final check
    | Final
    | FinalDone
    // old server cleanup
    | OldGet(server: ServerId, host: string)
    | OldDelete(server: ServerId)
    | OldDone
    | DryDelete(server: ServerId)
    | DryDone

  /** What a deferral must leave untouched. */
  datatype Protected = Protected(
    checkpoint: Checkpoint, attempt: nat, newVps: Option<ServerId>, ipVerified: bool,
    deploymentVerified: bool, masterUpdated: bool, masterVerified: bool, finalVerified: bool,
    oldDeleted: bool)

  function Protect(j: Job): Protected {
    Protected(j.checkpoint, j.attempt, j.newVps, j.ipVerified, j.deploymentVerified,
              j.masterUpdated, j.masterVerified, j.finalVerified, j.oldDeleted)
  }

  /** Program counter, dispatches made since the lease was taken, and the row at the last dispatch. */
  datatype Run = Run(pc: Pc, dispatches: nat, at: Protected)

  datatype Config = Config(
    graceSeconds: nat, maxTemporary: nat, maxConcurrent: nat, maxAttempts: nat,
    requiredConsensus: nat, allowOldDeletion: bool, health: Health.Policy)

  /**
   What a step reads beside the job's own rows; `granted` says whether the lease row would be given to
   this worker's token: it is not when another worker has taken the lease over.
   */
  datatype Env = Env(cfg: Config, clock: nat, temps: nat, actives: nat, granted: bool)

  /** The rows of one job, of its node, and the shared tables. */
  datatype View = View(
    id: JobId, job: Job, run: Run, deployment: Option<Deployment>,
    node: NodeRow, master: MasterNode, log: seq<MasterWrite>,
    vps: map<ServerId, Vps>, servers: map<ServerId, Server>)

  /** The answer of the outside world to one step. */
  datatype Input =
    | Ok                                     // the session commits, the call succeeds
    | Transient(landed: bool)                // pause, gate or retryable error; the effect may have landed
    | Broken(landed: bool)                   // any other exception
    | NotFound
    | Nap                                    // one slice of a leased sleep
    | Match(server: ServerId, state: VpsState, ip: string)
    | Made(server: ServerId, state: VpsState, ip: string)
    | Unclear(server: ServerId, ip: string)  // retryable error after the server was created
    | Botched(server: ServerId, ip: string)  // other error after the server was created
    | Saw(server: ServerId, name: ServerName, ip: string)
    | Ready(ip: string)
    | Observed(rounds: seq<Consensus.Round>)
    | Seen(d: Decision)
    | Fingerprint(text: string)
    | Installed(config: PanelConfig)
    | Probed(probe: Probe)

  // ---- Moving the worker ----

  function Go(v: View, pc: Pc): View { v.(run := v.run.(pc := pc)) }

  /** A deferral or a normal end of the run: the lease is released. */
  function Leave(v: View): View { Go(v, Idle) }

  /** An exception outside the deferral list. */
  function Fall(v: View): View { Go(v, Failing) }

  /** The job row after a checkpoint move; a handler's move counts as an advance. */
  function Moved(j: Job, target: Checkpoint): Result<Job> {
    if target == j.checkpoint then Success(j)
    else if Allowed(j.checkpoint, target) then
      Success(j.(checkpoint := target, active := j.active && !Terminal(target),
                 advances := if target == Failed || target == Cancelled then j.advances else j.advances + 1))
    else Failure
  }

  /** Ends a stage: commits `after` with the new checkpoint, or rolls back to `before` and raises. */
  function Commit(before: View, after: View, target: Checkpoint): View {
    match Moved(after.job, target)
    case Success(j) => Go(after.(job := j), LoopTop)
    case Failure => Fall(before)
  }

  /** A renewal succeeds as long as the job holds its slot and nobody else has taken the lease. */
  predicate Renews(v: View, env: Env) { v.job.active && env.granted }

  predicate HasRow(v: View) { Linked(v.job.newVps, v.vps) }

  predicate Linked(newVps: Option<ServerId>, vps: map<ServerId, Vps>) {
    newVps.Some? && newVps.value in vps
  }

  predicate HasDeployment(v: View) { DeployedAt(v.job.attempt, v.deployment) }

  predicate DeployedAt(attempt: nat, d: Option<Deployment>) {
    d.Some? && d.value.attempt == attempt
  }

  /** Whether a provider or panel answer about a server comes from the adapter this job uses. */
  predicate SameWorld(v: View, k: ServerId) {
    k in v.servers && v.servers[k].inCloud == !v.job.dryRun
  }

  /** The provider forgets a server. */
  function Killed(v: View, k: ServerId): View {
    if SameWorld(v, k) then v.(servers := v.servers[k := v.servers[k].(alive := false)]) else v
  }

  function Born(v: View, k: ServerId, ip: string, attempt: nat): View {
    v.(servers := v.servers[k := Server(CandidateName(v.id, attempt), ip, true, !v.job.dryRun,
                                       if v.job.requestedAt.Some? then v.job.requestedAt.value else 0)])
  }

  function SetVps(v: View, k: ServerId, row: Vps): View { v.(vps := v.vps[k := row]) }

  /** An update of the Master record. */
  function Written(v: View, m: Mutation, author: Author): View {
    var record := Overlay(v.master, m);
    v.(master := record, log := v.log + [MasterWrite(author, record)])
  }

  /** The columns and history of a job that no step changes; a rollback snapshot once saved stays. */
  predicate SameOrigin(a: Job, b: Job) {
    && a.node == b.node && a.dryRun == b.dryRun && a.force == b.force && a.original == b.original
    && a.requestKey == b.requestKey && a.maxAttempts == b.maxAttempts && a.oldVps == b.oldVps && a.found == b.found
    && (a.snapshot.Some? ==> b.snapshot == a.snapshot)
  }

  /** The stage goes on or ends, but not the job; a deferral leaves the job row alone. */
  predicate Ongoing(v: View, w: View) {
    && w.id == v.id && SameOrigin(v.job, w.job) && w.job.active == v.job.active
    && (w.run.pc == Idle ==> w.job == v.job)
  }

  /** Nothing but the job row and the place of the worker changes; the checkpoint moves along the graph. */
  predicate Quiet(v: View, w: View) {
    && w == v.(job := w.job, run := w.run) && Ongoing(v, w)
    && CanMove(v.job.checkpoint, w.job.checkpoint) && w.job.newVps == v.job.newVps
    && (w.job.attempt == v.job.attempt || (v.job.attempt == 0 && w.job.attempt == 1))
  }

  /** A call to the outside: no row changes. */
  predicate Outward(v: View, w: View) {
    Ongoing(v, w) && w.job == v.job && w.deployment == v.deployment && w.node == v.node && w.vps == v.vps
  }

  /** A database session: nothing outside changes. */
  predicate Inward(v: View, w: View) {
    w.id == v.id && w.servers == v.servers && w.master == v.master && w.log == v.log
  }

  // ---- The loop of `resume` ----

  const STEP_LIMIT := 64

  /** Reads the checkpoint and passes the gates; the 65th round raises and leaves the job active. */
  function AtLoopTop(v: View, env: Env, i: Input): (w: View)
    ensures Quiet(v, w)
  {
    if v.run.dispatches >= STEP_LIMIT then Leave(v)
    else if Terminal(v.job.checkpoint) then Leave(v)
    else match i
      case Ok => v.(run := Run(Enter(v.job.checkpoint), v.run.dispatches + 1, Protect(v.job)))
      case Transient(_) => Leave(v)
      case Broken(_) => Fall(v)
      case _ => v
  }

  // ---- Stage handlers ----

  /** The first attempt is numbered one. */
  function Started(v: View): View {
    v.(job := v.job.(attempt := if v.job.attempt < 1 then 1 else v.job.attempt))
  }

  function AtCreated(v: View, env: Env, i: Input): (w: View)
    ensures Quiet(v, w)
  {
    match i
    case Ok => Commit(v, Started(v), Provisioning)
    case Broken(_) => Fall(v)
    case _ => v
  }

  function AtProvisioning(v: View, env: Env, i: Input): (w: View)
    ensures Quiet(v, w)
  {
    match i
    case Ok =>
      if HasRow(v) && v.vps[v.job.newVps.value].state != VpsDeleted then Commit(v, v, Provisioned)
      else if v.job.oldVps !in v.vps then Fall(v)
      else Go(v, Lookup(env.clock, v.job.requestedAt, env.temps, env.actives, v.job.attempt))
    case Broken(_) => Fall(v)
    case _ => v
  }

  function AtLookup(v: View, env: Env, i: Input): (w: View)
    requires v.run.pc.Lookup?
    ensures Quiet(v, w)
  {
    var pc := v.run.pc;
    match i
    case Match(k, state, ip) => Go(v, Persist(k, state, ip))
    case NotFound =>
      if pc.requestedAt.Some? && pc.now - pc.requestedAt.value < env.cfg.graceSeconds then Leave(v)
      else Go(v, Mark(pc.temps, pc.actives, pc.named))
    case Transient(_) => Leave(v)
    case Broken(_) => Fall(v)
    case _ => v
  }

  function AtMark(v: View, env: Env, i: Input): (w: View)
    requires v.run.pc.Mark?
    ensures Quiet(v, w)
  {
    var pc := v.run.pc;
    match i
    case Ok =>
      if !Renews(v, env) then Fall(v)
      else Go(v.(job := v.job.(requestedAt := Some(env.clock))),
              Create(pc.temps, pc.actives, pc.named, v.job.attempt))
    case Broken(_) => Fall(v)
    case _ => v
  }

  /** The policy checked just before a create. */
  predicate MayCreate(cfg: Config, attempt: nat, temps: nat, actives: nat) {
    && 1 <= attempt <= cfg.maxAttempts
    && temps < cfg.maxTemporary
    && (if actives >= 1 then actives - 1 else 0) < cfg.maxConcurrent
  }

  function AtCreate(v: View, env: Env, i: Input): (w: View)
    requires v.run.pc.Create?
    ensures Outward(v, w) && w.master == v.master && w.log == v.log
  {
    var pc := v.run.pc;
    if !MayCreate(env.cfg, pc.numbered, pc.temps, pc.actives) then Fall(v)
    else match i
      case Made(k, state, ip) => Go(Born(v, k, ip, pc.named), Persist(k, state, ip))
      case Unclear(k, ip) => Leave(Born(v, k, ip, pc.named))
      case Botched(k, ip) => Fall(Born(v, k, ip, pc.named))
      case Transient(_) => Leave(v)
      case Broken(_) => Fall(v)
      case _ => v
  }

  /** The candidate's row, linked to the job. */
  function Registered(v: View, k: ServerId, row: Vps): View {
    SetVps(v, k, row).(job := v.job.(newVps := Some(k)))
  }

  function AtPersist(v: View, env: Env, i: Input): (w: View)
    requires v.run.pc.Persist?
    ensures Ongoing(v, w) && Inward(v, w) && w.node == v.node && w.deployment == v.deployment
  {
    var pc := v.run.pc;
    match i
    case Ok =>
      var row :=
        if pc.server in v.vps then
          v.vps[pc.server].(state := pc.state, host := if pc.ip != "" then pc.ip else v.vps[pc.server].host)
        else Vps(v.job.node, Replacement, pc.state, pc.ip);
      if !Renews(v, env) then Fall(v)
      else Commit(v, Registered(v, pc.server, row), Provisioned)
    case Broken(_) => Fall(v)
    case _ => v
  }

  function AtProvisioned(v: View, env: Env, i: Input): (w: View)
    ensures Quiet(v, w)
  {
    match i
    case Ok => if HasRow(v) && Renews(v, env) then Go(v, Await(v.job.newVps.value)) else Fall(v)
    case Broken(_) => Fall(v)
    case _ => v
  }

  function AtAwait(v: View, env: Env, i: Input): (w: View)
    requires v.run.pc.Await?
    ensures Quiet(v, w)
  {
    match i
    case Ready(ip) => if ip != "" then Go(v, Up(ip)) else v
    case NotFound => Go(v, Gone)
    case Transient(_) => Leave(v)
    case Broken(_) => Fall(v)
    case _ => v
  }

  function AtGone(v: View, env: Env, i: Input): (w: View)
    ensures Ongoing(v, w) && Inward(v, w) && w.node == v.node && w.deployment == v.deployment
  {
    match i
    case Ok =>
      if !HasRow(v) then Fall(v)
      else
        var k := v.job.newVps.value;
        Commit(v, SetVps(v, k, v.vps[k].(state := VpsDeleted)), TempCleanup)
    case Broken(_) => Fall(v)
    case _ => v
  }

  function AtUp(v: View, env: Env, i: Input): (w: View)
    requires v.run.pc.Up?
    ensures Ongoing(v, w) && Inward(v, w) && w.node == v.node && w.deployment == v.deployment
  {
    match i
    case Ok =>
      if !HasRow(v) || !Renews(v, env) then Fall(v)
      else
        var k := v.job.newVps.value;
        Go(SetVps(v, k, v.vps[k].(state := VpsRunning, host := v.run.pc.ip)), Boot)
    case Broken(_) => Fall(v)
    case _ => v
  }

  function AtBoot(v: View, env: Env, i: Input): (w: View)
    ensures Quiet(v, w)
  {
    match i
    case Nap => if Renews(v, env) then v else Fall(v)
    case Ok => if Renews(v, env) then Commit(v, v, CheckingIp) else Fall(v)
    case Transient(_) => Leave(v)
    case Broken(_) => Fall(v)
    case _ => v
  }

  function AtCheckingIp(v: View, env: Env, i: Input): (w: View)
    ensures Quiet(v, w)
  {
    match i
    case Ok =>
      if !HasRow(v) || v.vps[v.job.newVps.value].host == "" || !Renews(v, env) then Fall(v)
      else Go(v, if v.job.dryRun then Judged(Reachable) else Rounds)
    case Broken(_) => Fall(v)
    case _ => v
  }

  function AtRounds(v: View, env: Env, i: Input): (w: View)
    ensures Quiet(v, w)
  {
    match i
    case Nap => if Renews(v, env) then v else Fall(v)
    case Observed(rounds) =>
      var d := Consensus.Verdict(rounds, env.cfg.requiredConsensus);
      if d == Indeterminate then Leave(v) else Go(v, Judged(d))
    case Transient(_) => Leave(v)
    case Broken(_) => Fall(v)
    case _ => v
  }

  function Accepted(v: View): View { v.(job := v.job.(ipVerified := true, verifiedVps := v.job.newVps)) }

  lemma AcceptedIsQuiet(v: View)
    ensures Quiet(v, Commit(v, Accepted(v), IpVerified))
  {
    hide Leads;
  }

  function AtJudged(v: View, env: Env, i: Input): (w: View)
    requires v.run.pc.Judged?
    ensures Quiet(v, w)
  {
    match i
    case Ok =>
      if v.run.pc.d == Unreachable then Commit(v, v, TempCleanup)
      else AcceptedIsQuiet(v); Commit(v, Accepted(v), IpVerified)
    case Broken(_) => Fall(v)
    case _ => v
  }

  function AtTempCleanup(v: View, env: Env, i: Input): (w: View)
    ensures Quiet(v, w)
  {
    match i
    case Ok =>
      if !Renews(v, env) then Fall(v)
      else if HasRow(v) && v.vps[v.job.newVps.value].state != VpsDeleted then
        Go(v, Reap(v.job.newVps.value, v.vps[v.job.newVps.value].host))
      else Go(v, Reaped)
    case Broken(_) => Fall(v)
    case _ => v
  }

  function AtReap(v: View, env: Env, i: Input): (w: View)
    requires v.run.pc.Reap?
    ensures Quiet(v, w)
  {
    match i
    case Ok => Go(v, ReapGet(v.run.pc.server, v.run.pc.host, v.job.attempt))
    case Broken(_) => Fall(v)
    case _ => v
  }

  function AtReapGet(v: View, env: Env, i: Input): (w: View)
    requires v.run.pc.ReapGet?
    ensures Quiet(v, w)
  {
    var pc := v.run.pc;
    match i
    case NotFound => Go(v, Reaped)
    case Saw(k, name, ip) =>
      if k != pc.server || name != CandidateName(v.id, pc.named) || (pc.host != "" && ip != pc.host) then Fall(v)
      else Go(v, ReapDelete(pc.server))
    case Transient(_) => Leave(v)
    case Broken(_) => Fall(v)
    case _ => v
  }

  /** A 404 from the delete call itself is not caught here. */
  function AtReapDelete(v: View, env: Env, i: Input): (w: View)
    requires v.run.pc.ReapDelete?
    ensures Outward(v, w) && w.master == v.master && w.log == v.log
  {
    var k := v.run.pc.server;
    match i
    case Ok => Go(Killed(v, k), Reaped)
    case NotFound => Fall(v)
    case Transient(landed) => Leave(if landed then Killed(v, k) else v)
    case Broken(landed) => Fall(if landed then Killed(v, k) else v)
    case _ => v
  }

  /** The candidate marked deleted and unlinked from the job. */
  function Unlinked(v: View): View {
    var cleaned := if HasRow(v) then SetVps(v, v.job.newVps.value, v.vps[v.job.newVps.value].(state := VpsDeleted)) else v;
    cleaned.(job := v.job.(newVps := None, requestedAt := None))
  }

  function Retried(v: View): View {
    var unlinked := Unlinked(v);
    unlinked.(job := unlinked.job.(attempt := v.job.attempt + 1))
  }

  /** Unlinks the candidate; the last attempt commits that much and then raises. */
  function AtReaped(v: View, env: Env, i: Input): (w: View)
    ensures Ongoing(v, w) && Inward(v, w) && w.node == v.node && w.deployment == v.deployment
  {
    match i
    case Ok =>
      if v.job.attempt >= v.job.maxAttempts then Fall(Unlinked(v))
      else Commit(v, Retried(v), Provisioning)
    case Broken(_) => Fall(v)
    case _ => v
  }

  function AtIpVerified(v: View, env: Env, i: Input): (w: View)
    ensures Ongoing(v, w) && Inward(v, w) && w.vps == v.vps && w.job.newVps == v.job.newVps
  {
    match i
    case Ok =>
      if !HasRow(v) then Fall(v)
      else
        var d := if HasDeployment(v) then v.deployment
                 else Some(Deployment(v.job.attempt, v.job.newVps.value, DeployPending, None));
        var n := if !v.job.dryRun && v.node.state == Replacing then v.node.(state := NodeDeploying) else v.node;
        Commit(v, v.(deployment := d, node := n), Deploying)
    case Broken(_) => Fall(v)
    case _ => v
  }

  function AtDeploying(v: View, env: Env, i: Input): (w: View)
    ensures Quiet(v, w)
  {
    match i
    case Ok =>
      if !HasRow(v) || !HasDeployment(v) || v.vps[v.job.newVps.value].host == "" || !Renews(v, env) then Fall(v)
      else Go(v, Deploy(v.node.state))
    case Broken(_) => Fall(v)
    case _ => v
  }

  function NextDeployState(s: DeployState): DeployState {
    match s
    case DeployPending => WaitingSsh
    case WaitingSsh => Bootstrapping
    case Bootstrapping => Installing
    case Installing => DeployVerifying
    case DeployVerifying => DeploySucceeded
    case DeploySucceeded => DeploySucceeded
    case DeployFailed => DeployFailed
  }

  /** A failed deployment is committed as failed unless it had succeeded before. */
  function FailedDeployment(d: Deployment): Deployment {
    if d.state == DeploySucceeded then d else d.(state := DeployFailed)
  }

  /** The closing commit of a deployment, over whatever the job row holds by then. */
  function Deployed(v: View, d: Deployment, seen: NodeState): View {
    var n := if !v.job.dryRun && seen == NodeDeploying then v.node.(state := Verifying) else v.node;
    var j := v.job.(deploymentVerified := true, checkpoint := NodeVerified, advances := v.job.advances + 1);
    v.(deployment := Some(d), job := j, node := n)
  }

  /**
   The deployment session spans many commits with the rows it loaded at the start. Each transition
   renews the lease; the closing commit does not, and writes only the columns the handler changed.
   */
  function AtDeploy(v: View, env: Env, i: Input): (w: View)
    requires v.run.pc.Deploy?
    ensures Ongoing(v, w) && Inward(v, w) && w.vps == v.vps && w.job.newVps == v.job.newVps
  {
    if !HasDeployment(v) then Fall(v)
    else
      var d := v.deployment.value;
      match i
      case Ok =>
        if d.state == DeploySucceeded || d.state == DeployFailed then v
        else if !Renews(v, env) then
          Fall(v.(deployment := Some(d.(state := if d.state == DeployVerifying then DeploySucceeded else DeployFailed))))
        else v.(deployment := Some(d.(state := NextDeployState(d.state))))
      case Installed(config) =>
        if d.state != DeploySucceeded then v
        else Go(Deployed(v, d.(config := Some(config)), v.run.pc.seen), LoopTop)
      case Broken(_) => Fall(v.(deployment := Some(FailedDeployment(d))))
      case _ => v
  }

  function DrySnapshot(n: NodeRow): Payload {
    Payload(0, Value(n.name), Absent, Value("http"), Value(n.host), Value(n.port),
            Value(if n.credentials.panelBasePath.Some? then n.credentials.panelBasePath.value else ""),
            Value(n.credentials.apiTokenRef.Some?), Value(true), Value(false), Value("verify"), Value(""),
            Value("all"), Value([]), Value(""), Absent, Absent, Absent, Absent)
  }

  function Snapped(v: View, s: Payload): View { v.(job := v.job.(snapshot := Some(s))) }

  /** A snapshot already saved is kept. */
  function Kept(saved: Option<Payload>, latest: Payload): Payload {
    if saved.Some? then saved.value else latest
  }

  function AtNodeVerified(v: View, env: Env, i: Input): (w: View)
    ensures Quiet(v, w)
  {
    match i
    case Ok =>
      if !HasRow(v) || !HasDeployment(v) then Fall(v)
      else if v.job.dryRun then
        Commit(v, Snapped(v, Kept(v.job.snapshot, DrySnapshot(v.node))), MasterUpdating)
      else if Renews(v, env) then Go(v, Preflight) else Fall(v)
    case Broken(_) => Fall(v)
    case _ => v
  }

  /** The candidate's address and panel port are known. */
  predicate HasPanel(v: View) {
    && HasRow(v) && v.vps[v.job.newVps.value].host != "" && HasDeployment(v)
    && v.deployment.value.config.Some? && 1 <= v.deployment.value.config.value.port <= 65535
  }

  /** The scheme is one the master stages accept. */
  predicate KnownScheme(c: PanelConfig) { c.scheme == "http" || c.scheme == "https" }

  /** The target the master stages build, when everything it needs is there. */
  function TargetFor(newVps: Option<ServerId>, attempt: nat, snapshot: Option<Payload>,
                     d: Option<Deployment>, vps: map<ServerId, Vps>): Option<Mutation> {
    if Linked(newVps, vps) && vps[newVps.value].host != "" && DeployedAt(attempt, d) && d.value.config.Some?
       && 1 <= d.value.config.value.port <= 65535 && KnownScheme(d.value.config.value) && snapshot.Some?
    then Some(Target(snapshot.value, vps[newVps.value].host, d.value.config.value))
    else None
  }

  function TargetOf(v: View): Option<Mutation> {
    TargetFor(v.job.newVps, v.job.attempt, v.job.snapshot, v.deployment, v.vps)
  }

  /** Reads the Master record; read-only, mTLS and unrecoverable nodes are refused. */
  function AtPreflight(v: View, env: Env, i: Input): (w: View)
    ensures Quiet(v, w)
  {
    match i
    case Ok =>
      if v.master.transitive || v.master.tlsVerifyMode == "mtls"
         || (v.master.hasApiToken && v.node.credentials.apiTokenRef.None?) then Fall(v)
      else Go(v, Shown(v.master))
    case Transient(_) => Leave(v)
    case Broken(_) => Fall(v)
    case _ => v
  }

  function AtShown(v: View, env: Env, i: Input): (w: View)
    requires v.run.pc.Shown?
    ensures Quiet(v, w)
  {
    match i
    case Ok => Go(Snapped(v, Kept(v.job.snapshot, SafeSnapshot(v.run.pc.record))), Tested)
    case Broken(_) => Fall(v)
    case _ => v
  }

  function AtTested(v: View, env: Env, i: Input): (w: View)
    ensures Quiet(v, w)
  {
    match i
    case Ok => if TargetOf(v).Some? then Commit(v, v, MasterUpdating) else Fall(v)
    case Transient(_) => Leave(v)
    case Broken(_) => Fall(v)
    case _ => v
  }

  /** The row with the marker that the move to a late checkpoint sets. */
  function Marked(v: View, target: Checkpoint): View {
    match target
    case MasterUpdated => v.(job := v.job.(masterUpdated := true))
    case MasterVerified => v.(job := v.job.(masterVerified := true))
    case FinalVerified => v.(job := v.job.(finalVerified := true))
    case _ => v
  }

  function AtMasterUpdating(v: View, env: Env, i: Input): (w: View)
    ensures Quiet(v, w)
  {
    match i
    case Ok =>
      if v.job.dryRun then Commit(v, Marked(v, MasterUpdated), MasterUpdated)
      else if TargetOf(v).Some? && Renews(v, env) then Go(v, SwitchPin(TargetOf(v).value))
      else Fall(v)
    case Broken(_) => Fall(v)
    case _ => v
  }

  function AtSwitchPin(v: View, env: Env, i: Input): (w: View)
    requires v.run.pc.SwitchPin?
    ensures Quiet(v, w)
  {
    match i
    case Fingerprint(text) => Go(v, Switch(Pinned(v.run.pc.m, text)))
    case Transient(_) => Leave(v)
    case Broken(_) => Fall(v)
    case _ => v
  }

  function AtSwitch(v: View, env: Env, i: Input): (w: View)
    requires v.run.pc.Switch?
    ensures Outward(v, w) && w.servers == v.servers
  {
    var landedView := Written(v, v.run.pc.m, Switcher(v.id));
    match i
    case Ok => Go(landedView, Switched)
    case Transient(landed) => Leave(if landed then landedView else v)
    case Broken(landed) => Fall(if landed then landedView else v)
    case _ => v
  }

  function AtSwitched(v: View, env: Env, i: Input): (w: View)
    ensures Quiet(v, w)
  {
    match i
    case Ok => Commit(v, Marked(v, MasterUpdated), MasterUpdated)
    case Broken(_) => Fall(v)
    case _ => v
  }

  function AtMasterUpdated(v: View, env: Env, i: Input): (w: View)
    ensures Quiet(v, w)
  {
    match i
    case Ok => Commit(v, Marked(v, MasterVerifying), MasterVerifying)
    case Broken(_) => Fall(v)
    case _ => v
  }

  function AtMasterVerifying(v: View, env: Env, i: Input): (w: View)
    ensures Quiet(v, w)
  {
    match i
    case Ok =>
      if v.job.dryRun then Commit(v, Marked(v, MasterVerified), MasterVerified)
      else if TargetOf(v).Some? && Renews(v, env) then Go(v, VerifyPin(TargetOf(v).value))
      else Fall(v)
    case Broken(_) => Fall(v)
    case _ => v
  }

  function AtVerifyPin(v: View, env: Env, i: Input): (w: View)
    requires v.run.pc.VerifyPin?
    ensures Quiet(v, w)
  {
    match i
    case Fingerprint(text) => Go(v, Verify(Pinned(v.run.pc.m, text)))
    case Transient(_) => Leave(v)
    case Broken(_) => Fall(v)
    case _ => v
  }

  /** Only a comparison that fails rolls back; every other error leaves the Master alone. */
  function AtVerify(v: View, env: Env, i: Input): (w: View)
    requires v.run.pc.Verify?
    ensures Quiet(v, w)
  {
    match i
    case Probed(probe) => if Verifies(v.master, probe, v.run.pc.m) then Go(v, Verified) else Go(v, Rollback(MasterVerifying))
    case Transient(_) => Leave(v)
    case Broken(_) => Fall(v)
    case _ => v
  }

  function AtVerified(v: View, env: Env, i: Input): (w: View)
    ensures Quiet(v, w)
  {
    match i
    case Ok => Commit(v, Marked(v, MasterVerified), MasterVerified)
    case Broken(_) => Fall(v)
    case _ => v
  }

  function AtRollback(v: View, env: Env, i: Input): (w: View)
    requires v.run.pc.Rollback?
    ensures Quiet(v, w)
  {
    match i
    case Ok =>
      if v.job.snapshot.None? then Fall(v)
      else
        var s := v.job.snapshot.value;
        if !Flag(s.hasApiToken, false) then Go(v, RollWrite(v.run.pc.stage, FromSnapshot(s, None)))
        else if v.node.credentials.apiTokenRef.None? then Fall(v)
        else Go(v, RollWrite(v.run.pc.stage, FromSnapshot(s, v.node.credentials.apiTokenRef)))
    case Broken(_) => Fall(v)
    case _ => v
  }

  function AtRollWrite(v: View, env: Env, i: Input): (w: View)
    requires v.run.pc.RollWrite?
    ensures Outward(v, w) && w.servers == v.servers
  {
    var landedView := Written(v, v.run.pc.m, Reverter(v.id));
    match i
    case Ok => Go(landedView, RollCheck(v.run.pc.stage, v.run.pc.m))
    case Transient(landed) => Leave(if landed then landedView else v)
    case Broken(landed) => Fall(if landed then landedView else v)
    case _ => v
  }

  /** A checked rollback raises the error that caused it; a transient check defers instead. */
  function AtRollCheck(v: View, env: Env, i: Input): (w: View)
    ensures Quiet(v, w)
  {
    match i
    case Probed(_) => Fall(v)
    case Transient(_) => Leave(v)
    case Broken(_) => Fall(v)
    case _ => v
  }

  function AtMasterVerified(v: View, env: Env, i: Input): (w: View)
    ensures Quiet(v, w)
  {
    match i
    case Ok => Commit(v, Marked(v, FinalCheck), FinalCheck)
    case Broken(_) => Fall(v)
    case _ => v
  }

  function AtFinalCheck(v: View, env: Env, i: Input): (w: View)
    ensures Quiet(v, w)
  {
    match i
    case Ok =>
      if !HasRow(v) || v.vps[v.job.newVps.value].host == "" || !Renews(v, env) then Fall(v)
      else Go(v, if v.job.dryRun then FinalDone else Final)
    case Broken(_) => Fall(v)
    case _ => v
  }

  function AtFinal(v: View, env: Env, i: Input): (w: View)
    ensures Quiet(v, w)
  {
    match i
    case Seen(d) =>
      (match d
       case Reachable => Go(v, FinalDone)
       case Unreachable => Go(v, Rollback(FinalCheck))
       case Indeterminate => Leave(v))
    case Broken(_) => Fall(v)
    case _ => v
  }

  function AtFinalDone(v: View, env: Env, i: Input): (w: View)
    ensures Quiet(v, w)
  {
    match i
    case Ok => Commit(v, Marked(v, FinalVerified), FinalVerified)
    case Broken(_) => Fall(v)
    case _ => v
  }

  function AtFinalVerified(v: View, env: Env, i: Input): (w: View)
    ensures Quiet(v, w)
  {
    match i
    case Ok => Commit(v, Marked(v, OldVpsCleanup), OldVpsCleanup)
    case Broken(_) => Fall(v)
    case _ => v
  }

  /** The rows as the old-server guard sees them; all servers of a node share its provider. */
  function GuardJob(v: View): OldVpsGuard.GuardedJob {
    OldVpsGuard.GuardedJob(v.id, v.job.node, Some(v.job.oldVps), v.job.newVps, v.job.ipVerified,
                           v.job.deploymentVerified, v.job.masterUpdated, v.job.masterVerified, v.job.finalVerified)
  }

  function GuardVps(v: View, k: ServerId): OldVpsGuard.GuardedVps
    requires k in v.vps
  {
    OldVpsGuard.GuardedVps(k, v.vps[k].node, 0, k, v.vps[k].role, v.vps[k].state, v.vps[k].host)
  }

  function GuardDeployment(v: View): OldVpsGuard.GuardedDeployment
    requires v.deployment.Some?
  {
    OldVpsGuard.GuardedDeployment(v.id, v.deployment.value.vps, v.deployment.value.state)
  }

  predicate GuardPermits(v: View)
    requires HasRow(v) && v.deployment.Some? && v.job.oldVps in v.vps
  {
    OldVpsGuard.Permits(GuardJob(v), GuardDeployment(v), GuardVps(v, v.job.newVps.value), GuardVps(v, v.job.oldVps))
  }

  /** A transient input stands for the emergency stop. */
  function AtOldVpsCleanup(v: View, env: Env, i: Input): (w: View)
    ensures Quiet(v, w)
  {
    match i
    case Ok =>
      if !HasRow(v) || !HasDeployment(v) then Fall(v)
      else if v.job.dryRun then
        if Renews(v, env) then Go(v, DryDelete(v.job.newVps.value)) else Fall(v)
      else if v.job.oldVps !in v.vps then Fall(v)
      else if !env.cfg.allowOldDeletion then Leave(v)
      else if !GuardPermits(v) || !Renews(v, env) then Fall(v)
      else Go(v, OldGet(v.job.oldVps, v.vps[v.job.oldVps].host))
    case Transient(_) => Leave(v)
    case Broken(_) => Fall(v)
    case _ => v
  }

  /** A 404 here is the trace of an earlier deletion whose commit was lost. */
  function AtOldGet(v: View, env: Env, i: Input): (w: View)
    requires v.run.pc.OldGet?
    ensures Quiet(v, w)
  {
    var pc := v.run.pc;
    match i
    case NotFound => Go(v, OldDone)
    case Saw(k, name, ip) => if k != pc.server || ip != pc.host then Fall(v) else Go(v, OldDelete(pc.server))
    case Transient(_) => Leave(v)
    case Broken(_) => Fall(v)
    case _ => v
  }

  /** A 404 from the delete call itself is not caught here. */
  function AtOldDelete(v: View, env: Env, i: Input): (w: View)
    requires v.run.pc.OldDelete?
    ensures Outward(v, w) && w.master == v.master && w.log == v.log
  {
    var k := v.run.pc.server;
    match i
    case Ok => Go(Killed(v, k), OldDone)
    case NotFound => Fall(v)
    case Transient(landed) => Leave(if landed then Killed(v, k) else v)
    case Broken(landed) => Fall(if landed then Killed(v, k) else v)
    case _ => v
  }

  /** The node columns after a completed replacement, before the state moves. */
  function Promoted(n: NodeRow, host: string, c: PanelConfig): NodeRow {
    n.(host := host, port := c.port, failures := 0,
       successes := if n.successes >= 1 then n.successes else 1,
       credentials := Credentials(Some(c.username), Some(c.basePath), Some(c.passwordRef), Some(c.tokenRef)))
  }

  /** The old server retired, the candidate current, the node pointing at it and HEALTHY. */
  function Replaced(v: View): View
    requires HasPanel(v) && v.job.oldVps in v.vps
  {
    var k := v.job.newVps.value;
    var retired := SetVps(v, v.job.oldVps, v.vps[v.job.oldVps].(state := VpsDeleted));
    var swapped := SetVps(retired, k, retired.vps[k].(role := Current, state := VpsRunning));
    swapped.(job := v.job.(oldDeleted := true),
             node := Promoted(v.node, v.vps[k].host, v.deployment.value.config.value).(state := Healthy))
  }

  function AtOldDone(v: View, env: Env, i: Input): (w: View)
    ensures Inward(v, w)
  {
    match i
    case Ok =>
      if !HasPanel(v) || v.job.oldVps !in v.vps || !CanTransition(v.node.state, Healthy) then Fall(v)
      else Commit(v, Replaced(v), Completed)
    case Broken(_) => Fall(v)
    case _ => v
  }

  function AtDryDelete(v: View, env: Env, i: Input): (w: View)
    requires v.run.pc.DryDelete?
    ensures Outward(v, w) && w.master == v.master && w.log == v.log
  {
    var k := v.run.pc.server;
    match i
    case Ok => Go(Killed(v, k), DryDone)
    case NotFound => Go(v, DryDone)
    case Transient(_) => Leave(v)
    case Broken(_) => Fall(v)
    case _ => v
  }

  function AtDryDone(v: View, env: Env, i: Input): (w: View)
    ensures Inward(v, w) && w.node == v.node
  {
    match i
    case Ok =>
      if !HasRow(v) then Fall(v)
      else
        var k := v.job.newVps.value;
        Commit(v, SetVps(v, k, v.vps[k].(state := VpsDeleted)), Completed)
    case Broken(_) => Fall(v)
    case _ => v
  }

  // ---- Failure and cancellation ----

  /** The node row after an unsuccessful job; a refusal would roll the session back. */
  function NodeAfterFailure(n: NodeRow, j: Job): Result<NodeRow> {
    if !InWorkflow(n.state) then Success(n)
    else if j.force && !j.masterUpdated && j.original.Some? then Restored(n, j.original.value)
    else NodeLifecycle.Moved(n, NodeFailed)
  }

  /** Ends the job unsuccessfully and restores the node of a live one; a refusal changes nothing. */
  function Ended(v: View, target: Checkpoint): View {
    match (if v.job.dryRun then Success(v.node) else NodeAfterFailure(v.node, v.job))
    case Failure => v
    case Success(n) =>
      match Moved(v.job, target)
      case Failure => v
      case Success(j) => v.(job := j, node := n)
  }

  /** Records the failure and releases the lease. */
  function AtFailing(v: View): (w: View)
    ensures Inward(v, w)
  {
    if Terminal(v.job.checkpoint) then Leave(v) else Leave(Ended(v, Failed))
  }

  /** An operator's cancel; it takes no lease and looks only at the recorded switch. */
  function Cancel(v: View): View {
    if Terminal(v.job.checkpoint) || v.job.masterUpdated then v else Ended(v, Cancelled)
  }

  /** A worker takes the lease of an active job that nobody runs. */
  function Acquire(v: View): View {
    if v.job.active && v.run.pc == Idle then v.(run := Run(LoopTop, 0, Protect(v.job))) else v
  }

  /** The process dies: the rows stay, the program counter is lost. */
  function Crash(v: View): View { Go(v, Idle) }

  function AtStage(v: View, env: Env, i: Input): View
    requires v.run.pc.Enter?
  {
    match v.run.pc.stage
    case Created => AtCreated(v, env, i)
    case Provisioning => AtProvisioning(v, env, i)
    case Provisioned => AtProvisioned(v, env, i)
    case CheckingIp => AtCheckingIp(v, env, i)
    case TempCleanup => AtTempCleanup(v, env, i)
    case IpVerified => AtIpVerified(v, env, i)
    case Deploying => AtDeploying(v, env, i)
    case NodeVerified => AtNodeVerified(v, env, i)
    case MasterUpdating => AtMasterUpdating(v, env, i)
    case MasterUpdated => AtMasterUpdated(v, env, i)
    case MasterVerifying => AtMasterVerifying(v, env, i)
    case MasterVerified => AtMasterVerified(v, env, i)
    case FinalCheck => AtFinalCheck(v, env, i)
    case FinalVerified => AtFinalVerified(v, env, i)
    case OldVpsCleanup => AtOldVpsCleanup(v, env, i)
    case _ => Fall(v)
  }

  /** One step of the worker. */
  function Work(v: View, env: Env, i: Input): View {
    match v.run.pc
    case Idle => v
    case LoopTop => AtLoopTop(v, env, i)
    case Failing => AtFailing(v)
    case Enter(_) => AtStage(v, env, i)
    case Lookup(_, _, _, _, _) => AtLookup(v, env, i)
    case Mark(_, _, _) => AtMark(v, env, i)
    case Create(_, _, _, _) => AtCreate(v, env, i)
    case Persist(_, _, _) => AtPersist(v, env, i)
    case Await(_) => AtAwait(v, env, i)
    case Gone => AtGone(v, env, i)
    case Up(_) => AtUp(v, env, i)
    case Boot => AtBoot(v, env, i)
    case Rounds => AtRounds(v, env, i)
    case Judged(_) => AtJudged(v, env, i)
    case Reap(_, _) => AtReap(v, env, i)
    case ReapGet(_, _, _) => AtReapGet(v, env, i)
    case ReapDelete(_) => AtReapDelete(v, env, i)
    case Reaped => AtReaped(v, env, i)
    case Deploy(_) => AtDeploy(v, env, i)
    case Preflight => AtPreflight(v, env, i)
    case Shown(_) => AtShown(v, env, i)
    case Tested => AtTested(v, env, i)
    case SwitchPin(_) => AtSwitchPin(v, env, i)
    case Switch(_) => AtSwitch(v, env, i)
    case Switched => AtSwitched(v, env, i)
    case VerifyPin(_) => AtVerifyPin(v, env, i)
    case Verify(_) => AtVerify(v, env, i)
    case Verified => AtVerified(v, env, i)
    case Rollback(_) => AtRollback(v, env, i)
    case RollWrite(_, _) => AtRollWrite(v, env, i)
    case RollCheck(_, _) => AtRollCheck(v, env, i)
    case Final => AtFinal(v, env, i)
    case FinalDone => AtFinalDone(v, env, i)
    case OldGet(_, _) => AtOldGet(v, env, i)
    case OldDelete(_) => AtOldDelete(v, env, i)
    case OldDone => AtOldDone(v, env, i)
    case DryDelete(_) => AtDryDelete(v, env, i)
    case DryDone => AtDryDone(v, env, i)
  }

  // ---- What the outside world may answer ----

  /**
   A lookup by name returns only a live server of that name, and misses one only before it is
   visible: `visibility` bounds the delay after the request was recorded. Created servers get
   identities never seen before. Reads of one server report it truly.
   */
  predicate Plausible(v: View, env: Env, i: Input) {
    match v.run.pc
    case Lookup(_, _, _, _, named) =>
      (i.Match? ==> SameWorld(v, i.server) && v.servers[i.server].alive
                    && v.servers[i.server].name == CandidateName(v.id, named))
    case Create(_, _, _, _) =>
      (i.Made? || i.Unclear? || i.Botched? ==> i.server !in v.servers && i.server !in v.vps)
    case ReapGet(_, _, _) =>
      (i.Saw? ==> SameWorld(v, i.server) && v.servers[i.server].name == i.name)
    case OldGet(_, _) =>
      (i.Saw? ==> SameWorld(v, i.server) && v.servers[i.server].name == i.name)
    case _ => true
  }

  /** A recorded create request becomes visible to the name lookup within the grace period. */
  predicate Visible(v: View, env: Env, i: Input) {
    v.run.pc.Lookup? && i.NotFound? && !v.job.dryRun ==>
      forall k :: k in v.servers && v.servers[k].inCloud && v.servers[k].alive
                  && v.servers[k].name == CandidateName(v.id, v.run.pc.named) ==>
        env.clock < v.servers[k].markedAt + env.cfg.graceSeconds
  }
}
