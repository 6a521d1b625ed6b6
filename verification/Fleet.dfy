/** The whole service: all jobs, nodes, servers and everything that can happen to them. */
module Fleet {
  import opened Types
  import opened CheckpointGraph
  import opened NodeLifecycle
  import opened MasterAlgebra
  import opened Worker
  import Health

  /** A job row with its worker slot; exclusive leases give every job at most one worker. */
  datatype Slot = Slot(job: Job, run: Run, deployment: Option<Deployment>)

  datatype NodeSlot = NodeSlot(row: NodeRow, master: MasterNode, log: seq<MasterWrite>)

  datatype State = State(
    cfg: Config, clock: nat, jobs: map<JobId, Slot>, nodes: map<NodeId, NodeSlot>,
    vps: map<ServerId, Vps>, servers: map<ServerId, Server>)

  /**
   A request for a replacement; `admitted` stands for the pause, the emergency stop and the admission lock.
   */
  datatype Request = Request(
    node: NodeId, force: bool, key: Option<string>, dryRun: bool, admitted: bool, providerActive: bool)

  datatype Event =
    | Trigger(request: Request, id: JobId, current: ServerId)
    | Take(id: JobId)
    | Die(id: JobId)
    | Step(id: JobId, input: Input)
    | Stop(id: JobId)
    | Monitor(node: NodeId, decision: Decision)
    | SetMode(node: NodeId, disable: bool)
    | EditMaster(node: NodeId, record: MasterNode)
    | Tick

  predicate HasView(f: State, j: JobId) {
    j in f.jobs && f.jobs[j].job.node in f.nodes
  }

  function ViewOf(f: State, j: JobId): View
    requires HasView(f, j)
  {
    var s := f.jobs[j];
    var n := f.nodes[s.job.node];
    View(j, s.job, s.run, s.deployment, n.row, n.master, n.log, f.vps, f.servers)
  }

  /** Writes the rows of a job's view back. */
  function Put(f: State, v: View): State {
    f.(jobs := f.jobs[v.id := Slot(v.job, v.run, v.deployment)],
       nodes := f.nodes[v.job.node := NodeSlot(v.node, v.master, v.log)],
       vps := v.vps, servers := v.servers)
  }

  function Active(f: State): set<JobId> {
    set j | j in f.jobs && f.jobs[j].job.active
  }

  predicate OpenRow(row: Vps) { row.role == Replacement && row.state != VpsDeleted }

  /** The undeleted temporary servers in the registry. */
  function OpenRows(f: State): set<ServerId> {
    set k | k in f.vps && OpenRow(f.vps[k])
  }

  function EnvOf(f: State): Env {
    Env(f.cfg, f.clock, |OpenRows(f)|, |Active(f)|, true)
  }

  // ---- Admission ----

  predicate Busy(f: State, n: NodeId) {
    exists j :: j in f.jobs && f.jobs[j].job.active && f.jobs[j].job.node == n
  }

  predicate Known(f: State, key: string) {
    exists j :: j in f.jobs && f.jobs[j].job.requestKey == Some(key)
  }

  predicate HasCurrent(f: State, n: NodeId) {
    exists k :: k in f.vps && IsCurrent(f.vps[k], n)
  }

  predicate IsCurrent(row: Vps, n: NodeId) {
    row.node == n && row.role == Current && row.state != VpsDeleted
  }

  predicate KeyFits(key: Option<string>) {
    key.Some? ==> 8 <= |key.value| <= 64
  }

  /** What the node must allow: FAILED, or with force anything operational. */
  function Entered(n: NodeRow, force: bool): Result<NodeRow> {
    if force then Forced(n)
    else if n.state == NodeFailed then NodeLifecycle.Moved(n, Replacing)
    else Failure
  }

  datatype Reply = Existing(job: JobId) | Admitted | Refused

  /** The reply of a trigger, in the order of the checks. */
  ghost function Answer(f: State, r: Request): Reply {
    if !KeyFits(r.key) || !r.admitted then Refused
    else if r.key.Some? && Known(f, r.key.value) then
      var j :| j in f.jobs && f.jobs[j].job.requestKey == r.key;
      Existing(j)
    else if r.node !in f.nodes then Refused
    else if Busy(f, r.node) then
      var j :| j in f.jobs && f.jobs[j].job.active && f.jobs[j].job.node == r.node;
      Existing(j)
    else if Entered(f.nodes[r.node].row, r.force).Failure? then Refused
    else if |Active(f)| >= f.cfg.maxConcurrent then Refused
    else if !HasCurrent(f, r.node) || !r.providerActive then Refused
    else Admitted
  }

  function FreshJob(r: Request, n: NodeRow, maxAttempts: nat, current: ServerId): Job {
    Job(r.node, Created, true, r.dryRun, r.force, if r.force then Some(n.state) else None, r.key,
        0, maxAttempts, current, None, None, None, false, false, false, false, false, false,
        Found(n.state, n.failures, n.successes), None, 0)
  }

  /** The new job and, unless it is a dry run, its node in REPLACING. */
  function Admit(f: State, r: Request, id: JobId, current: ServerId): State
    requires r.node in f.nodes && Entered(f.nodes[r.node].row, r.force).Success?
  {
    var n := f.nodes[r.node];
    var job := FreshJob(r, n.row, f.cfg.maxAttempts, current);
    var row := if r.dryRun then n.row else Entered(n.row, r.force).value;
    f.(jobs := f.jobs[id := Slot(job, Run(Idle, 0, Protect(job)), None)],
       nodes := f.nodes[r.node := n.(row := row)])
  }

  // ---- Everything that happens ----

  ghost function After(f: State, e: Event): State {
    match e
    case Trigger(r, id, current) => if Answer(f, r).Admitted? then Admit(f, r, id, current) else f
    case Take(id) => if HasView(f, id) then Put(f, Acquire(ViewOf(f, id))) else f
    case Die(id) => if HasView(f, id) then Put(f, Crash(ViewOf(f, id))) else f
    case Step(id, i) => if HasView(f, id) then Put(f, Work(ViewOf(f, id), EnvOf(f), i)) else f
    case Stop(id) => if HasView(f, id) then Put(f, Cancel(ViewOf(f, id))) else f
    case Monitor(n, d) =>
      if n !in f.nodes then f
      else (match Health.Applied(f.cfg.health, f.nodes[n].row, d)
            case Success(o) => f.(nodes := f.nodes[n := f.nodes[n].(row := o.row)])
            case Failure => f)
    case SetMode(n, disable) =>
      if n !in f.nodes || Busy(f, n) then f
      else
        var row := f.nodes[n].row;
        if !disable && row.state != Disabled then f
        else (match NodeLifecycle.Moved(row, if disable then Disabled else Unknown)
              case Success(m) => f.(nodes := f.nodes[n := f.nodes[n].(row := m)])
              case Failure => f)
    case EditMaster(n, record) =>
      if n !in f.nodes then f
      else
        f.(nodes := f.nodes[n := f.nodes[n].(master := record, log := f.nodes[n].log + [MasterWrite(Outsider, record)])])
    case Tick => f.(clock := f.clock + 1)
  }

  ghost function History(f: State, es: seq<Event>): State {
    if es == [] then f else After(History(f, es[..|es| - 1]), es[|es| - 1])
  }
}
