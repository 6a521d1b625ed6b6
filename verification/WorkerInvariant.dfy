/** What holds of a job and its worker between any two steps, and why every step keeps it. */
module WorkerInvariant {
  import opened Types
  import opened CheckpointGraph
  import opened NodeLifecycle
  import opened MasterAlgebra
  import opened Worker

  // ---- The job row ----

  /** The verification markers form a prefix of the gate order. */
  predicate MarkersArePrefix(j: Job) {
    && (j.oldDeleted ==> j.finalVerified) && (j.finalVerified ==> j.masterVerified)
    && (j.masterVerified ==> j.masterUpdated) && (j.masterUpdated ==> j.deploymentVerified)
    && (j.deploymentVerified ==> j.ipVerified)
  }

  /** Exactly the gates behind an active checkpoint have been passed. */
  predicate GatesFit(j: Job) {
    var r := Rank(j.checkpoint);
    && (j.ipVerified <==> r >= 5) && (j.deploymentVerified <==> r >= 7) && (j.masterUpdated <==> r >= 9)
    && (j.masterVerified <==> r >= 11) && (j.finalVerified <==> r >= 13) && !j.oldDeleted
  }

  /**
   An inactive job at a checkpoint that is not terminal: the closing commit of a deployment has
   overwritten its cancel. A dry run can get further, as its master stages do not renew the lease.
   */
  predicate Stray(j: Job) {
    !j.active && 7 <= Rank(j.checkpoint) <= 12 && (!j.dryRun ==> j.checkpoint == NodeVerified)
  }

  /** The dispatches made and the ones that can still come from a checkpoint. */
  predicate WithinBound(j: Job, c: Checkpoint) {
    j.advances + Remaining(c, j.attempt, j.maxAttempts) <= 4 * j.maxAttempts + 10
  }

  predicate JobOk(j: Job, clock: nat) {
    && (j.active ==> !Terminal(j.checkpoint)) && (!Terminal(j.checkpoint) ==> j.active || Stray(j))
    && MarkersArePrefix(j)
    && (!Terminal(j.checkpoint) ==> GatesFit(j))
    && 1 <= j.maxAttempts && j.attempt <= j.maxAttempts
    && (j.active && j.checkpoint != Created ==> 1 <= j.attempt)
    && (j.checkpoint == Created ==> j.attempt == 0 && j.requestedAt.None?)
    && (j.active && Rank(j.checkpoint) <= 6 ==> j.snapshot.None?)
    && Restorable(j.found.state)
    && (if j.force then j.original == Some(j.found.state) else j.found.state == NodeFailed)
    && (j.requestedAt.Some? ==> j.requestedAt.value <= clock)
    && WithinBound(j, j.checkpoint)
  }

  // ---- The candidate ----

  predicate NamedFor(id: JobId, attempt: nat, k: ServerId, servers: map<ServerId, Server>) {
    k in servers && servers[k].name == CandidateName(id, attempt)
  }

  /** From the first server on there is a registered candidate; from the readiness check on it runs. */
  predicate CandidateOk(id: JobId, j: Job, vps: map<ServerId, Vps>, servers: map<ServerId, Server>) {
    var r := Rank(j.checkpoint);
    && (j.active && r <= 1 ==> j.newVps.None?)
    && (j.active && (r == 2 || r == 3 || r >= 5) ==> j.newVps.Some?)
    && (j.active && r >= 5 ==> j.verifiedVps == j.newVps)
    && (j.newVps.Some? ==>
          var k := j.newVps.value;
          && k in vps && NamedFor(id, j.attempt, k, servers) && servers[k].inCloud == !j.dryRun
          && vps[k].node == j.node
          && ((j.checkpoint == Completed && !j.dryRun) || vps[k].role == Replacement)
          && (j.active && (r == 3 || r >= 5) ==> vps[k].state == VpsRunning && vps[k].host != ""))
  }

  ghost predicate NamesOk(id: JobId, attempt: nat, dryRun: bool, servers: map<ServerId, Server>, clock: nat) {
    forall k :: k in servers && servers[k].name.CandidateName? && servers[k].name.job == id ==>
      && 1 <= servers[k].name.attempt <= attempt
      && servers[k].inCloud == !dryRun && servers[k].markedAt <= clock
  }

  /** Every attempt of a live job has at most one server, over the job's whole life. */
  ghost predicate OneServerPerAttempt(id: JobId, dryRun: bool, servers: map<ServerId, Server>) {
    !dryRun ==>
      forall k, m, attempt: nat {:trigger NamedFor(id, attempt, k, servers), NamedFor(id, attempt, m, servers)} ::
        NamedFor(id, attempt, k, servers) && NamedFor(id, attempt, m, servers) ==> k == m
  }

  /** The job is asking for a server, or a worker of it still is. */
  predicate Requesting(j: Job, pc: Pc) {
    (j.active && Rank(j.checkpoint) <= 1) 
    || pc == Enter(Provisioning) || pc.Lookup? || pc.Mark? || pc.Create? || pc.Persist?
  }

  /** A server created for the present request is unregistered, alive and carries the request's time. */
  ghost predicate RequestOk(id: JobId, attempt: nat, dryRun: bool, requestedAt: Option<nat>,
                            vps: map<ServerId, Vps>, servers: map<ServerId, Server>) {
    forall k :: NamedFor(id, attempt, k, servers) ==>
      k !in vps && (!dryRun ==> servers[k].alive && requestedAt == Some(servers[k].markedAt))
  }

  // ---- The old server, the deployment, the Master ----

  predicate Live(j: Job) { j.active && !j.dryRun }

  predicate OldOk(active: bool, oldVps: ServerId, node: NodeId, vps: map<ServerId, Vps>) {
    active ==> oldVps in vps && vps[oldVps].role == Current && vps[oldVps].state != VpsDeleted && vps[oldVps].node == node
  }

  predicate DeploymentOk(j: Job, d: Option<Deployment>, target: Option<Mutation>) {
    var r := Rank(j.checkpoint);
    j.active ==>
      && (r <= 5 ==> d.None?)
      && (r >= 6 ==> DeployedAt(j.attempt, d) && j.newVps == Some(d.value.vps))
      && (r >= 7 ==> d.value.state == DeploySucceeded && d.value.config.Some?)
      && (r >= 8 && !j.dryRun ==> target.Some?)
  }

  /** The record carries a target in every field a switch sets, with whatever fingerprint was read. */
  predicate OnTarget(n: MasterNode, t: Mutation) {
    Rewrite(n, t.apiToken) == Pinned(t, n.pinnedCertSha256) && n.hasApiToken
  }

  ghost predicate WasSwitched(id: JobId, log: seq<MasterWrite>) {
    exists k :: 0 <= k < |log| && log[k].author == Switcher(id)
  }

  ghost predicate LogOk(log: seq<MasterWrite>, master: MasterNode) {
    log != [] && log[|log| - 1].record == master
  }

  ghost predicate SwitchesOk(id: JobId, live: bool, c: Checkpoint, target: Option<Mutation>, log: seq<MasterWrite>) {
    live ==>
      && (Rank(c) >= 9 ==> WasSwitched(id, log))
      && (forall k :: 0 <= k < |log| && log[k].author == Switcher(id) ==>
            Rank(c) >= 8 && target.Some? && OnTarget(log[k].record, target.value))
  }

  ghost predicate NoSwitchAfter(id: JobId, k: nat, log: seq<MasterWrite>) {
    forall m :: k < m < |log| ==> log[m].author != Switcher(id)
  }

  /** A rollback writes the saved address, and after it the job never switches again. */
  ghost predicate RollbacksOk(id: JobId, live: bool, c: Checkpoint, snapshot: Option<Payload>, log: seq<MasterWrite>) {
    live ==>
      forall k :: 0 <= k < |log| && log[k].author == Reverter(id) ==>
        && Rank(c) >= 10 && NoSwitchAfter(id, k, log)
        && snapshot.Some? && log[k].record.address == FromSnapshot(snapshot.value, None).address
  }

  // ---- The worker ----

  function StageOf(pc: Pc): Checkpoint
    requires !pc.Idle? && !pc.LoopTop? && !pc.Failing?
  {
    match pc
    case Enter(stage) => stage
    case Lookup(_, _, _, _, _) => Provisioning
    case Mark(_, _, _) => Provisioning
    case Create(_, _, _, _) => Provisioning
    case Persist(_, _, _) => Provisioning
    case Await(_) => Provisioned
    case Gone => Provisioned
    case Up(_) => Provisioned
    case Boot => Provisioned
    case Rounds => CheckingIp
    case Judged(_) => CheckingIp
    case Reap(_, _) => TempCleanup
    case ReapGet(_, _, _) => TempCleanup
    case ReapDelete(_) => TempCleanup
    case Reaped => TempCleanup
    case Deploy(_) => Deploying
    case Preflight => NodeVerified
    case Shown(_) => NodeVerified
    case Tested => NodeVerified
    case SwitchPin(_) => MasterUpdating
    case Switch(_) => MasterUpdating
    case Switched => MasterUpdating
    case VerifyPin(_) => MasterVerifying
    case Verify(_) => MasterVerifying
    case Verified => MasterVerifying
    case Rollback(stage) => stage
    case RollWrite(stage, _) => stage
    case RollCheck(stage, _) => stage
    case Final => FinalCheck
    case FinalDone => FinalCheck
    case OldGet(_, _) => OldVpsCleanup
    case OldDelete(_) => OldVpsCleanup
    case OldDone => OldVpsCleanup
    case DryDelete(_) => OldVpsCleanup
    case DryDone => OldVpsCleanup
  }

  /** A handler is running. */
  predicate InStage(pc: Pc) {
    !pc.Idle? && !pc.LoopTop? && !pc.Failing?
  }

  ghost predicate NoServer(id: JobId, attempt: nat, dryRun: bool, servers: map<ServerId, Server>) {
    !dryRun ==> forall k :: !NamedFor(id, attempt, k, servers)
  }

  predicate RollbackStage(c: Checkpoint) { c == MasterVerifying || c == FinalCheck }

  /** What the locals of a running handler know. */
  ghost predicate LocalsOk(v: View, clock: nat) {
    match v.run.pc
    case Lookup(now, requestedAt, _, _, named) =>
      named == v.job.attempt && now <= clock && requestedAt == v.job.requestedAt
    case Mark(_, _, named) => named == v.job.attempt && NoServer(v.id, named, v.job.dryRun, v.servers)
    case Create(_, _, named, numbered) =>
      named == v.job.attempt && numbered == v.job.attempt && v.job.requestedAt.Some?
      && NoServer(v.id, named, v.job.dryRun, v.servers)
    case Persist(k, _, _) => NamedFor(v.id, v.job.attempt, k, v.servers) && v.servers[k].inCloud == !v.job.dryRun
    case Await(k) => v.job.newVps == Some(k)
    case Up(ip) => ip != ""
    case Judged(d) => d != Indeterminate
    case Boot => HasRow(v) && v.vps[v.job.newVps.value].state == VpsRunning && v.vps[v.job.newVps.value].host != ""
    case Reap(k, host) => v.job.newVps == Some(k) && k in v.vps && host == v.vps[k].host
    case ReapGet(k, host, named) =>
      v.job.newVps == Some(k) && named == v.job.attempt && k in v.vps && host == v.vps[k].host
    case ReapDelete(k) => v.job.newVps == Some(k)
    case Deploy(_) => GatesFit(v.job.(checkpoint := Deploying)) && WithinBound(v.job, Deploying)
    case Preflight => !v.job.dryRun
    case Shown(_) => !v.job.dryRun
    case Tested => !v.job.dryRun && v.job.snapshot.Some?
    case SwitchPin(m) => !v.job.dryRun && TargetOf(v) == Some(m)
    case Switch(m) =>
      !v.job.dryRun && TargetOf(v).Some? && m == Pinned(TargetOf(v).value, m.pinnedCertSha256)
    case Switched => !v.job.dryRun && WasSwitched(v.id, v.log)
    case VerifyPin(m) => !v.job.dryRun && TargetOf(v) == Some(m)
    case Verify(m) =>
      !v.job.dryRun && TargetOf(v).Some? && m == Pinned(TargetOf(v).value, m.pinnedCertSha256)
    case Verified => !v.job.dryRun
    case Rollback(stage) => !v.job.dryRun && RollbackStage(stage)
    case RollWrite(stage, m) =>
      && !v.job.dryRun && RollbackStage(stage)
      && v.job.snapshot.Some? && m == FromSnapshot(v.job.snapshot.value, m.apiToken)
    case RollCheck(stage, _) => !v.job.dryRun && RollbackStage(stage)
    case Final => !v.job.dryRun
    case OldGet(k, host) => !v.job.dryRun && k == v.job.oldVps && k in v.vps && host == v.vps[k].host
    case OldDelete(k) => !v.job.dryRun && k == v.job.oldVps
    case OldDone => !v.job.dryRun
    case DryDelete(k) => v.job.dryRun && v.job.newVps == Some(k)
    case DryDone => v.job.dryRun
    case _ => true
  }

  /**
   A running handler fits the job's checkpoint unless the job was cancelled under it; a stray job only starts
   one.
   */
  predicate StageFits(j: Job, run: Run) {
    InStage(run.pc) ==>
      var stage := StageOf(run.pc);
      && !Terminal(stage)
      && (j.active ==> j.checkpoint == stage && run.at == Protect(j))
      && (!j.active ==> (j.checkpoint == Cancelled && Rank(stage) <= 8) || (j.checkpoint == stage && run.pc == Enter(stage)))
  }

  predicate DispatchesOk(j: Job, run: Run) {
    run.dispatches <= j.advances + if run.pc.LoopTop? then 0 else 1
  }

  /**
   The invariant `Inv` of a job is `StoredOk` of its rows together with `RunOk` of its worker, as
   `InvMeans` says. It is stated through `Examined` so that a proof reads it only when it asks for it
   by `assert Examined(v, v)`, and passes it along unread otherwise.
   */
  predicate Examined(u: View, v: View) { u == v }

  ghost predicate AllStoredOk(v: View, clock: nat) {
    forall u: View {:trigger Examined(u, v)} :: Examined(u, v) ==>
      StoredOk(u.id, u.job, u.deployment, u.master, u.log, u.vps, u.servers, TargetOf(u), clock)
  }

  /** All the situations whose rows -- job, deployment, servers, Master -- agree with each other. */
  ghost function Consistent(clock: nat): iset<View> {
    iset v: View | AllStoredOk(v, clock)
  }

  ghost predicate RowsOk(v: View, clock: nat) { v in Consistent(clock) }

  ghost predicate StoredOk(id: JobId, j: Job, d: Option<Deployment>, master: MasterNode,
                           log: seq<MasterWrite>, vps: map<ServerId, Vps>, servers: map<ServerId, Server>,
                           target: Option<Mutation>, clock: nat) {
    && JobOk(j, clock)
    && CandidateOk(id, j, vps, servers)
    && NamesOk(id, j.attempt, j.dryRun, servers, clock)
    && OneServerPerAttempt(id, j.dryRun, servers)
    && OldOk(j.active, j.oldVps, j.node, vps)
    && DeploymentOk(j, d, target)
    && LogOk(log, master)
    && SwitchesOk(id, Live(j), j.checkpoint, target, log)
    && RollbacksOk(id, Live(j), j.checkpoint, j.snapshot, log)
  }

  /** The worker's place and locals. */
  ghost predicate RunOk(v: View, clock: nat) {
    && (Requesting(v.job, v.run.pc) ==>
          RequestOk(v.id, v.job.attempt, v.job.dryRun, v.job.requestedAt, v.vps, v.servers))
    && StageFits(v.job, v.run)
    && LocalsOk(v, clock)
    && DispatchesOk(v.job, v.run)
  }

  ghost predicate AllInOrder(v: View, clock: nat) {
    forall u: View {:trigger Examined(u, v)} :: Examined(u, v) ==> RowsOk(u, clock) && RunOk(u, clock)
  }

  /** All the situations of one job that are in order at a time. */
  ghost function InOrder(clock: nat): iset<View> {
    iset v: View | AllInOrder(v, clock)
  }

  /** The invariant of one job. */
  ghost predicate Inv(v: View, clock: nat) { v in InOrder(clock) }

  /** What the invariant says, spelled out. */
  lemma InvMeans(v: View, clock: nat)
    ensures Inv(v, clock) <==>
              && StoredOk(v.id, v.job, v.deployment, v.master, v.log, v.vps, v.servers, TargetOf(v), clock)
              && RunOk(v, clock)
  {
    hide StoredOk, RunOk;
    assert Examined(v, v);
  }

  lemma Opened(v: View, clock: nat)
    requires Inv(v, clock)
    ensures RowsOk(v, clock) && RunOk(v, clock)
  {
    assert Examined(v, v);
  }

  lemma Closed(v: View, clock: nat)
    requires RowsOk(v, clock) && RunOk(v, clock)
    ensures Inv(v, clock)
  {
  }

  lemma JobFacts(v: View, clock: nat)
    requires RowsOk(v, clock)
    ensures JobOk(v.job, clock) && CandidateOk(v.id, v.job, v.vps, v.servers)
  {
    assert Examined(v, v);
  }

  /** The rows do not depend on where the worker is. */
  lemma RowsIgnoreRun(v: View, run: Run, clock: nat)
    requires RowsOk(v, clock)
    ensures RowsOk(v.(run := run), clock)
  {
    hide StoredOk;
    assert Examined(v, v);
  }

  // ---- Giving up a dispatch ----

  lemma GivingUpKeeps(v: View, clock: nat)
    requires RowsOk(v, clock) && v.run.dispatches <= v.job.advances + 1
    requires v.job.active && Rank(v.job.checkpoint) <= 1 ==>
               RequestOk(v.id, v.job.attempt, v.job.dryRun, v.job.requestedAt, v.vps, v.servers)
    ensures Inv(Leave(v), clock)
    ensures Inv(Fall(v), clock)
  {
    RowsIgnoreRun(v, Leave(v).run, clock);
    RowsIgnoreRun(v, Fall(v).run, clock);
    Closed(Leave(v), clock);
    Closed(Fall(v), clock);
  }

  /** A step inside a stage that only moves the program counter. */
  lemma GoKeeps(v: View, pc: Pc, clock: nat)
    requires Inv(v, clock) && InStage(v.run.pc) && InStage(pc) && StageOf(pc) == StageOf(v.run.pc)
    requires LocalsOk(Go(v, pc), clock)
    requires (Requesting(v.job, pc) ==> Requesting(v.job, v.run.pc)) && !Stray(v.job)
    ensures Inv(Go(v, pc), clock)
  {
    Opened(v, clock);
    JobFacts(v, clock);
    RowsIgnoreRun(v, Go(v, pc).run, clock);
    Closed(Go(v, pc), clock);
  }

  /** Arriving at a place inside the running stage after the rows changed. */
  lemma PlaceKeeps(v: View, pc: Pc, clock: nat)
    requires RowsOk(v, clock) && InStage(pc) && StageFits(v.job, v.run.(pc := pc)) && LocalsOk(Go(v, pc), clock)
    requires v.run.dispatches <= v.job.advances + 1
    requires Requesting(v.job, pc) ==>
               RequestOk(v.id, v.job.attempt, v.job.dryRun, v.job.requestedAt, v.vps, v.servers)
    ensures Inv(Go(v, pc), clock)
  {
    RowsIgnoreRun(v, Go(v, pc).run, clock);
    Closed(Go(v, pc), clock);
  }

  /** The committed job after a stage. */
  function Advanced(j: Job, target: Checkpoint): Job {
    j.(checkpoint := target, active := j.active && !Terminal(target), advances := j.advances + 1)
  }

  function Done(v: View, target: Checkpoint): View { v.(job := Advanced(v.job, target)) }

  /**
   Ending a stage keeps the invariant as soon as the committed rows are right: on a job cancelled
   meanwhile the move is refused and the session rolled back; on a stray one it goes through.
   */
  lemma CommitKeeps(before: View, after: View, target: Checkpoint, clock: nat)
    requires Inv(before, clock) && InStage(before.run.pc)
    requires after.run == before.run && after.job.checkpoint == before.job.checkpoint
    requires Leads(StageOf(before.run.pc), target)
    requires !Terminal(before.job.checkpoint) ==>
               && RowsOk(Done(after, target), clock) && (!before.job.active ==> Stray(Done(after, target).job))
               && before.job.advances == after.job.advances
               && (Requesting(Advanced(after.job, target), LoopTop) ==>
                     RequestOk(after.id, after.job.attempt, after.job.dryRun, after.job.requestedAt, after.vps, after.servers))
    ensures Inv(Commit(before, after, target), clock)
  {
    Opened(before, clock);
    if !Terminal(before.job.checkpoint) {
      LeadsOn(StageOf(before.run.pc), target);
      var moved := Go(Done(after, target), LoopTop);
      RowsIgnoreRun(Done(after, target), moved.run, clock);
      Closed(moved, clock);
    } else {
      GivingUpKeeps(before, clock);
    }
  }

  lemma LeadsOn(c: Checkpoint, target: Checkpoint)
    requires Leads(c, target)
    ensures target != c && Allowed(c, target) && target != Failed && target != Cancelled
  {
  }

  // ---- Stage by stage: the committed rows, then the whole step ----

  lemma CreatedRows(v: View, clock: nat)
    requires RowsOk(v, clock) && v.job.active && v.job.checkpoint == Created
    ensures RowsOk(Done(Started(v), Provisioning), clock)
    ensures RequestOk(v.id, 1, v.job.dryRun, v.job.requestedAt, v.vps, v.servers)
  {
    assert Examined(v, v);
  }

  lemma CreatedKeeps(v: View, env: Env, i: Input)
    requires Inv(v, env.clock) && v.run.pc == Enter(Created)
    ensures Inv(AtCreated(v, env, i), env.clock)
  {
    Opened(v, env.clock);
    JobFacts(v, env.clock);
    if i == Ok {
      if v.job.active {
        CreatedRows(v, env.clock);
      }
      CommitKeeps(v, Started(v), Provisioning, env.clock);
    } else {
      GivingUpKeeps(v, env.clock);
    }
  }

  lemma ProvisioningKeeps(v: View, env: Env, i: Input)
    requires Inv(v, env.clock) && v.run.pc == Enter(Provisioning)
    ensures Inv(AtProvisioning(v, env, i), env.clock)
  {
    Opened(v, env.clock);
    JobFacts(v, env.clock);
    GivingUpKeeps(v, env.clock);
    if i == Ok {
      if v.job.active {
        assert v.job.newVps.None?;
      } else if HasRow(v) {
        CommitKeeps(v, v, Provisioned, env.clock);
      }
      if v.job.oldVps in v.vps {
        GoKeeps(v, Lookup(env.clock, v.job.requestedAt, env.temps, env.actives, v.job.attempt), env.clock);
      }
    }
  }

  /** A miss that may lead to a create shows that nothing was created under this name. */
  lemma MissMeansNoServer(v: View, env: Env)
    requires Inv(v, env.clock) && v.run.pc.Lookup? && Visible(v, env, NotFound)
    requires v.run.pc.requestedAt.Some? ==> v.run.pc.now - v.run.pc.requestedAt.value >= env.cfg.graceSeconds
    ensures NoServer(v.id, v.job.attempt, v.job.dryRun, v.servers)
  {
    assert Examined(v, v);
  }

  lemma LookupKeeps(v: View, env: Env, i: Input)
    requires Inv(v, env.clock) && v.run.pc.Lookup? && Plausible(v, env, i) && Visible(v, env, i)
    ensures Inv(AtLookup(v, env, i), env.clock)
  {
    Opened(v, env.clock);
    GivingUpKeeps(v, env.clock);
    var pc := v.run.pc;
    if i.Match? {
      GoKeeps(v, Persist(i.server, i.state, i.ip), env.clock);
    } else if i.NotFound? {
      if pc.requestedAt.None? || pc.now - pc.requestedAt.value >= env.cfg.graceSeconds {
        MissMeansNoServer(v, env);
        GoKeeps(v, Mark(pc.temps, pc.actives, pc.named), env.clock);
      }
    }
  }

  /** Restamping a request under which nothing was created. */
  lemma StampedRows(v: View, clock: nat)
    requires RowsOk(v, clock) && v.job.checkpoint != Created
    ensures RowsOk(v.(job := v.job.(requestedAt := Some(clock))), clock)
  {
    hide JobOk, CandidateOk, NamesOk, DeploymentOk, TargetFor, SwitchesOk, RollbacksOk, LogOk, OneServerPerAttempt,
      OldOk;
    StampedParts(v, v.job.(requestedAt := Some(clock)), clock);
    assert Examined(v, v);
  }

  lemma StampedParts(v: View, j: Job, clock: nat)
    requires RowsOk(v, clock) && v.job.checkpoint != Created && j == v.job.(requestedAt := Some(clock))
    ensures JobOk(j, clock) && CandidateOk(v.id, j, v.vps, v.servers) && DeploymentOk(j, v.deployment, TargetOf(v))
  {
    hide NamesOk, TargetFor, SwitchesOk, RollbacksOk, LogOk, OneServerPerAttempt, OldOk, Remaining;
    assert Examined(v, v);
  }

  lemma MarkKeeps(v: View, env: Env, i: Input)
    requires Inv(v, env.clock) && v.run.pc.Mark?
    ensures Inv(AtMark(v, env, i), env.clock)
  {
    Opened(v, env.clock);
    if i == Ok && Renews(v, env) {
      var pc := v.run.pc;
      StampedRows(v, env.clock);
      PlaceKeeps(v.(job := v.job.(requestedAt := Some(env.clock))),
                 Create(pc.temps, pc.actives, pc.named, v.job.attempt), env.clock);
    } else {
      GivingUpKeeps(v, env.clock);
    }
  }

  /**
   Every server a step creates carries the time of a request that was recorded before, and the attempt's
   name.
   */
  lemma CreateIsStamped(v: View, env: Env, i: Input, k: ServerId)
    requires Inv(v, env.clock) && v.run.pc.Create? && k !in v.servers && k in AtCreate(v, env, i).servers
    ensures var s := AtCreate(v, env, i).servers[k];
            && v.job.requestedAt == Some(s.markedAt) && s.markedAt <= env.clock
            && s.name == CandidateName(v.id, v.job.attempt) && s.inCloud == !v.job.dryRun
  {
    Opened(v, env.clock);
    JobFacts(v, env.clock);
  }

  /** A server that appears under the present request. */
  lemma BornRows(v: View, born: View, k: ServerId, ip: string, clock: nat)
    requires RowsOk(v, clock) && v.job.requestedAt.Some? && NoServer(v.id, v.job.attempt, v.job.dryRun, v.servers)
    requires k !in v.servers && 1 <= v.job.attempt && born == Born(v, k, ip, v.job.attempt)
    ensures RowsOk(born, clock)
  {
    assert Examined(v, v);
    assert forall m, a: nat :: NamedFor(v.id, a, m, born.servers) ==>
        (m == k && a == v.job.attempt) || NamedFor(v.id, a, m, v.servers);
    assert OneServerPerAttempt(v.id, v.job.dryRun, born.servers);
  }

  lemma BornRequest(v: View, born: View, k: ServerId, ip: string)
    requires RequestOk(v.id, v.job.attempt, v.job.dryRun, v.job.requestedAt, v.vps, v.servers)
    requires v.job.requestedAt.Some? && k !in v.servers && k !in v.vps && born == Born(v, k, ip, v.job.attempt)
    ensures RequestOk(v.id, v.job.attempt, v.job.dryRun, v.job.requestedAt, born.vps, born.servers)
    ensures NamedFor(v.id, v.job.attempt, k, born.servers) && born.servers[k].inCloud == !v.job.dryRun
  {
    assert forall m :: NamedFor(v.id, v.job.attempt, m, born.servers) ==>
        m == k || NamedFor(v.id, v.job.attempt, m, v.servers);
  }

  lemma CreateKeeps(v: View, env: Env, i: Input)
    requires Inv(v, env.clock) && v.run.pc.Create? && Plausible(v, env, i)
    ensures Inv(AtCreate(v, env, i), env.clock)
  {
    Opened(v, env.clock);
    JobFacts(v, env.clock);
    if MayCreate(env.cfg, v.run.pc.numbered, v.run.pc.temps, v.run.pc.actives) && (i.Made? || i.Unclear? || i.Botched?) {
      var born := Born(v, i.server, i.ip, v.run.pc.named);
      BornRows(v, born, i.server, i.ip, env.clock);
      BornRequest(v, born, i.server, i.ip);
      if i.Made? {
        PlaceKeeps(born, Persist(i.server, i.state, i.ip), env.clock);
      } else {
        GivingUpKeeps(born, env.clock);
      }
    } else {
      GivingUpKeeps(v, env.clock);
    }
  }

  lemma PersistRows(v: View, k: ServerId, row: Vps, clock: nat)
    requires RowsOk(v, clock) && v.job.active && v.job.checkpoint == Provisioning
    requires NamedFor(v.id, v.job.attempt, k, v.servers) && v.servers[k].inCloud == !v.job.dryRun && k !in v.vps
    requires row.node == v.job.node && row.role == Replacement
    ensures RowsOk(Done(Registered(v, k, row), Provisioned), clock)
  {
    assert Examined(v, v);
  }

  lemma PersistFacts(v: View, clock: nat)
    requires Inv(v, clock) && v.run.pc.Persist?
    ensures v.run.pc.server !in v.vps && (v.job.active ==> v.job.newVps.None?)
    ensures NamedFor(v.id, v.job.attempt, v.run.pc.server, v.servers)
    ensures v.servers[v.run.pc.server].inCloud == !v.job.dryRun
  {
    Opened(v, clock);
    JobFacts(v, clock);
  }

  lemma RegisteredKeepsPlace(v: View, k: ServerId, row: Vps)
    ensures Registered(v, k, row).run == v.run && Registered(v, k, row).job.checkpoint == v.job.checkpoint
    ensures Registered(v, k, row).job.advances == v.job.advances
    ensures !Requesting(Advanced(Registered(v, k, row).job, Provisioned), LoopTop)
  {
  }

  lemma PersistedKeeps(v: View, k: ServerId, row: Vps, clock: nat)
    requires Inv(v, clock) && v.run.pc.Persist? && v.run.pc.server == k && v.job.active
    requires row.node == v.job.node && row.role == Replacement
    ensures Inv(Commit(v, Registered(v, k, row), Provisioned), clock)
  {
    hide RequestOk, LocalsOk, Commit, Registered, Requesting;
    RegisteredKeepsPlace(v, k, row);
    Opened(v, clock);
    PersistFacts(v, clock);
    PersistRows(v, k, row, clock);
    CommitKeeps(v, Registered(v, k, row), Provisioned, clock);
  }

  lemma PersistKeeps(v: View, env: Env, i: Input)
    requires Inv(v, env.clock) && v.run.pc.Persist?
    ensures Inv(AtPersist(v, env, i), env.clock)
  {
    var pc := v.run.pc;
    if i == Ok && Renews(v, env) {
      PersistFacts(v, env.clock);
      PersistedKeeps(v, pc.server, Vps(v.job.node, Replacement, pc.state, pc.ip), env.clock);
    } else {
      Opened(v, env.clock);
      GivingUpKeeps(v, env.clock);
    }
  }

  lemma ProvisionedKeeps(v: View, env: Env, i: Input)
    requires Inv(v, env.clock) && v.run.pc == Enter(Provisioned)
    ensures Inv(AtProvisioned(v, env, i), env.clock)
  {
    Opened(v, env.clock);
    GivingUpKeeps(v, env.clock);
    if i == Ok && HasRow(v) && Renews(v, env) {
      GoKeeps(v, Await(v.job.newVps.value), env.clock);
    }
  }

  lemma AwaitKeeps(v: View, env: Env, i: Input)
    requires Inv(v, env.clock) && v.run.pc.Await?
    ensures Inv(AtAwait(v, env, i), env.clock)
  {
    Opened(v, env.clock);
    if i.Ready? && i.ip != "" {
      GoKeeps(v, Up(i.ip), env.clock);
    } else if i == NotFound {
      GoKeeps(v, Gone, env.clock);
    } else {
      GivingUpKeeps(v, env.clock);
    }
  }

  /** Changing the state or address of the candidate's row on the way from PROVISIONED. */
  lemma CandidateRows(v: View, row: Vps, target: Checkpoint, clock: nat)
    requires RowsOk(v, clock) && v.job.active && HasRow(v)
    requires v.job.checkpoint == Provisioned && (target == Provisioned || target == CheckingIp || target == TempCleanup)
    requires row.node == v.vps[v.job.newVps.value].node && row.role == Replacement
    requires target == CheckingIp ==> row.state == VpsRunning && row.host != ""
    ensures target == Provisioned ==> RowsOk(SetVps(v, v.job.newVps.value, row), clock)
    ensures target != Provisioned ==> RowsOk(Done(SetVps(v, v.job.newVps.value, row), target), clock)
  {
    hide LogOk, OneServerPerAttempt;
    assert Examined(v, v);
  }

  lemma GoneKeeps(v: View, env: Env, i: Input)
    requires Inv(v, env.clock) && v.run.pc == Gone
    ensures Inv(AtGone(v, env, i), env.clock)
  {
    Opened(v, env.clock);
    JobFacts(v, env.clock);
    if i == Ok && HasRow(v) {
      var k := v.job.newVps.value;
      if v.job.active {
        CandidateRows(v, v.vps[k].(state := VpsDeleted), TempCleanup, env.clock);
      }
      CommitKeeps(v, SetVps(v, k, v.vps[k].(state := VpsDeleted)), TempCleanup, env.clock);
    } else {
      GivingUpKeeps(v, env.clock);
    }
  }

  lemma UpKeeps(v: View, env: Env, i: Input)
    requires Inv(v, env.clock) && v.run.pc.Up?
    ensures Inv(AtUp(v, env, i), env.clock)
  {
    Opened(v, env.clock);
    JobFacts(v, env.clock);
    if i == Ok && HasRow(v) && Renews(v, env) {
      var row := v.vps[v.job.newVps.value].(state := VpsRunning, host := v.run.pc.ip);
      CandidateRows(v, row, Provisioned, env.clock);
      PlaceKeeps(SetVps(v, v.job.newVps.value, row), Boot, env.clock);
    } else {
      GivingUpKeeps(v, env.clock);
    }
  }

  lemma BootRows(v: View, clock: nat)
    requires RowsOk(v, clock) && v.job.active && v.job.checkpoint == Provisioned && HasRow(v)
    requires v.vps[v.job.newVps.value].state == VpsRunning && v.vps[v.job.newVps.value].host != ""
    ensures RowsOk(Done(v, CheckingIp), clock)
  {
    assert Examined(v, v);
    var k := v.job.newVps.value;
    CandidateRows(v, v.vps[k], CheckingIp, clock);
    assert v.vps[k := v.vps[k]] == v.vps;
  }

  lemma BootKeeps(v: View, env: Env, i: Input)
    requires Inv(v, env.clock) && v.run.pc == Boot
    ensures Inv(AtBoot(v, env, i), env.clock)
  {
    Opened(v, env.clock);
    if i == Ok && Renews(v, env) {
      BootRows(v, env.clock);
      CommitKeeps(v, v, CheckingIp, env.clock);
    } else {
      GivingUpKeeps(v, env.clock);
    }
  }

  lemma CheckingIpKeeps(v: View, env: Env, i: Input)
    requires Inv(v, env.clock) && v.run.pc == Enter(CheckingIp)
    ensures Inv(AtCheckingIp(v, env, i), env.clock)
  {
    Opened(v, env.clock);
    GivingUpKeeps(v, env.clock);
    if i == Ok {
      GoKeeps(v, if v.job.dryRun then Judged(Reachable) else Rounds, env.clock);
    }
  }

  lemma RoundsKeeps(v: View, env: Env, i: Input)
    requires Inv(v, env.clock) && v.run.pc == Rounds
    ensures Inv(AtRounds(v, env, i), env.clock)
  {
    Opened(v, env.clock);
    GivingUpKeeps(v, env.clock);
    if i.Observed? && Consensus.Verdict(i.rounds, env.cfg.requiredConsensus) != Indeterminate {
      GoKeeps(v, Judged(Consensus.Verdict(i.rounds, env.cfg.requiredConsensus)), env.clock);
    }
  }

  lemma RejectedKeeps(v: View, clock: nat)
    requires Inv(v, clock) && v.run.pc.Judged?
    ensures Inv(Commit(v, v, TempCleanup), clock)
  {
    Opened(v, clock);
    JobFacts(v, clock);
    if v.job.active {
      RejectedRows(v, clock);
    }
    CommitKeeps(v, v, TempCleanup, clock);
  }

  lemma RejectedRows(v: View, clock: nat)
    requires RowsOk(v, clock) && v.job.active && v.job.checkpoint == CheckingIp
    ensures RowsOk(Done(v, TempCleanup), clock)
  {
    hide LogOk, OneServerPerAttempt, NamesOk, OldOk;
    assert Examined(v, v);
  }

  lemma AcceptedRows(v: View, clock: nat)
    requires RowsOk(v, clock) && v.job.active && v.job.checkpoint == CheckingIp
    ensures RowsOk(Done(Accepted(v), IpVerified), clock)
  {
    assert Examined(v, v);
  }

  lemma AcceptedKeeps(v: View, clock: nat)
    requires Inv(v, clock) && v.run.pc.Judged?
    ensures Inv(Commit(v, Accepted(v), IpVerified), clock)
  {
    Opened(v, clock);
    if v.job.active {
      AcceptedRows(v, clock);
    }
    CommitKeeps(v, Accepted(v), IpVerified, clock);
  }

  lemma JudgedKeeps(v: View, env: Env, i: Input)
    requires Inv(v, env.clock) && v.run.pc.Judged?
    ensures Inv(AtJudged(v, env, i), env.clock)
  {
    if i != Ok {
      Opened(v, env.clock);
      GivingUpKeeps(v, env.clock);
    } else if v.run.pc.d == Unreachable {
      RejectedKeeps(v, env.clock);
    } else {
      AcceptedKeeps(v, env.clock);
    }
  }

  lemma TempCleanupKeeps(v: View, env: Env, i: Input)
    requires Inv(v, env.clock) && v.run.pc == Enter(TempCleanup)
    ensures Inv(AtTempCleanup(v, env, i), env.clock)
  {
    Opened(v, env.clock);
    if i != Ok || !Renews(v, env) {
      GivingUpKeeps(v, env.clock);
    } else if HasRow(v) && v.vps[v.job.newVps.value].state != VpsDeleted {
      GoKeeps(v, Reap(v.job.newVps.value, v.vps[v.job.newVps.value].host), env.clock);
    } else {
      GoKeeps(v, Reaped, env.clock);
    }
  }

  lemma ReapKeeps(v: View, env: Env, i: Input)
    requires Inv(v, env.clock) && v.run.pc.Reap?
    ensures Inv(AtReap(v, env, i), env.clock)
  {
    Opened(v, env.clock);
    GivingUpKeeps(v, env.clock);
    if i == Ok {
      GoKeeps(v, ReapGet(v.run.pc.server, v.run.pc.host, v.job.attempt), env.clock);
    }
  }

  lemma ReapGetKeeps(v: View, env: Env, i: Input)
    requires Inv(v, env.clock) && v.run.pc.ReapGet?
    ensures Inv(AtReapGet(v, env, i), env.clock)
  {
    Opened(v, env.clock);
    var after := AtReapGet(v, env, i);
    if after == Go(v, Reaped) {
      GoKeeps(v, Reaped, env.clock);
    } else if after == Go(v, ReapDelete(v.run.pc.server)) {
      GoKeeps(v, ReapDelete(v.run.pc.server), env.clock);
    } else {
      assert after == Leave(v) || after == Fall(v) || after == v;
      GivingUpKeeps(v, env.clock);
    }
  }

  /** A deleted server stays known by name; only a live request would mind. */
  lemma KilledRows(v: View, k: ServerId, clock: nat)
    requires RowsOk(v, clock)
    ensures RowsOk(Killed(v, k), clock)
  {
    assert Examined(v, v);
    var after := Killed(v, k);
    assert forall m, a: nat :: NamedFor(v.id, a, m, after.servers) <==> NamedFor(v.id, a, m, v.servers);
    assert OneServerPerAttempt(v.id, v.job.dryRun, after.servers);
  }

  lemma KilledKeeps(v: View, clock: nat)
    requires Inv(v, clock) && v.run.pc.ReapDelete?
    ensures Inv(Go(Killed(v, v.run.pc.server), Reaped), clock)
    ensures Inv(Leave(Killed(v, v.run.pc.server)), clock)
    ensures Inv(Fall(Killed(v, v.run.pc.server)), clock)
  {
    Opened(v, clock);
    var after := Killed(v, v.run.pc.server);
    KilledRows(v, v.run.pc.server, clock);
    PlaceKeeps(after, Reaped, clock);
    GivingUpKeeps(after, clock);
  }

  lemma ReapDeleteKeeps(v: View, env: Env, i: Input)
    requires Inv(v, env.clock) && v.run.pc.ReapDelete?
    ensures Inv(AtReapDelete(v, env, i), env.clock)
  {
    Opened(v, env.clock);
    match i {
      case Ok => KilledKeeps(v, env.clock);
      case Transient(landed) => KilledKeeps(v, env.clock); GivingUpKeeps(v, env.clock);
      case Broken(landed) => KilledKeeps(v, env.clock); GivingUpKeeps(v, env.clock);
      case _ => GivingUpKeeps(v, env.clock);
    }
  }

  lemma UnlinkedRows(v: View, clock: nat)
    requires RowsOk(v, clock)
    requires v.job.checkpoint == Cancelled || (v.job.active && v.job.checkpoint == TempCleanup)
    ensures RowsOk(Unlinked(v), clock)
  {
    assert Examined(v, v);
  }

  lemma RetryRows(v: View, clock: nat)
    requires RowsOk(v, clock) && v.job.active && v.job.checkpoint == TempCleanup && v.job.attempt < v.job.maxAttempts
    ensures RowsOk(Done(Retried(v), Provisioning), clock)
    ensures RequestOk(v.id, v.job.attempt + 1, v.job.dryRun, None, Retried(v).vps, Retried(v).servers)
  {
    hide LogOk, OneServerPerAttempt, OnTarget;
    assert Examined(v, v);
  }

  lemma LastAttemptKeeps(v: View, clock: nat)
    requires Inv(v, clock) && v.run.pc == Reaped
    ensures Inv(Fall(Unlinked(v)), clock)
  {
    Opened(v, clock);
    UnlinkedRows(v, clock);
    GivingUpKeeps(Unlinked(v), clock);
  }

  lemma RetriedKeepsPlace(v: View)
    ensures Retried(v).run == v.run && Retried(v).job.checkpoint == v.job.checkpoint
    ensures Retried(v).job.advances == v.job.advances && Retried(v).id == v.id
    ensures Retried(v).job.attempt == v.job.attempt + 1 && Retried(v).job.dryRun == v.job.dryRun
    ensures Retried(v).job.requestedAt == None
  {
  }

  lemma RetryKeeps(v: View, clock: nat)
    requires Inv(v, clock) && v.run.pc == Reaped && v.job.attempt < v.job.maxAttempts
    ensures Inv(Commit(v, Retried(v), Provisioning), clock)
  {
    hide RequestOk, LocalsOk, Commit, Retried, Requesting;
    RetriedKeepsPlace(v);
    Opened(v, clock);
    if v.job.active {
      RetryRows(v, clock);
    }
    CommitKeeps(v, Retried(v), Provisioning, clock);
  }

  lemma ReapedKeeps(v: View, env: Env, i: Input)
    requires Inv(v, env.clock) && v.run.pc == Reaped
    ensures Inv(AtReaped(v, env, i), env.clock)
  {
    Opened(v, env.clock);
    if i != Ok {
      GivingUpKeeps(v, env.clock);
    } else if v.job.attempt < v.job.maxAttempts {
      RetryKeeps(v, env.clock);
    } else {
      LastAttemptKeeps(v, env.clock);
    }
  }

  lemma IpVerifiedRows(v: View, clock: nat)
    requires RowsOk(v, clock) && v.job.active && v.job.checkpoint == IpVerified
    ensures v.job.newVps.Some? && v.deployment.None?
    ensures var d := Some(Deployment(v.job.attempt, v.job.newVps.value, DeployPending, None));
            var n := if !v.job.dryRun && v.node.state == Replacing then v.node.(state := NodeDeploying) else v.node;
            RowsOk(Done(v.(deployment := d, node := n), Deploying), clock)
  {
    assert Examined(v, v);
  }

  lemma IpVerifiedKeeps(v: View, env: Env, i: Input)
    requires Inv(v, env.clock) && v.run.pc == Enter(IpVerified)
    ensures Inv(AtIpVerified(v, env, i), env.clock)
  {
    Opened(v, env.clock);
    JobFacts(v, env.clock);
    if i == Ok && HasRow(v) {
      if v.job.active {
        IpVerifiedRows(v, env.clock);
      }
      var d := if HasDeployment(v) then v.deployment
               else Some(Deployment(v.job.attempt, v.job.newVps.value, DeployPending, None));
      var n := if !v.job.dryRun && v.node.state == Replacing then v.node.(state := NodeDeploying) else v.node;
      CommitKeeps(v, v.(deployment := d, node := n), Deploying, env.clock);
    } else {
      GivingUpKeeps(v, env.clock);
    }
  }

  lemma DeployingFacts(v: View, clock: nat)
    requires Inv(v, clock) && v.run.pc == Enter(Deploying) && v.job.active
    ensures GatesFit(v.job.(checkpoint := Deploying)) && WithinBound(v.job, Deploying)
  {
    Opened(v, clock);
    JobFacts(v, clock);
  }

  lemma DeployingKeeps(v: View, env: Env, i: Input)
    requires Inv(v, env.clock) && v.run.pc == Enter(Deploying)
    ensures Inv(AtDeploying(v, env, i), env.clock)
  {
    Opened(v, env.clock);
    if AtDeploying(v, env, i) == Go(v, Deploy(v.node.state)) {
      DeployingFacts(v, env.clock);
      GoKeeps(v, Deploy(v.node.state), env.clock);
    } else {
      GivingUpKeeps(v, env.clock);
    }
  }

  /** The deployment row may change freely until its gate is passed. */
  lemma DeploymentRows(v: View, d: Deployment, clock: nat)
    requires RowsOk(v, clock) && HasDeployment(v) && d == v.deployment.value.(state := d.state)
    requires v.job.checkpoint == Deploying || v.job.checkpoint == Cancelled
    ensures RowsOk(v.(deployment := Some(d)), clock)
  {
    assert Examined(v, v);
  }

  lemma InstalledRows(v: View, config: PanelConfig, seen: NodeState, clock: nat)
    requires RowsOk(v, clock) && HasDeployment(v) && v.deployment.value.state == DeploySucceeded
    requires (v.job.active && v.job.checkpoint == Deploying) || (!v.job.active && v.job.checkpoint == Cancelled)
    requires GatesFit(v.job.(checkpoint := Deploying)) && WithinBound(v.job, Deploying)
    ensures RowsOk(Deployed(v, v.deployment.value.(config := Some(config)), seen), clock)
  {
    assert Examined(v, v);
  }

  lemma DeployStepKeeps(v: View, s: DeployState, clock: nat)
    requires Inv(v, clock) && v.run.pc.Deploy? && HasDeployment(v)
    ensures var after := v.(deployment := Some(v.deployment.value.(state := s)));
            Inv(Fall(after), clock) && (v.job.active ==> Inv(after, clock))
  {
    Opened(v, clock);
    var after := v.(deployment := Some(v.deployment.value.(state := s)));
    DeploymentRows(v, v.deployment.value.(state := s), clock);
    GivingUpKeeps(after, clock);
    if v.job.active {
      PlaceKeeps(after, v.run.pc, clock);
      assert Go(after, v.run.pc) == after;
    }
  }

  lemma InstalledKeeps(v: View, config: PanelConfig, clock: nat)
    requires Inv(v, clock) && v.run.pc.Deploy? && HasDeployment(v) && v.deployment.value.state == DeploySucceeded
    ensures Inv(Go(Deployed(v, v.deployment.value.(config := Some(config)), v.run.pc.seen), LoopTop), clock)
  {
    Opened(v, clock);
    InstalledRows(v, config, v.run.pc.seen, clock);
    var after := Deployed(v, v.deployment.value.(config := Some(config)), v.run.pc.seen);
    RowsIgnoreRun(after, Go(after, LoopTop).run, clock);
    Closed(Go(after, LoopTop), clock);
  }

  lemma DeployKeeps(v: View, env: Env, i: Input)
    requires Inv(v, env.clock) && v.run.pc.Deploy?
    ensures Inv(AtDeploy(v, env, i), env.clock)
  {
    Opened(v, env.clock);
    if !HasDeployment(v) {
      GivingUpKeeps(v, env.clock);
    } else {
      var s := v.deployment.value.state;
      match i {
        case Ok =>
          DeployStepKeeps(v, if Renews(v, env) then NextDeployState(s) else if s == DeployVerifying then DeploySucceeded else DeployFailed, env.clock);
        case Installed(config) =>
          if s == DeploySucceeded {
            InstalledKeeps(v, config, env.clock);
          }
        case Broken(_) =>
          DeployStepKeeps(v, FailedDeployment(v.deployment.value).state, env.clock);
        case _ =>
      }
    }
  }

  lemma NodeVerifiedRows(v: View, s: Payload, clock: nat)
    requires RowsOk(v, clock) && v.job.checkpoint == NodeVerified && (v.job.active || v.job.dryRun)
    requires v.job.snapshot.Some? ==> s == v.job.snapshot.value
    requires v.job.dryRun || TargetOf(Snapped(v, s)).Some?
    ensures RowsOk(Done(Snapped(v, s), MasterUpdating), clock)
  {
    hide LogOk, OneServerPerAttempt, NamesOk, OldOk;
    assert Examined(v, v);
    assert TargetOf(Done(Snapped(v, s), MasterUpdating)) == TargetOf(Snapped(v, s));
  }

  lemma SnappedKeepsPlace(v: View, s: Payload)
    ensures var after := Snapped(v, s);
            && after.run == v.run && Protect(after.job) == Protect(v.job) && after.job.active == v.job.active
            && after.job.advances == v.job.advances && after.job.dryRun == v.job.dryRun
            && after.job.snapshot == Some(s) && after.job.checkpoint == v.job.checkpoint
  {
  }

  lemma SnapshotKeeps(v: View, s: Payload, clock: nat)
    requires Inv(v, clock) && InStage(v.run.pc) && StageOf(v.run.pc) == NodeVerified
    requires v.job.snapshot.Some? ==> s == v.job.snapshot.value
    requires v.job.dryRun || (TargetOf(Snapped(v, s)).Some? && (v.job.active || v.job.checkpoint == Cancelled))
    ensures Inv(Commit(v, Snapped(v, s), MasterUpdating), clock)
  {
    hide LocalsOk, Commit, RequestOk, TargetFor, Snapped;
    SnappedKeepsPlace(v, s);
    Opened(v, clock);
    JobFacts(v, clock);
    if v.job.checkpoint == NodeVerified {
      NodeVerifiedRows(v, s, clock);
    }
    CommitKeeps(v, Snapped(v, s), MasterUpdating, clock);
  }

  lemma NodeVerifiedKeeps(v: View, env: Env, i: Input)
    requires Inv(v, env.clock) && v.run.pc == Enter(NodeVerified)
    ensures Inv(AtNodeVerified(v, env, i), env.clock)
  {
    Opened(v, env.clock);
    if i == Ok && HasRow(v) && HasDeployment(v) && v.job.dryRun {
      SnapshotKeeps(v, Kept(v.job.snapshot, DrySnapshot(v.node)), env.clock);
    } else if AtNodeVerified(v, env, i) == Go(v, Preflight) {
      GoKeeps(v, Preflight, env.clock);
    } else {
      GivingUpKeeps(v, env.clock);
    }
  }

  lemma PreflightKeeps(v: View, env: Env, i: Input)
    requires Inv(v, env.clock) && v.run.pc == Preflight
    ensures Inv(AtPreflight(v, env, i), env.clock)
  {
    Opened(v, env.clock);
    if AtPreflight(v, env, i) == Go(v, Shown(v.master)) {
      GoKeeps(v, Shown(v.master), env.clock);
    } else {
      GivingUpKeeps(v, env.clock);
    }
  }

  lemma ShownRows(v: View, s: Payload, clock: nat)
    requires RowsOk(v, clock) && (v.job.checkpoint == NodeVerified || v.job.checkpoint == Cancelled)
    requires v.job.snapshot.Some? ==> Some(s) == v.job.snapshot
    ensures RowsOk(Snapped(v, s), clock)
  {
    assert Examined(v, v);
  }

  lemma SavedKeeps(v: View, s: Payload, clock: nat)
    requires Inv(v, clock) && v.run.pc.Shown? && (v.job.snapshot.Some? ==> Some(s) == v.job.snapshot)
    ensures Inv(Go(Snapped(v, s), Tested), clock)
  {
    hide Snapped, RequestOk;
    SnappedKeepsPlace(v, s);
    Opened(v, clock);
    ShownRows(v, s, clock);
    PlaceKeeps(Snapped(v, s), Tested, clock);
  }

  lemma ShownKeeps(v: View, env: Env, i: Input)
    requires Inv(v, env.clock) && v.run.pc.Shown?
    ensures Inv(AtShown(v, env, i), env.clock)
  {
    Opened(v, env.clock);
    if i == Ok {
      SavedKeeps(v, Kept(v.job.snapshot, SafeSnapshot(v.run.pc.record)), env.clock);
    } else {
      GivingUpKeeps(v, env.clock);
    }
  }

  lemma TestedKeeps(v: View, env: Env, i: Input)
    requires Inv(v, env.clock) && v.run.pc == Tested
    ensures Inv(AtTested(v, env, i), env.clock)
  {
    Opened(v, env.clock);
    if i == Ok && TargetOf(v).Some? {
      SnapshotKeeps(v, v.job.snapshot.value, env.clock);
      assert Snapped(v, v.job.snapshot.value) == v;
    } else {
      GivingUpKeeps(v, env.clock);
    }
  }

  // ---- The Master switch ----

  /** Writing a built target puts the record on that target, with the fingerprint that was sent. */
  lemma WriteIsOnTarget(n: MasterNode, s: Payload, host: string, c: PanelConfig, m: Mutation)
    requires KnownScheme(c) && m == Pinned(Target(s, host, c), m.pinnedCertSha256)
    ensures OnTarget(Overlay(n, m), Target(s, host, c))
  {
  }

  lemma ExtendedLog(id: JobId, log: seq<MasterWrite>, w: MasterWrite)
    ensures WasSwitched(id, log + [w]) <==> WasSwitched(id, log) || w.author == Switcher(id)
  {
    assert forall k :: 0 <= k < |log| ==> (log + [w])[k] == log[k];
    assert (log + [w])[|log|] == w;
    if WasSwitched(id, log) {
      var k :| 0 <= k < |log| && log[k].author == Switcher(id);
      assert (log + [w])[k].author == Switcher(id);
    }
  }

  lemma SwitchRows(v: View, m: Mutation, clock: nat)
    requires RowsOk(v, clock) && TargetOf(v).Some? && m == Pinned(TargetOf(v).value, m.pinnedCertSha256)
    requires v.job.active ==> v.job.checkpoint == MasterUpdating
    ensures RowsOk(Written(v, m, Switcher(v.id)), clock)
    ensures WasSwitched(v.id, Written(v, m, Switcher(v.id)).log)
  {
    assert Examined(v, v);
    var after := Written(v, m, Switcher(v.id));
    var w := MasterWrite(Switcher(v.id), after.master);
    ExtendedLog(v.id, v.log, w);
    WriteIsOnTarget(v.master, v.job.snapshot.value, v.vps[v.job.newVps.value].host, v.deployment.value.config.value, m);
    assert TargetOf(after) == TargetOf(v);
    assert after.log == v.log + [w];
  }

  lemma RollbackRows(v: View, m: Mutation, clock: nat)
    requires RowsOk(v, clock) && v.job.snapshot.Some? && m == FromSnapshot(v.job.snapshot.value, m.apiToken)
    requires v.job.active ==> RollbackStage(v.job.checkpoint)
    ensures RowsOk(Written(v, m, Reverter(v.id)), clock)
  {
    assert Examined(v, v);
    var after := Written(v, m, Reverter(v.id));
    var w := MasterWrite(Reverter(v.id), after.master);
    ExtendedLog(v.id, v.log, w);
    assert TargetOf(after) == TargetOf(v);
    assert after.log == v.log + [w];
  }

  lemma LateJob(v: View, target: Checkpoint, clock: nat)
    requires RowsOk(v, clock) && 8 <= Rank(v.job.checkpoint) <= 14 && (v.job.active || Rank(v.job.checkpoint) <= 11)
    requires target == Next(v.job.checkpoint) && target != Completed
    ensures JobOk(Done(Marked(v, target), target).job, clock)
  {
    JobFacts(v, clock);
  }

  /** Moves from the first marker of the switch on. */
  lemma LateRows(v: View, target: Checkpoint, clock: nat)
    requires RowsOk(v, clock) && 8 <= Rank(v.job.checkpoint) <= 14 && (v.job.active || Rank(v.job.checkpoint) <= 11)
    requires target == Next(v.job.checkpoint) && target != Completed
    requires !v.job.dryRun && target == MasterUpdated ==> WasSwitched(v.id, v.log)
    ensures RowsOk(Done(Marked(v, target), target), clock)
  {
    hide JobOk, CandidateOk, NamesOk, OneServerPerAttempt, OldOk, DeploymentOk, LogOk, SwitchesOk, RollbacksOk, TargetFor,
      Marked;
    LateChanges(v, target, clock);
    LateJob(v, target, clock);
    LateCandidate(v, target, clock);
    LateLog(v, target, clock);
    assert Examined(v, v);
  }

  /** Nothing changes but the checkpoint, the marker and the count of advances. */
  lemma LateChanges(v: View, target: Checkpoint, clock: nat)
    requires RowsOk(v, clock) && 8 <= Rank(v.job.checkpoint) <= 14
    requires target == Next(v.job.checkpoint) && target != Completed
    ensures var w := Done(Marked(v, target), target);
            && w == v.(job := w.job) && w.job.attempt == v.job.attempt && w.job.dryRun == v.job.dryRun
            && w.job.active == v.job.active && w.job.oldVps == v.job.oldVps && w.job.node == v.job.node
            && w.job.newVps == v.job.newVps && w.job.snapshot == v.job.snapshot && w.job.checkpoint == target
            && w.job.verifiedVps == v.job.verifiedVps
  {
    MarkedIs(v, target);
    var w := Done(Marked(v, target), target);
    assert w.job == Marked(v, target).job.(checkpoint := target, active := w.job.active, advances := w.job.advances);
    hide Marked;
  }

  lemma MarkedIs(v: View, target: Checkpoint)
    ensures var m := Marked(v, target);
            && m == v.(job := m.job)
            && m.job == v.job.(masterUpdated := m.job.masterUpdated, masterVerified := m.job.masterVerified,
                               finalVerified := m.job.finalVerified)
  {
  }

  lemma LateCandidate(v: View, target: Checkpoint, clock: nat)
    requires RowsOk(v, clock) && 8 <= Rank(v.job.checkpoint) <= 14
    requires target == Next(v.job.checkpoint) && target != Completed
    ensures var w := Done(Marked(v, target), target);
            CandidateOk(w.id, w.job, w.vps, w.servers) && DeploymentOk(w.job, w.deployment, TargetOf(v))
  {
    hide JobOk, NamesOk, OneServerPerAttempt, OldOk, LogOk, SwitchesOk, RollbacksOk, TargetFor, Marked;
    LateChanges(v, target, clock);
    assert Examined(v, v);
  }

  lemma LateLog(v: View, target: Checkpoint, clock: nat)
    requires RowsOk(v, clock) && 8 <= Rank(v.job.checkpoint) <= 14
    requires target == Next(v.job.checkpoint) && target != Completed
    requires !v.job.dryRun && target == MasterUpdated ==> WasSwitched(v.id, v.log)
    ensures var w := Done(Marked(v, target), target);
            && SwitchesOk(w.id, Live(w.job), w.job.checkpoint, TargetOf(w), w.log)
            && RollbacksOk(w.id, Live(w.job), w.job.checkpoint, w.job.snapshot, w.log)
  {
    hide JobOk, CandidateOk, NamesOk, OneServerPerAttempt, OldOk, DeploymentOk, LogOk, TargetFor, WasSwitched, OnTarget,
      NoSwitchAfter;
    assert Examined(v, v);
  }

  lemma MarkedKeepsPlace(v: View, target: Checkpoint)
    ensures var m := Marked(v, target);
            && m.run == v.run && m.job.checkpoint == v.job.checkpoint && m.job.advances == v.job.advances
            && m.job.active == v.job.active && m.job.dryRun == v.job.dryRun
  {
  }

  lemma LateKeeps(v: View, target: Checkpoint, clock: nat)
    requires Inv(v, clock) && InStage(v.run.pc) && Rank(StageOf(v.run.pc)) >= 8
    requires target == Next(StageOf(v.run.pc)) && target != Completed
    requires !v.job.dryRun && target == MasterUpdated ==> WasSwitched(v.id, v.log)
    requires v.job.active || Rank(StageOf(v.run.pc)) <= 11
    ensures Inv(Commit(v, Marked(v, target), target), clock)
  {
    hide LocalsOk, Commit, Marked, RequestOk;
    Opened(v, clock);
    JobFacts(v, clock);
    MarkedKeepsPlace(v, target);
    if !Terminal(v.job.checkpoint) {
      LateRows(v, target, clock);
    }
    CommitKeeps(v, Marked(v, target), target, clock);
  }

  lemma MasterUpdatingKeeps(v: View, env: Env, i: Input)
    requires Inv(v, env.clock) && v.run.pc == Enter(MasterUpdating)
    ensures Inv(AtMasterUpdating(v, env, i), env.clock)
  {
    hide TargetFor;
    Opened(v, env.clock);
    if i == Ok && v.job.dryRun {
      LateKeeps(v, MasterUpdated, env.clock);
    } else if i == Ok && TargetOf(v).Some? && Renews(v, env) {
      GoKeeps(v, SwitchPin(TargetOf(v).value), env.clock);
    } else {
      GivingUpKeeps(v, env.clock);
    }
  }

  lemma SwitchPinKeeps(v: View, env: Env, i: Input)
    requires Inv(v, env.clock) && v.run.pc.SwitchPin?
    ensures Inv(AtSwitchPin(v, env, i), env.clock)
  {
    hide TargetFor;
    Opened(v, env.clock);
    if i.Fingerprint? {
      GoKeeps(v, Switch(Pinned(v.run.pc.m, i.text)), env.clock);
    } else {
      GivingUpKeeps(v, env.clock);
    }
  }

  lemma SwitchKeeps(v: View, env: Env, i: Input)
    requires Inv(v, env.clock) && v.run.pc.Switch?
    ensures Inv(AtSwitch(v, env, i), env.clock)
  {
    hide TargetFor, Overlay;
    Opened(v, env.clock);
    var after := Written(v, v.run.pc.m, Switcher(v.id));
    if i == Ok {
      SwitchRows(v, v.run.pc.m, env.clock);
      PlaceKeeps(after, Switched, env.clock);
    } else if i == Transient(true) || i == Broken(true) {
      SwitchRows(v, v.run.pc.m, env.clock);
      GivingUpKeeps(after, env.clock);
    } else {
      GivingUpKeeps(v, env.clock);
    }
  }

  lemma SwitchedKeeps(v: View, env: Env, i: Input)
    requires Inv(v, env.clock) && v.run.pc == Switched
    ensures Inv(AtSwitched(v, env, i), env.clock)
  {
    Opened(v, env.clock);
    if i == Ok {
      LateKeeps(v, MasterUpdated, env.clock);
    } else {
      GivingUpKeeps(v, env.clock);
    }
  }

  lemma MasterUpdatedKeeps(v: View, env: Env, i: Input)
    requires Inv(v, env.clock) && v.run.pc == Enter(MasterUpdated)
    ensures Inv(AtMasterUpdated(v, env, i), env.clock)
  {
    Opened(v, env.clock);
    if i == Ok {
      LateKeeps(v, MasterVerifying, env.clock);
    } else {
      GivingUpKeeps(v, env.clock);
    }
  }

  lemma MasterVerifyingKeeps(v: View, env: Env, i: Input)
    requires Inv(v, env.clock) && v.run.pc == Enter(MasterVerifying)
    ensures Inv(AtMasterVerifying(v, env, i), env.clock)
  {
    hide TargetFor;
    Opened(v, env.clock);
    if i == Ok && v.job.dryRun {
      LateKeeps(v, MasterVerified, env.clock);
    } else if i == Ok && TargetOf(v).Some? && Renews(v, env) {
      GoKeeps(v, VerifyPin(TargetOf(v).value), env.clock);
    } else {
      GivingUpKeeps(v, env.clock);
    }
  }

  lemma VerifyPinKeeps(v: View, env: Env, i: Input)
    requires Inv(v, env.clock) && v.run.pc.VerifyPin?
    ensures Inv(AtVerifyPin(v, env, i), env.clock)
  {
    hide TargetFor;
    Opened(v, env.clock);
    if i.Fingerprint? {
      GoKeeps(v, Verify(Pinned(v.run.pc.m, i.text)), env.clock);
    } else {
      GivingUpKeeps(v, env.clock);
    }
  }

  lemma VerifyKeeps(v: View, env: Env, i: Input)
    requires Inv(v, env.clock) && v.run.pc.Verify?
    ensures Inv(AtVerify(v, env, i), env.clock)
  {
    hide Verifies, TargetFor;
    Opened(v, env.clock);
    if i.Probed? {
      GoKeeps(v, if Verifies(v.master, i.probe, v.run.pc.m) then Verified else Rollback(MasterVerifying), env.clock);
    } else {
      GivingUpKeeps(v, env.clock);
    }
  }

  lemma VerifiedKeeps(v: View, env: Env, i: Input)
    requires Inv(v, env.clock) && v.run.pc == Verified
    ensures Inv(AtVerified(v, env, i), env.clock)
  {
    Opened(v, env.clock);
    if i == Ok {
      LateKeeps(v, MasterVerified, env.clock);
    } else {
      GivingUpKeeps(v, env.clock);
    }
  }

  lemma RollbackKeeps(v: View, env: Env, i: Input)
    requires Inv(v, env.clock) && v.run.pc.Rollback?
    ensures Inv(AtRollback(v, env, i), env.clock)
  {
    hide AtRollback, FromSnapshot;
    Opened(v, env.clock);
    RollbackIs(v, env, i);
    var after := AtRollback(v, env, i);
    if after.run.pc.RollWrite? {
      GoKeeps(v, after.run.pc, env.clock);
    } else {
      GivingUpKeeps(v, env.clock);
    }
  }

  lemma RollbackIs(v: View, env: Env, i: Input)
    requires v.run.pc.Rollback?
    ensures var w := AtRollback(v, env, i);
            || w == v || w == Fall(v)
            || (v.job.snapshot.Some? && w.run.pc.RollWrite? && w == Go(v, w.run.pc) && w.run.pc.stage == v.run.pc.stage
                && w.run.pc.m == FromSnapshot(v.job.snapshot.value, w.run.pc.m.apiToken))
  {
    hide Text, Flag, Number, Tags;
  }

  lemma RollWriteKeeps(v: View, env: Env, i: Input)
    requires Inv(v, env.clock) && v.run.pc.RollWrite?
    ensures Inv(AtRollWrite(v, env, i), env.clock)
  {
    hide FromSnapshot, Overlay;
    Opened(v, env.clock);
    var after := Written(v, v.run.pc.m, Reverter(v.id));
    if i == Ok {
      RollbackRows(v, v.run.pc.m, env.clock);
      PlaceKeeps(after, RollCheck(v.run.pc.stage, v.run.pc.m), env.clock);
    } else if i == Transient(true) || i == Broken(true) {
      RollbackRows(v, v.run.pc.m, env.clock);
      GivingUpKeeps(after, env.clock);
    } else {
      GivingUpKeeps(v, env.clock);
    }
  }

  lemma RollCheckKeeps(v: View, env: Env, i: Input)
    requires Inv(v, env.clock) && v.run.pc.RollCheck?
    ensures Inv(AtRollCheck(v, env, i), env.clock)
  {
    Opened(v, env.clock);
    GivingUpKeeps(v, env.clock);
  }

  // ---- The final check and the cleanup of the old server ----

  lemma MasterVerifiedKeeps(v: View, env: Env, i: Input)
    requires Inv(v, env.clock) && v.run.pc == Enter(MasterVerified)
    ensures Inv(AtMasterVerified(v, env, i), env.clock)
  {
    Opened(v, env.clock);
    if i == Ok {
      LateKeeps(v, FinalCheck, env.clock);
    } else {
      GivingUpKeeps(v, env.clock);
    }
  }

  lemma FinalCheckKeeps(v: View, env: Env, i: Input)
    requires Inv(v, env.clock) && v.run.pc == Enter(FinalCheck)
    ensures Inv(AtFinalCheck(v, env, i), env.clock)
  {
    Opened(v, env.clock);
    var after := AtFinalCheck(v, env, i);
    if InStage(after.run.pc) && after != v {
      GoKeeps(v, after.run.pc, env.clock);
    } else {
      GivingUpKeeps(v, env.clock);
    }
  }

  lemma FinalKeeps(v: View, env: Env, i: Input)
    requires Inv(v, env.clock) && v.run.pc == Final
    ensures Inv(AtFinal(v, env, i), env.clock)
  {
    Opened(v, env.clock);
    if i == Seen(Reachable) {
      GoKeeps(v, FinalDone, env.clock);
    } else if i == Seen(Unreachable) {
      GoKeeps(v, Rollback(FinalCheck), env.clock);
    } else {
      GivingUpKeeps(v, env.clock);
    }
  }

  lemma FinalDoneKeeps(v: View, env: Env, i: Input)
    requires Inv(v, env.clock) && v.run.pc == FinalDone
    ensures Inv(AtFinalDone(v, env, i), env.clock)
  {
    Opened(v, env.clock);
    if i == Ok {
      LateKeeps(v, FinalVerified, env.clock);
    } else {
      GivingUpKeeps(v, env.clock);
    }
  }

  lemma FinalVerifiedKeeps(v: View, env: Env, i: Input)
    requires Inv(v, env.clock) && v.run.pc == Enter(FinalVerified)
    ensures Inv(AtFinalVerified(v, env, i), env.clock)
  {
    Opened(v, env.clock);
    JobFacts(v, env.clock);
    if i == Ok {
      LateKeeps(v, OldVpsCleanup, env.clock);
    } else {
      GivingUpKeeps(v, env.clock);
    }
  }

  lemma OldVpsCleanupKeeps(v: View, env: Env, i: Input)
    requires Inv(v, env.clock) && v.run.pc == Enter(OldVpsCleanup)
    ensures Inv(AtOldVpsCleanup(v, env, i), env.clock)
  {
    Opened(v, env.clock);
    var after := AtOldVpsCleanup(v, env, i);
    if after.run.pc.DryDelete? || after.run.pc.OldGet? {
      GoKeeps(v, after.run.pc, env.clock);
    } else {
      GivingUpKeeps(v, env.clock);
    }
  }

  lemma OldGetKeeps(v: View, env: Env, i: Input)
    requires Inv(v, env.clock) && v.run.pc.OldGet?
    ensures Inv(AtOldGet(v, env, i), env.clock)
  {
    Opened(v, env.clock);
    var after := AtOldGet(v, env, i);
    if after.run.pc.OldDone? || after.run.pc.OldDelete? {
      GoKeeps(v, after.run.pc, env.clock);
    } else {
      GivingUpKeeps(v, env.clock);
    }
  }

  /** The ways out of a deletion that reached the provider. */
  lemma DeletedKeeps(v: View, k: ServerId, pc: Pc, clock: nat)
    requires Inv(v, clock) && (v.run.pc.OldDelete? || v.run.pc.DryDelete?)
    requires pc == if v.job.dryRun then DryDone else OldDone
    ensures Inv(Go(Killed(v, k), pc), clock)
  {
    Opened(v, clock);
    KilledRows(v, k, clock);
    PlaceKeeps(Killed(v, k), pc, clock);
  }

  lemma DeletedLeavesKeeps(v: View, k: ServerId, clock: nat)
    requires Inv(v, clock) && (v.run.pc.OldDelete? || v.run.pc.DryDelete?)
    ensures Inv(Leave(Killed(v, k)), clock)
    ensures Inv(Fall(Killed(v, k)), clock)
  {
    Opened(v, clock);
    KilledRows(v, k, clock);
    GivingUpKeeps(Killed(v, k), clock);
  }

  lemma OldDeleteKeeps(v: View, env: Env, i: Input)
    requires Inv(v, env.clock) && v.run.pc.OldDelete?
    ensures Inv(AtOldDelete(v, env, i), env.clock)
  {
    Opened(v, env.clock);
    match i {
      case Ok => DeletedKeeps(v, v.run.pc.server, OldDone, env.clock);
      case Transient(_) => DeletedLeavesKeeps(v, v.run.pc.server, env.clock); GivingUpKeeps(v, env.clock);
      case Broken(_) => DeletedLeavesKeeps(v, v.run.pc.server, env.clock); GivingUpKeeps(v, env.clock);
      case _ => GivingUpKeeps(v, env.clock);
    }
  }

  lemma DryDeleteKeeps(v: View, env: Env, i: Input)
    requires Inv(v, env.clock) && v.run.pc.DryDelete?
    ensures Inv(AtDryDelete(v, env, i), env.clock)
  {
    Opened(v, env.clock);
    match i {
      case Ok => DeletedKeeps(v, v.run.pc.server, DryDone, env.clock);
      case NotFound => GoKeeps(v, DryDone, env.clock);
      case _ => GivingUpKeeps(v, env.clock);
    }
  }

  lemma ReplacementIsPossible(v: View, clock: nat)
    requires RowsOk(v, clock) && v.job.active && v.job.checkpoint == OldVpsCleanup && !v.job.dryRun
    ensures HasPanel(v) && v.job.oldVps in v.vps
  {
    hide NamesOk, OneServerPerAttempt, SwitchesOk, RollbacksOk, LogOk;
    assert Examined(v, v);
  }

  lemma ReplacedRows(v: View, clock: nat)
    requires RowsOk(v, clock) && v.job.active && v.job.checkpoint == OldVpsCleanup && !v.job.dryRun
    ensures HasPanel(v) && v.job.oldVps in v.vps
    ensures RowsOk(Done(Replaced(v), Completed), clock)
  {
    hide NamesOk, OneServerPerAttempt, LogOk, TargetFor, CanTransition, WasSwitched, OnTarget;
    ReplacementIsPossible(v, clock);
    assert Examined(v, v);
  }

  lemma ReplacedJob(v: View)
    requires HasPanel(v) && v.job.oldVps in v.vps
    ensures Replaced(v).job == v.job.(oldDeleted := true)
  {
  }

  lemma OldDoneKeeps(v: View, env: Env, i: Input)
    requires Inv(v, env.clock) && v.run.pc == OldDone
    ensures Inv(AtOldDone(v, env, i), env.clock)
  {
    Opened(v, env.clock);
    if i == Ok && CanTransition(v.node.state, Healthy) {
      ReplacedRows(v, env.clock);
      CommitKeeps(v, Replaced(v), Completed, env.clock);
    } else {
      GivingUpKeeps(v, env.clock);
    }
  }

  lemma SimulatedRows(v: View, clock: nat)
    requires RowsOk(v, clock) && v.job.active && v.job.checkpoint == OldVpsCleanup && v.job.dryRun
    ensures HasRow(v)
    ensures var k := v.job.newVps.value;
            RowsOk(Done(SetVps(v, k, v.vps[k].(state := VpsDeleted)), Completed), clock)
  {
    assert Examined(v, v);
  }

  lemma DryDoneKeeps(v: View, env: Env, i: Input)
    requires Inv(v, env.clock) && v.run.pc == DryDone
    ensures Inv(AtDryDone(v, env, i), env.clock)
  {
    Opened(v, env.clock);
    if i == Ok {
      SimulatedRows(v, env.clock);
      CommitKeeps(v, SetVps(v, v.job.newVps.value, v.vps[v.job.newVps.value].(state := VpsDeleted)), Completed, env.clock);
    } else {
      GivingUpKeeps(v, env.clock);
    }
  }

  // ---- Failure, cancel, the loop, crashes and time ----

  /** The row of a node in the workflow after an unsuccessful job. */
  function Released(n: NodeRow, j: Job): NodeRow {
    if !InWorkflow(n.state) then n
    else n.(state := if j.force && !j.masterUpdated && j.original.Some? then j.original.value else NodeFailed)
  }

  /** Ending a job that has not ended is never refused, wherever its node is. */
  lemma EndingIsNeverRefused(v: View, target: Checkpoint, clock: nat)
    requires RowsOk(v, clock) && !Terminal(v.job.checkpoint) && (target == Failed || target == Cancelled)
    ensures Ended(v, target).job == v.job.(checkpoint := target, active := false)
    ensures Ended(v, target).node == if v.job.dryRun then v.node else Released(v.node, v.job)
    ensures Ended(v, target) == v.(job := Ended(v, target).job, node := Ended(v, target).node)
  {
    JobFacts(v, clock);
  }

  lemma EndedRows(v: View, target: Checkpoint, clock: nat)
    requires RowsOk(v, clock) && !Terminal(v.job.checkpoint) && (target == Failed || target == Cancelled)
    ensures RowsOk(Ended(v, target), clock)
  {
    assert Examined(v, v);
    EndingIsNeverRefused(v, target, clock);
    assert TargetOf(Ended(v, target)) == TargetOf(v);
  }

  lemma FailingKeeps(v: View, clock: nat)
    requires Inv(v, clock) && v.run.pc == Failing
    ensures Inv(AtFailing(v), clock)
  {
    Opened(v, clock);
    JobFacts(v, clock);
    if !Terminal(v.job.checkpoint) {
      EndedRows(v, Failed, clock);
      EndingIsNeverRefused(v, Failed, clock);
      GivingUpKeeps(Ended(v, Failed), clock);
    } else {
      GivingUpKeeps(v, clock);
    }
  }

  lemma LoopTopKeeps(v: View, env: Env, i: Input)
    requires Inv(v, env.clock) && v.run.pc == LoopTop
    ensures Inv(AtLoopTop(v, env, i), env.clock)
  {
    Opened(v, env.clock);
    JobFacts(v, env.clock);
    GivingUpKeeps(v, env.clock);
    var after := AtLoopTop(v, env, i);
    if after.run.pc.Enter? {
      RowsIgnoreRun(v, after.run, env.clock);
      Closed(after, env.clock);
    }
  }

  lemma CancelKeeps(v: View, clock: nat)
    requires Inv(v, clock)
    ensures Inv(Cancel(v), clock)
  {
    Opened(v, clock);
    JobFacts(v, clock);
    if !Terminal(v.job.checkpoint) && !v.job.masterUpdated {
      EndedRows(v, Cancelled, clock);
      EndingIsNeverRefused(v, Cancelled, clock);
      Closed(Ended(v, Cancelled), clock);
    }
  }

  lemma AcquireKeeps(v: View, clock: nat)
    requires Inv(v, clock)
    ensures Inv(Acquire(v), clock)
  {
    Opened(v, clock);
    var after := Acquire(v);
    if after != v {
      RowsIgnoreRun(v, after.run, clock);
      Closed(after, clock);
    }
  }

  lemma CrashKeeps(v: View, clock: nat)
    requires Inv(v, clock)
    ensures Inv(Crash(v), clock)
  {
    Opened(v, clock);
    GivingUpKeeps(v, clock);
  }

  lemma TickKeeps(v: View, clock: nat, later: nat)
    requires Inv(v, clock) && clock <= later
    ensures Inv(v, later)
  {
  }

  lemma StageKeeps(v: View, env: Env, i: Input)
    requires Inv(v, env.clock) && v.run.pc.Enter?
    ensures Inv(AtStage(v, env, i), env.clock)
  {
    hide AtCreated, AtProvisioning, AtProvisioned, AtCheckingIp, AtTempCleanup, AtIpVerified, AtDeploying,
      AtNodeVerified, AtMasterUpdating, AtMasterUpdated, AtMasterVerifying, AtMasterVerified, AtFinalCheck,
      AtFinalVerified, AtOldVpsCleanup;
    match v.run.pc.stage {
      case Created => CreatedKeeps(v, env, i);
      case Provisioning => ProvisioningKeeps(v, env, i);
      case Provisioned => ProvisionedKeeps(v, env, i);
      case CheckingIp => CheckingIpKeeps(v, env, i);
      case TempCleanup => TempCleanupKeeps(v, env, i);
      case IpVerified => IpVerifiedKeeps(v, env, i);
      case Deploying => DeployingKeeps(v, env, i);
      case NodeVerified => NodeVerifiedKeeps(v, env, i);
      case MasterUpdating => MasterUpdatingKeeps(v, env, i);
      case MasterUpdated => MasterUpdatedKeeps(v, env, i);
      case MasterVerifying => MasterVerifyingKeeps(v, env, i);
      case MasterVerified => MasterVerifiedKeeps(v, env, i);
      case FinalCheck => FinalCheckKeeps(v, env, i);
      case FinalVerified => FinalVerifiedKeeps(v, env, i);
      case OldVpsCleanup => OldVpsCleanupKeeps(v, env, i);
      case _ => Opened(v, env.clock); GivingUpKeeps(v, env.clock);
    }
  }

  /** The places up to the end of the temporary cleanup. */
  predicate EarlyPlace(pc: Pc) {
    || pc.Lookup? || pc.Mark? || pc.Create? || pc.Persist? || pc.Await? || pc.Gone? || pc.Up?
    || pc.Boot? || pc.Rounds? || pc.Judged? || pc.Reap? || pc.ReapGet? || pc.ReapDelete? || pc.Reaped?
  }

  lemma EarlyKeeps(v: View, env: Env, i: Input)
    requires Inv(v, env.clock) && Plausible(v, env, i) && Visible(v, env, i) && EarlyPlace(v.run.pc)
    ensures Inv(Work(v, env, i), env.clock)
  {
    hide Plausible, Visible, AtLookup, AtMark, AtCreate, AtPersist, AtAwait, AtGone, AtUp, AtBoot, AtRounds, AtJudged,
      AtReap, AtReapGet, AtReapDelete, AtReaped;
    match v.run.pc {
      case Lookup(_, _, _, _, _) => LookupKeeps(v, env, i);
      case Mark(_, _, _) => MarkKeeps(v, env, i);
      case Create(_, _, _, _) => CreateKeeps(v, env, i);
      case Persist(_, _, _) => PersistKeeps(v, env, i);
      case Await(_) => AwaitKeeps(v, env, i);
      case Gone => GoneKeeps(v, env, i);
      case Up(_) => UpKeeps(v, env, i);
      case Boot => BootKeeps(v, env, i);
      case Rounds => RoundsKeeps(v, env, i);
      case Judged(_) => JudgedKeeps(v, env, i);
      case Reap(_, _) => ReapKeeps(v, env, i);
      case ReapGet(_, _, _) => ReapGetKeeps(v, env, i);
      case ReapDelete(_) => ReapDeleteKeeps(v, env, i);
      case Reaped => ReapedKeeps(v, env, i);
    }
  }

  lemma LaterKeeps(v: View, env: Env, i: Input)
    requires Inv(v, env.clock) && InStage(v.run.pc) && !v.run.pc.Enter? && !EarlyPlace(v.run.pc)
    ensures Inv(Work(v, env, i), env.clock)
  {
    hide AtDeploy, AtPreflight, AtShown, AtTested, AtSwitchPin, AtSwitch, AtSwitched, AtVerifyPin, AtVerify, AtVerified,
      AtRollback, AtRollWrite, AtRollCheck, AtFinal, AtFinalDone, AtOldGet, AtOldDelete, AtOldDone, AtDryDelete,
      AtDryDone;
    match v.run.pc {
      case Deploy(_) => DeployKeeps(v, env, i);
      case Preflight => PreflightKeeps(v, env, i);
      case Shown(_) => ShownKeeps(v, env, i);
      case Tested => TestedKeeps(v, env, i);
      case SwitchPin(_) => SwitchPinKeeps(v, env, i);
      case Switch(_) => SwitchKeeps(v, env, i);
      case Switched => SwitchedKeeps(v, env, i);
      case VerifyPin(_) => VerifyPinKeeps(v, env, i);
      case Verify(_) => VerifyKeeps(v, env, i);
      case Verified => VerifiedKeeps(v, env, i);
      case Rollback(_) => RollbackKeeps(v, env, i);
      case RollWrite(_, _) => RollWriteKeeps(v, env, i);
      case RollCheck(_, _) => RollCheckKeeps(v, env, i);
      case Final => FinalKeeps(v, env, i);
      case FinalDone => FinalDoneKeeps(v, env, i);
      case OldGet(_, _) => OldGetKeeps(v, env, i);
      case OldDelete(_) => OldDeleteKeeps(v, env, i);
      case OldDone => OldDoneKeeps(v, env, i);
      case DryDelete(_) => DryDeleteKeeps(v, env, i);
      case DryDone => DryDoneKeeps(v, env, i);
    }
  }

  /** Every step of a worker keeps the invariant, whatever the outside world answers. */
  lemma WorkKeeps(v: View, env: Env, i: Input)
    requires Inv(v, env.clock) && Plausible(v, env, i) && Visible(v, env, i)
    ensures Inv(Work(v, env, i), env.clock)
  {
    hide Plausible, Visible;
    if EarlyPlace(v.run.pc) {
      EarlyKeeps(v, env, i);
    } else if InStage(v.run.pc) && !v.run.pc.Enter? {
      LaterKeeps(v, env, i);
    } else {
      hide AtStage, AtFailing, AtLoopTop;
      match v.run.pc {
        case Idle =>
        case LoopTop => LoopTopKeeps(v, env, i);
        case Failing => FailingKeeps(v, env.clock);
        case Enter(_) => StageKeeps(v, env, i);
      }
    }
  }
}
